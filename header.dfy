/**
 * The page header: the five converter tabs, the signed-in user's initials
 * and the history badge next to the history button.
 */
module Header {
  import opened Common
  import opened LocalStorage

  datatype Tab = Tab(id: string, caption: string, href: string)

  /** The tabs, in the order the navigation shows them. */
  const Tabs: seq<Tab> := [
    Tab("currency", "Currency", "#currency"),
    Tab("length", "Length", "#length"),
    Tab("weight", "Weight", "#weight"),
    Tab("clothing", "Clothing", "#clothing"),
    Tab("calculator", "Calculator", "#calculator")]

  /** A tab links to the anchor of its id and is captioned (`label`) with its id capitalised. */
  predicate WellFormedTab(t: Tab)
  {
    |t.id| > 0 && t.href == "#" + t.id && t.caption == [UpperChar(t.id[0])] + t.id[1..]
  }

  /** Every tab is well formed and no two tabs share an id. */
  lemma TabsWellFormed()
    ensures |Tabs| == 5
    ensures forall i :: 0 <= i < |Tabs| ==> WellFormedTab(Tabs[i])
    ensures forall i, j :: 0 <= i < j < |Tabs| ==> Tabs[i].id != Tabs[j].id
  {
    CurrencyTab();
    LengthTab();
    WeightTab();
    ClothingTab();
    CalculatorTab();
    TabIdsDistinct();
  }

  // One tab at a time, so that each literal is compared in a proof of its own.
  lemma CurrencyTab() ensures WellFormedTab(Tabs[0]) { assert Tabs[0].id[1..] == "urrency"; }
  lemma LengthTab() ensures WellFormedTab(Tabs[1]) { assert Tabs[1].id[1..] == "ength"; }
  lemma WeightTab() ensures WellFormedTab(Tabs[2]) { assert Tabs[2].id[1..] == "eight"; }
  lemma ClothingTab() ensures WellFormedTab(Tabs[3]) { assert Tabs[3].id[1..] == "lothing"; }
  lemma CalculatorTab() ensures WellFormedTab(Tabs[4]) { assert Tabs[4].id[1..] == "alculator"; }

  lemma TabIdsDistinct()
    ensures forall i, j :: 0 <= i < j < |Tabs| ==> Tabs[i].id != Tabs[j].id
  {
    assert Tabs[0].id[1] != Tabs[3].id[1];
    assert |Tabs[0].id| != |Tabs[4].id| && |Tabs[3].id| != |Tabs[4].id|;
  }

  /**
   * `parts.map(n => n[0]).join('')`: the first character of every part; an
   * empty part gives `undefined`, which joins as nothing.
   */
  function FirstChars(parts: seq<string>): (r: string)
    ensures |r| <= |parts|
    ensures forall c :: c in r ==> exists i :: 0 <= i < |parts| && |parts[i]| > 0 && parts[i][0] == c
    ensures (forall i :: 0 <= i < |parts| ==> parts[i] == "") ==> r == ""
  {
    if |parts| == 0 then ""
    else
      var rest := FirstChars(parts[1..]);
      assert forall c :: c in rest ==> exists i :: 1 <= i < |parts| && |parts[i]| > 0 && parts[i][0] == c by {
        forall c | c in rest ensures exists i :: 1 <= i < |parts| && |parts[i]| > 0 && parts[i][0] == c {
          var j :| 0 <= j < |parts[1..]| && |parts[1..][j]| > 0 && parts[1..][j][0] == c;
          assert parts[j + 1] == parts[1..][j];
        }
      }
      (if |parts[0]| > 0 then [parts[0][0]] else "") + rest
  }

  /** A word that `n[0]` reads a character of. */
  predicate NonEmptyWord(w: string) { w != "" }

  /** The initials are the first characters of exactly the non-empty words, in order. */
  lemma {:induction false} FirstCharsOfWords(parts: seq<string>)
    ensures InitialsOf(FirstChars(parts), Where(parts, NonEmptyWord))
  {
    if |parts| > 0 {
      FirstCharsOfWords(parts[1..]);
      if parts[0] != "" {
        FirstWordKept(parts);
      } else {
        assert Where(parts, NonEmptyWord) == Where(parts[1..], NonEmptyWord);
        assert FirstChars(parts) == FirstChars(parts[1..]);
      }
    }
  }

  /** The induction step of `FirstCharsOfWords` for a non-empty first word. */
  lemma FirstWordKept(parts: seq<string>)
    requires |parts| > 0 && parts[0] != ""
    requires InitialsOf(FirstChars(parts[1..]), Where(parts[1..], NonEmptyWord))
    ensures InitialsOf(FirstChars(parts), Where(parts, NonEmptyWord))
  {
    assert Where(parts, NonEmptyWord) == [parts[0]] + Where(parts[1..], NonEmptyWord);
    assert FirstChars(parts) == [parts[0][0]] + FirstChars(parts[1..]);
    InitialsOfCons(parts[0], FirstChars(parts[1..]), Where(parts[1..], NonEmptyWord));
  }

  /** `chars` holds the first character of each of `words`, in order. */
  predicate InitialsOf(chars: string, words: seq<string>)
  {
    |chars| == |words| && forall i :: 0 <= i < |chars| ==> |words[i]| > 0 && chars[i] == words[i][0]
  }

  lemma InitialsOfCons(w: string, chars: string, words: seq<string>)
    requires w != "" && InitialsOf(chars, words)
    ensures InitialsOf([w[0]] + chars, [w] + words)
  {
    var c, ws := [w[0]] + chars, [w] + words;
    forall i | 1 <= i < |c|
      ensures |ws[i]| > 0 && c[i] == ws[i][0]
    {
      assert ws[i] == words[i - 1] && c[i] == chars[i - 1];
    }
  }

  /**
   * The initials of two runs of words are the initials of each, in order, and
   * a single word gives its first character, or nothing when it is empty.
   */
  lemma {:induction false} FirstCharsAppend(a: seq<string>, b: seq<string>, w: string)
    ensures FirstChars(a + b) == FirstChars(a) + FirstChars(b)
    ensures FirstChars([w]) == if w == "" then "" else [w[0]]
    decreases |a|
  {
    if |a| > 0 {
      assert (a + b)[1..] == a[1..] + b;
      FirstCharsAppend(a[1..], b, w);
    } else {
      assert a + b == b;
    }
    assert [w][1..] == [];
  }

  /** `getUserInitials`: 'U' without a name, else the first two word initials, upper-cased. */
  function UserInitials(name: Option<string>): (r: string)
    ensures name.None? || name == Some("") ==> r == "U"
    ensures |r| <= 2
    ensures forall i :: 0 <= i < |r| ==> r[i] == UpperChar(r[i])
  {
    if name.None? || name.value == "" then "U"
    else
      var chars := FirstChars(Split(name.value, ' '));
      Upper(if |chars| <= 2 then chars else chars[..2])
  }

  /**
   * A non-empty name gives the upper-cased first characters of its first two
   * non-empty space-separated words (fewer when it has fewer).
   */
  lemma UserInitialsOfWords(name: string)
    requires name != ""
    ensures UpperInitialsOf(UserInitials(Some(name)), Where(Split(name, ' '), NonEmptyWord))
  {
    var chars := FirstChars(Split(name, ' '));
    FirstCharsOfWords(Split(name, ' '));
    UpperFirstTwo(chars, Where(Split(name, ' '), NonEmptyWord));
  }

  /** `r` holds the upper-cased first characters of the first two of `words` (fewer when there are fewer). */
  predicate UpperInitialsOf(r: string, words: seq<string>)
  {
    && |r| == (if |words| < 2 then |words| else 2)
    && forall i :: 0 <= i < |r| ==> |words[i]| > 0 && r[i] == UpperChar(words[i][0])
  }

  lemma UpperFirstTwo(chars: string, words: seq<string>)
    requires InitialsOf(chars, words)
    ensures UpperInitialsOf(Upper(if |chars| <= 2 then chars else chars[..2]), words)
  {
  }

  /** A first and a last name give the two upper-cased initials. */
  lemma TwoWordInitials(first: string, last: string)
    requires |first| > 0 && |last| > 0 && ' ' !in first && ' ' !in last
    ensures UserInitials(Some(first + " " + last)) == [UpperChar(first[0]), UpperChar(last[0])]
  {
    SplitAtOnly(first, ' ', last);
    assert first + " " + last == first + [' '] + last;
    assert FirstChars([first, last]) == [first[0], last[0]];
  }

  /** Only the first two initials are kept. */
  lemma ThreeWordInitials(first: string, middle: string, last: string)
    requires |first| > 0 && |middle| > 0 && |last| > 0
    requires ' ' !in first && ' ' !in middle && ' ' !in last
    ensures UserInitials(Some(first + " " + middle + " " + last)) == [UpperChar(first[0]), UpperChar(middle[0])]
  {
    var name := first + " " + middle + " " + last;
    ThreeWordsSplit(first, middle, last);
    ThreeFirstChars(first, middle, last);
    var chars := FirstChars(Split(name, ' '));
    assert chars == [first[0], middle[0], last[0]];
    assert chars[..2] == [first[0], middle[0]];
    assert Upper(chars[..2]) == [UpperChar(first[0]), UpperChar(middle[0])];
  }

  lemma ThreeFirstChars(first: string, middle: string, last: string)
    requires |first| > 0 && |middle| > 0 && |last| > 0
    ensures FirstChars([first, middle, last]) == [first[0], middle[0], last[0]]
  {
    var words := [first, middle, last];
    assert words[1..] == [middle, last] && words[1..][1..] == [last];
    assert FirstChars([last]) == [last[0]];
    assert FirstChars([middle, last]) == [middle[0], last[0]];
  }

  lemma ThreeWordsSplit(first: string, middle: string, last: string)
    requires ' ' !in first && ' ' !in middle && ' ' !in last
    ensures Split(first + " " + middle + " " + last, ' ') == [first, middle, last]
  {
    var rest := middle + [' '] + last;
    var s := first + [' '] + rest;
    assert first + " " + middle + " " + last == s;
    IndexOfAfter(first, ' ', rest);
    assert s[..|first|] == first && s[|first| + 1..] == rest;
    SplitAtOnly(middle, ' ', last);
  }

  /** A name made only of spaces is not empty, so it gets no 'U' but no initials either. */
  lemma SpacesOnlyNameHasNoInitials(name: string)
    requires |name| > 0 && forall i :: 0 <= i < |name| ==> name[i] == ' '
    ensures UserInitials(Some(name)) == ""
  {
    SplitOfSeparators(name, ' ');
  }

  /** A single word gives its one initial. */
  lemma OneWordInitials(word: string)
    requires |word| > 0 && ' ' !in word
    ensures UserInitials(Some(word)) == [UpperChar(word[0])]
  {
    SplitOfNoSeparator(word, ' ');
    FirstCharsAppend([], [], word);
  }

  /** A space before the name makes an empty first word, which adds no initial. */
  lemma LeadingSpaceInitials(word: string)
    requires |word| > 0 && ' ' !in word
    ensures UserInitials(Some(" " + word)) == [UpperChar(word[0])]
  {
    assert " " + word == "" + [' '] + word;
    SplitAtFirst("", ' ', word);
    SplitOfNoSeparator(word, ' ');
    FirstCharsAppend([""], [word], word);
    FirstCharsAppend([], [], "");
  }

  /** Two spaces between the words make an empty word between them, which adds no initial. */
  lemma DoubledSpaceInitials(first: string, last: string)
    requires |first| > 0 && |last| > 0 && ' ' !in first && ' ' !in last
    ensures UserInitials(Some(first + "  " + last)) == [UpperChar(first[0]), UpperChar(last[0])]
  {
    DoubledSpaceSplit(first, last);
    EmptyMiddleFirstChars(first, last);
    assert Upper([first[0], last[0]]) == [UpperChar(first[0]), UpperChar(last[0])];
  }

  lemma DoubledSpaceSplit(first: string, last: string)
    requires ' ' !in first && ' ' !in last
    ensures Split(first + "  " + last, ' ') == [first, "", last]
  {
    assert first + "  " + last == first + [' '] + ("" + [' '] + last);
    SplitAtFirst(first, ' ', "" + [' '] + last);
    SplitAtOnly("", ' ', last);
  }

  lemma EmptyMiddleFirstChars(first: string, last: string)
    requires |first| > 0 && |last| > 0
    ensures FirstChars([first, "", last]) == [first[0], last[0]]
  {
    var words := [first, "", last];
    assert words[1..] == ["", last] && words[1..][1..] == [last];
    assert FirstChars([last]) == [last[0]];
  }

  /** The history badge: hidden unless the count is positive, capped at "99+". */
  function BadgeLabel(historyCount: Option<int>): (r: Option<string>)
    ensures r.Some? <==> historyCount.Some? && historyCount.value > 0
    ensures r.Some? && historyCount.value > 99 ==> r.value == "99+"
    ensures r.Some? && historyCount.value <= 99 ==> r.value == NatToString(historyCount.value)
    ensures r.Some? ==> 1 <= |r.value| <= 3
  {
    if historyCount.None? || historyCount.value <= 0 then None
    else if historyCount.value > 99 then Some("99+")
    else
      ShortNumeral(historyCount.value);
      Some(NatToString(historyCount.value))
  }

  /** A number below 100 is written with at most two digits. */
  lemma ShortNumeral(n: nat)
    requires n <= 99
    ensures |NatToString(n)| <= 2
  {
    if n >= 10 {
      assert NatToString(n) == NatToString(n / 10) + [DigitChar(n % 10)];
    }
  }

  /**
   * The `count` the header reads from the conversion history hook. The hook
   * returns `conversions`, `loading`, `saveConversion` and
   * `clearConversionHistory` but no `count`, so the header sees `undefined`.
   */
  function HistoryCountAsWritten(conversions: seq<ConversionRecord>): (r: Option<int>)
    ensures r.None?
  {
    None
  }

  /** The count the badge is evidently meant to show: the number of stored conversions. */
  function HistoryCount(conversions: seq<ConversionRecord>): (r: Option<int>)
    ensures r.Some? && r.value >= 0
    ensures r.value == 0 <==> conversions == []
  {
    Some(|conversions|)
  }

  /** As written the badge never appears; with the history's length it appears once there is history. */
  lemma BadgeNeverShownAsWritten(conversions: seq<ConversionRecord>)
    ensures BadgeLabel(HistoryCountAsWritten(conversions)).None?
    ensures conversions != [] ==> BadgeLabel(HistoryCount(conversions)).Some?
  {
  }

  /** With the corrected count, the badge shows the exact size of a short history and "99+" beyond 99. */
  lemma BadgeShowsHistorySize(conversions: seq<ConversionRecord>)
    requires conversions != []
    ensures |conversions| <= 99 ==> BadgeLabel(HistoryCount(conversions)) == Some(NatToString(|conversions|))
    ensures |conversions| > 99 ==> BadgeLabel(HistoryCount(conversions)) == Some("99+")
  {
  }
}
