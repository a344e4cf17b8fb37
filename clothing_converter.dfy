/**
 * The clothing and shoe size converter: two fixed tables from a US size to
 * its US/UK/EU labels, the selected table and size, and the record and
 * favourite it posts to the server.
 *
 * The size dropdown lists `Object.keys(table)`. JavaScript orders an
 * object's own keys with the integer-like keys first, in ascending numeric
 * order, and the other keys after them in creation order. For the shoe
 * table, whose keys mix whole and half sizes, that order is not the size
 * order the table is written in. `AvailableSizesAsWritten` models that
 * listing; `AvailableSizes` lists the keys in table order.
 */
module ClothingConverter {
  import opened Common
  import opened JsNumber
  import opened Schema

  datatype SizeRow = SizeRow(us: string, uk: string, eu: string)

  /** A size table in the order its keys are written. */
  type Table = seq<(string, SizeRow)>

  const ClothingSizes: Table := [
    ("XS", SizeRow("XS", "6", "32")),
    ("S", SizeRow("S", "8", "34")),
    ("M", SizeRow("M", "10", "36")),
    ("L", SizeRow("L", "12", "38")),
    ("XL", SizeRow("XL", "14", "40")),
    ("XXL", SizeRow("XXL", "16", "42"))]

  const ShoeSizes: Table := [
    ("6", SizeRow("6", "5.5", "39")),
    ("6.5", SizeRow("6.5", "6", "39.5")),
    ("7", SizeRow("7", "6.5", "40")),
    ("7.5", SizeRow("7.5", "7", "40.5")),
    ("8", SizeRow("8", "7.5", "41")),
    ("8.5", SizeRow("8.5", "8", "42")),
    ("9", SizeRow("9", "8.5", "42.5")),
    ("9.5", SizeRow("9.5", "9", "43")),
    ("10", SizeRow("10", "9.5", "44")),
    ("10.5", SizeRow("10.5", "10", "44.5")),
    ("11", SizeRow("11", "10.5", "45")),
    ("11.5", SizeRow("11.5", "11", "45.5")),
    ("12", SizeRow("12", "11.5", "46"))]

  datatype Kind = Clothing | Shoes

  function KindName(k: Kind): string
  {
    if k == Clothing then "clothing" else "shoes"
  }

  function TableOf(k: Kind): Table
  {
    if k == Clothing then ClothingSizes else ShoeSizes
  }

  /** The keys of a table, in the order they are written. */
  function Keys(t: Table): (ks: seq<string>)
    ensures |ks| == |t|
    ensures forall i :: 0 <= i < |t| ==> ks[i] == t[i].0
  {
    seq(|t|, i requires 0 <= i < |t| => t[i].0)
  }

  /** `table[size]`: the row of the first entry with that key. */
  function Lookup(t: Table, size: string): (r: Option<SizeRow>)
    ensures r.None? <==> size !in Keys(t)
    ensures r.Some? ==> (size, r.value) in t
  {
    if |t| == 0 then None
    else if t[0].0 == size then Some(t[0].1)
    else
      assert Keys(t) == [t[0].0] + Keys(t[1..]);
      Lookup(t[1..], size)
  }

  /** In both tables, every row's US label is its key. */
  lemma UsLabelIsKey(k: Kind)
    ensures forall e :: e in TableOf(k) ==> e.1.us == e.0
  {
  }

  /** The numeric value of a size key, `parseFloat(size) || 0`. */
  function SizeValue(size: string): real
  {
    ParseFloatOrZero(size)
  }

  /** Written in table order, the shoe sizes ascend. */
  lemma ShoeSizesAscend()
    ensures forall i, j :: 0 <= i < j < |ShoeSizes| ==> SizeValue(Keys(ShoeSizes)[i]) < SizeValue(Keys(ShoeSizes)[j])
  {
    forall i | 0 <= i < |ShoeSizes| ensures SizeValue(ShoeSizes[i].0) == 6.0 + (i as real) / 2.0 {
      SizeValueOfShoeKey(i);
    }
  }

  /** The i-th shoe key is size 6 plus i half sizes. */
  lemma SizeValueOfShoeKey(i: int)
    requires 0 <= i < |ShoeSizes|
    ensures SizeValue(ShoeSizes[i].0) == 6.0 + (i as real) / 2.0
  {
    if i == 0 { ShoeKey0(); }
    else if i == 1 { ShoeKey1(); }
    else if i == 2 { ShoeKey2(); }
    else if i == 3 { ShoeKey3(); }
    else if i == 4 { ShoeKey4(); }
    else if i == 5 { ShoeKey5(); }
    else if i == 6 { ShoeKey6(); }
    else if i == 7 { ShoeKey7(); }
    else if i == 8 { ShoeKey8(); }
    else if i == 9 { ShoeKey9(); }
    else if i == 10 { ShoeKey10(); }
    else if i == 11 { ShoeKey11(); }
    else { ShoeKey12(); }
  }

  // One key at a time, so that each numeral is parsed in a proof of its own.
  lemma ShoeKey0() ensures SizeValue(ShoeSizes[0].0) == 6.0 { KeyValue("6", 6, false); }
  lemma ShoeKey1() ensures SizeValue(ShoeSizes[1].0) == 6.5 { KeyValue("6.5", 6, true); }
  lemma ShoeKey2() ensures SizeValue(ShoeSizes[2].0) == 7.0 { KeyValue("7", 7, false); }
  lemma ShoeKey3() ensures SizeValue(ShoeSizes[3].0) == 7.5 { KeyValue("7.5", 7, true); }
  lemma ShoeKey4() ensures SizeValue(ShoeSizes[4].0) == 8.0 { KeyValue("8", 8, false); }
  lemma ShoeKey5() ensures SizeValue(ShoeSizes[5].0) == 8.5 { KeyValue("8.5", 8, true); }
  lemma ShoeKey6() ensures SizeValue(ShoeSizes[6].0) == 9.0 { KeyValue("9", 9, false); }
  lemma ShoeKey7() ensures SizeValue(ShoeSizes[7].0) == 9.5 { KeyValue("9.5", 9, true); }
  lemma ShoeKey8() ensures SizeValue(ShoeSizes[8].0) == 10.0 { KeyValue("10", 10, false); }
  lemma ShoeKey9() ensures SizeValue(ShoeSizes[9].0) == 10.5 { KeyValue("10.5", 10, true); }
  lemma ShoeKey10() ensures SizeValue(ShoeSizes[10].0) == 11.0 { KeyValue("11", 11, false); }
  lemma ShoeKey11() ensures SizeValue(ShoeSizes[11].0) == 11.5 { KeyValue("11.5", 11, true); }
  lemma ShoeKey12() ensures SizeValue(ShoeSizes[12].0) == 12.0 { KeyValue("12", 12, false); }

  /** The value of a whole or half size written as a numeral. */
  lemma KeyValue(k: string, n: nat, half: bool)
    requires k == NatToString(n) + (if half then ".5" else "")
    ensures SizeValue(k) == n as real + (if half then 0.5 else 0.0)
  {
    if half {
      WholeAndHalf(n);
    } else {
      assert k == NatToString(n);
      ParseFloatRoundTrip(n);
    }
  }

  /** `parseFloat("<n>.5")` is n + 0.5. */
  lemma WholeAndHalf(n: nat)
    ensures ParseFloat(NatToString(n) + ".5") == Some(n as real + 0.5)
  {
    var digits := NatToString(n);
    var s := digits + ".5";
    DigitRunOfDigits(digits);
    DigitsValueOfNumeral(n);
    DigitRunPrefix(digits, ".5");
    assert SplitSign(s) == (false, s);
    assert s[..|digits|] == digits;
    assert s[|digits|..] == ".5";
    HalfFraction();
  }

  /** The fraction ".5" is read as one digit worth one half. */
  lemma HalfFraction()
    ensures ".5"[1..] == "5" && DigitRun("5") == 1 && "5"[..1] == "5"
    ensures DigitsValue("5") as real / Pow10(1) as real == 0.5
  {
    assert DigitsValue("5") == 5;
  }

  lemma {:induction false} DigitRunPrefix(digits: string, rest: string)
    requires AllDigits(digits) && (|rest| == 0 || !IsDigit(rest[0]))
    ensures DigitRun(digits + rest) == |digits|
    decreases |digits|
  {
    if |digits| > 0 {
      assert (digits + rest)[1..] == digits[1..] + rest;
      DigitRunPrefix(digits[1..], rest);
    } else {
      assert digits + rest == rest;
    }
  }

  /** A key JavaScript treats as an array index: a canonical decimal numeral. */
  predicate IsIndexKey(k: string)
  {
    |k| > 0 && AllDigits(k) && (k[0] != '0' || |k| == 1)
  }

  function IndexValue(k: string): int
  {
    if AllDigits(k) then DigitsValue(k) else 0
  }

  function NegatedIndex(k: string): int { -IndexValue(k) }

  predicate NotIndexKey(k: string) { !IsIndexKey(k) }

  /**
   * `Object.keys` of an object whose keys were created in the order `keys`:
   * the index keys by ascending value, then the others in creation order.
   */
  function ObjectKeys(keys: seq<string>): (r: seq<string>)
    ensures multiset(r) == multiset(keys)
    ensures forall k :: k in r <==> k in keys
    ensures forall i, j :: 0 <= i < j < |r| && IsIndexKey(r[j]) ==> IsIndexKey(r[i])
    ensures forall i, j :: 0 <= i < j < |r| && IsIndexKey(r[j]) ==> IndexValue(r[i]) <= IndexValue(r[j])
    ensures |Where(keys, NotIndexKey)| <= |r| && r[|r| - |Where(keys, NotIndexKey)|..] == Where(keys, NotIndexKey)
  {
    var indices, others := SortDesc(Where(keys, IsIndexKey), NegatedIndex), Where(keys, NotIndexKey);
    IndexKeysThenOthers(keys);
    SortedRunThenRest(indices, others);
    assert (indices + others)[|indices + others| - |others|..] == others;
    indices + others
  }

  /** The two runs `ObjectKeys` concatenates hold the index keys and the rest. */
  lemma IndexKeysThenOthers(keys: seq<string>)
    ensures var indices, others := SortDesc(Where(keys, IsIndexKey), NegatedIndex), Where(keys, NotIndexKey);
      && multiset(indices + others) == multiset(keys)
      && (forall k :: k in indices + others <==> k in keys)
      && (forall k :: k in indices ==> IsIndexKey(k))
      && (forall k :: k in others ==> !IsIndexKey(k))
  {
    SortKeepsElements(Where(keys, IsIndexKey), NegatedIndex);
    IndexSplit(keys);
  }

  lemma SortedRunThenRest(indices: seq<string>, others: seq<string>)
    requires forall k :: k in indices ==> IsIndexKey(k)
    requires forall k :: k in others ==> !IsIndexKey(k)
    requires SortedDesc(indices, NegatedIndex)
    ensures var r := indices + others;
      && (forall i, j :: 0 <= i < j < |r| && IsIndexKey(r[j]) ==> IsIndexKey(r[i]))
      && (forall i, j :: 0 <= i < j < |r| && IsIndexKey(r[j]) ==> IndexValue(r[i]) <= IndexValue(r[j]))
  {
    var r := indices + others;
    assert forall i :: 0 <= i < |indices| ==> indices[i] in indices && r[i] == indices[i];
    assert forall i :: |indices| <= i < |r| ==> others[i - |indices|] in others && r[i] == others[i - |indices|];
  }

  /** The index keys and the other keys together are all the keys. */
  lemma IndexSplit(keys: seq<string>)
    ensures multiset(Where(keys, IsIndexKey)) + multiset(Where(keys, NotIndexKey)) == multiset(keys)
  {
    var a, b := Where(keys, IsIndexKey), Where(keys, NotIndexKey);
    forall k ensures multiset(a)[k] + multiset(b)[k] == multiset(keys)[k] {
      assert NotIndexKey(k) == !IsIndexKey(k);
    }
  }

  /** `Object.keys(table)`, the dropdown as written. */
  function AvailableSizesAsWritten(k: Kind): (r: seq<string>)
    ensures forall s :: s in r <==> s in Keys(TableOf(k))
  {
    ObjectKeys(Keys(TableOf(k)))
  }

  /** The keys in table order. */
  function AvailableSizes(k: Kind): (r: seq<string>)
    ensures forall s :: s in r <==> Lookup(TableOf(k), s).Some?
    ensures k == Shoes ==> forall i, j :: 0 <= i < j < |r| ==> SizeValue(r[i]) < SizeValue(r[j])
  {
    ShoeSizesAscend();
    Keys(TableOf(k))
  }

  /** `Object.keys` lists every index key before every other key, whatever the creation order. */
  lemma IndexKeyListedFirst(keys: seq<string>, a: string, b: string)
    requires a in keys && b in keys && IsIndexKey(a) && !IsIndexKey(b)
    ensures exists i, j :: 0 <= i < j < |ObjectKeys(keys)| && ObjectKeys(keys)[i] == a && ObjectKeys(keys)[j] == b
  {
    IndexBeforeOther(ObjectKeys(keys), a, b);
  }

  lemma IndexBeforeOther(r: seq<string>, a: string, b: string)
    requires a in r && b in r && IsIndexKey(a) && !IsIndexKey(b)
    requires forall i, j :: 0 <= i < j < |r| && IsIndexKey(r[j]) ==> IsIndexKey(r[i])
    ensures exists i, j :: 0 <= i < j < |r| && r[i] == a && r[j] == b
  {
    var i :| 0 <= i < |r| && r[i] == a;
    var j :| 0 <= j < |r| && r[j] == b;
    assert i < j;
  }

  /** The shoe table has both index keys ("12") and other keys ("6.5"). */
  lemma ShoeKeysMixed()
    ensures "12" in Keys(ShoeSizes) && IsIndexKey("12")
    ensures "6.5" in Keys(ShoeSizes) && !IsIndexKey("6.5")
  {
    assert Keys(ShoeSizes)[12] == "12" && Keys(ShoeSizes)[1] == "6.5";
    assert !IsDigit("6.5"[1]);
  }

  lemma TwelveAboveSixAndAHalf()
    ensures SizeValue("12") > SizeValue("6.5")
  {
    ShoeKey12();
    ShoeKey1();
  }

  /** As written, the shoe dropdown lists size 12 before size 6.5. */
  lemma ShoeDropdownOutOfOrder()
    ensures exists i, j :: 0 <= i < j < |AvailableSizesAsWritten(Shoes)|
                           && AvailableSizesAsWritten(Shoes)[i] == "12"
                           && AvailableSizesAsWritten(Shoes)[j] == "6.5"
    ensures SizeValue("12") > SizeValue("6.5")
  {
    ShoeKeysMixed();
    DropdownListsIndexKeyFirst(Shoes, "12", "6.5");
    TwelveAboveSixAndAHalf();
  }

  /** In the dropdown as written, an index key of a table comes before any other key. */
  lemma DropdownListsIndexKeyFirst(k: Kind, a: string, b: string)
    requires a in Keys(TableOf(k)) && b in Keys(TableOf(k)) && IsIndexKey(a) && !IsIndexKey(b)
    ensures exists i, j :: 0 <= i < j < |AvailableSizesAsWritten(k)|
                           && AvailableSizesAsWritten(k)[i] == a && AvailableSizesAsWritten(k)[j] == b
  {
    var keys := Keys(TableOf(k));
    IndexKeyListedFirst(keys, a, b);
    var r := ObjectKeys(keys);
    assert AvailableSizesAsWritten(k) == r;
    var i, j :| 0 <= i < j < |r| && r[i] == a && r[j] == b;
  }

  /** The record body `handleSizeChange` posts for a size in the current table. */
  function SizeRecord(k: Kind, size: string, row: SizeRow): (b: ConversionBody)
    ensures b.kind == Some("clothing")
    ensures b.fromUnit == Some("US-" + KindName(k)) && b.toUnit == Some("UK-EU-" + KindName(k))
    ensures b.fromValue == Some(ParseFloatOrZero(size)) && b.toValue == Some(ParseFloatOrZero(row.eu))
    ensures b.userId.None? && b.exchangeRate.None?
  {
    ConversionBody(None, Some("clothing"), Some("US-" + KindName(k)), Some("UK-EU-" + KindName(k)),
                   Some(ParseFloatOrZero(size)), Some(ParseFloatOrZero(row.eu)), None)
  }

  /** Letter sizes are not numbers, so their records carry a from-value of 0. */
  lemma LetterSizesRecordZero(size: string, row: SizeRow)
    requires size in Keys(ClothingSizes)
    ensures SizeRecord(Clothing, size, row).fromValue == Some(0.0)
  {
    var i :| 0 <= i < |ClothingSizes| && Keys(ClothingSizes)[i] == size;
    ParseFloatOfNonNumeral(size);
  }

  class Converter {
    var kind: Kind
    var selectedSize: string

    constructor ()
      ensures kind == Clothing && selectedSize == "M"
    {
      kind := Clothing;
      selectedSize := "M";
    }

    /** `getCurrentSizes`: the selected row, or three empty labels when the size is not in the table. */
    function CurrentSizes(): (r: SizeRow)
      reads this
      ensures selectedSize in Keys(TableOf(kind)) ==> (selectedSize, r) in TableOf(kind) && r.us == selectedSize
      ensures selectedSize !in Keys(TableOf(kind)) ==> r == SizeRow("", "", "")
    {
      UsLabelIsKey(kind);
      var row := Lookup(TableOf(kind), selectedSize);
      if row.Some? then row.value else SizeRow("", "", "")
    }

    /** The Clothing button: switch table and select 'M'. */
    method SelectClothing()
      modifies this
      ensures kind == Clothing && selectedSize == "M"
      ensures selectedSize in Keys(TableOf(kind))
    {
      kind := Clothing;
      selectedSize := "M";
      assert Keys(ClothingSizes)[2] == "M";
    }

    /** The Shoes button: switch table and select '9'. */
    method SelectShoes()
      modifies this
      ensures kind == Shoes && selectedSize == "9"
      ensures selectedSize in Keys(TableOf(kind))
    {
      kind := Shoes;
      selectedSize := "9";
      assert Keys(ShoeSizes)[6] == "9";
    }

    /** `handleSizeChange`: select the size and, for a signed-in user and a known size, post a record. */
    method HandleSizeChange(size: string, user: bool) returns (request: Option<ConversionBody>)
      modifies this
      ensures selectedSize == size && kind == old(kind)
      ensures request.Some? <==> user && size in Keys(TableOf(kind))
      ensures request.Some? ==> request.value == SizeRecord(kind, size, Lookup(TableOf(kind), size).value)
    {
      selectedSize := size;
      request := None;
      if user {
        var row := Lookup(TableOf(kind), size);
        if row.Some? {
          request := Some(SizeRecord(kind, size, row.value));
        }
      }
    }

    /** `handleAddToFavorites`: the POST body sent, or `None` when nobody is signed in. */
    method AddToFavorites(user: bool) returns (request: Option<FavoriteBody>)
      ensures !user ==> request.None?
      ensures user ==> request == Some(FavoriteBody(None, Some("clothing"), Some("US-" + KindName(kind)),
                                                    Some("UK-EU-" + KindName(kind))))
    {
      if !user {
        return None;
      }
      request := Some(FavoriteBody(None, Some("clothing"), Some("US-" + KindName(kind)), Some("UK-EU-" + KindName(kind))));
    }
  }
}
