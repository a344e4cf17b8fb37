/**
 * Small building blocks shared by the rest of the model: an Option type for
 * JavaScript's `undefined`/`null`, and the few string operations of the
 * JavaScript runtime that the converter relies on (`indexOf`, `split`,
 * `toUpperCase`, `toLowerCase`, `trim`, `String(n)` for integers).
 * Characters are Unicode scalar values; case mapping and white space are
 * modelled for the ASCII range (and the usual JavaScript white-space
 * characters), which is all the converter feeds them.
 */
module Common {

  datatype Option<T> = None | Some(value: T)

  predicate IsDigit(c: char) { '0' <= c <= '9' }

  function DigitValue(c: char): (d: nat)
    requires IsDigit(c)
    ensures d < 10
  {
    (c as int - '0' as int) as nat
  }

  function DigitChar(d: nat): (c: char)
    requires d < 10
    ensures IsDigit(c) && DigitValue(c) == d
  {
    (('0' as int) + d) as char
  }

  predicate AllDigits(s: string) { forall i :: 0 <= i < |s| ==> IsDigit(s[i]) }

  /** `String(n)` for a non-negative integer: its decimal numeral. */
  function NatToString(n: nat): (s: string)
    ensures |s| > 0 && AllDigits(s)
    ensures n == 0 <==> s == "0"
    ensures s[0] == '0' ==> n == 0
  {
    if n < 10 then [DigitChar(n)] else NatToString(n / 10) + [DigitChar(n % 10)]
  }

  /** `String(i)` for any integer. */
  function IntToString(i: int): (s: string)
    ensures |s| > 0
    ensures i < 0 <==> s[0] == '-'
  {
    if i < 0 then "-" + NatToString(-i) else NatToString(i)
  }

  /** `s.indexOf(c)`: the first position of `c`, or -1. */
  function IndexOf(s: string, c: char): (k: int)
    ensures -1 <= k < |s|
    ensures k == -1 <==> c !in s
    ensures k >= 0 ==> s[k] == c && c !in s[..k]
  {
    if |s| == 0 then -1
    else if s[0] == c then 0
    else
      var k := IndexOf(s[1..], c);
      if k == -1 then -1
      else
        assert s[..k + 1] == [s[0]] + s[1..][..k];
        k + 1
  }

  /** `s.split(sep)` for a one-character separator. */
  function Split(s: string, sep: char): (parts: seq<string>)
    ensures |parts| > 0
    ensures forall i :: 0 <= i < |parts| ==> sep !in parts[i]
    decreases |s|
  {
    var k := IndexOf(s, sep);
    if k == -1 then [s] else [s[..k]] + Split(s[k + 1..], sep)
  }

  /** `parts.join(sep)`. */
  function Join(parts: seq<string>, sep: char): string
  {
    if |parts| == 0 then ""
    else if |parts| == 1 then parts[0]
    else parts[0] + [sep] + Join(parts[1..], sep)
  }

  /** Splitting and joining again gives back the original text. */
  lemma {:induction false} JoinSplit(s: string, sep: char)
    ensures Join(Split(s, sep), sep) == s
    decreases |s|
  {
    var k := IndexOf(s, sep);
    if k != -1 {
      JoinSplit(s[k + 1..], sep);
      assert s == s[..k] + [sep] + s[k + 1..];
    }
  }

  /** The first separator of `a + [sep] + b` is the one after `a` when `a` has none. */
  lemma {:induction false} IndexOfAfter(a: string, sep: char, b: string)
    requires sep !in a
    ensures IndexOf(a + [sep] + b, sep) == |a|
    decreases |a|
  {
    if |a| > 0 {
      assert (a + [sep] + b)[1..] == a[1..] + [sep] + b;
      IndexOfAfter(a[1..], sep, b);
    }
  }

  /** Text with one separator splits into the two sides. */
  lemma SplitAtOnly(a: string, sep: char, b: string)
    requires sep !in a && sep !in b
    ensures Split(a + [sep] + b, sep) == [a, b]
  {
    var s := a + [sep] + b;
    IndexOfAfter(a, sep, b);
    assert s[..|a|] == a && s[|a| + 1..] == b;
  }

  /** Text whose first separator follows `a` splits into `a` and the parts of what follows. */
  lemma SplitAtFirst(a: string, sep: char, rest: string)
    requires sep !in a
    ensures Split(a + [sep] + rest, sep) == [a] + Split(rest, sep)
  {
    var s := a + [sep] + rest;
    IndexOfAfter(a, sep, rest);
    assert s[..|a|] == a && s[|a| + 1..] == rest;
  }

  /** Text made only of separators splits into empty parts. */
  lemma {:induction false} SplitOfSeparators(s: string, sep: char)
    requires forall i :: 0 <= i < |s| ==> s[i] == sep
    ensures forall i :: 0 <= i < |Split(s, sep)| ==> Split(s, sep)[i] == ""
    decreases |s|
  {
    if |s| > 0 {
      assert IndexOf(s, sep) == 0;
      SplitOfSeparators(s[1..], sep);
    }
  }

  /**
   * `split(sep).pop()` of text ending in a separator and a separator-free
   * `last` is `last`, whatever comes before.
   */
  lemma {:induction false} SplitEndsWith(prefix: string, sep: char, last: string)
    requires sep !in last
    ensures Split(prefix + [sep] + last, sep)[|Split(prefix + [sep] + last, sep)| - 1] == last
    decreases |prefix|, 1
  {
    IndexOfAtMost(prefix + [sep] + last, sep, |prefix|);
    if IndexOf(prefix + [sep] + last, sep) == |prefix| {
      SplitEndsAtFirst(prefix, sep, last);
    } else {
      SplitEndsAfterFirst(prefix, sep, last);
    }
  }

  /** The separator after `prefix` is the first one: the last part is `last`. */
  lemma SplitEndsAtFirst(prefix: string, sep: char, last: string)
    requires sep !in last && IndexOf(prefix + [sep] + last, sep) == |prefix|
    ensures Split(prefix + [sep] + last, sep)[|Split(prefix + [sep] + last, sep)| - 1] == last
  {
    var s := prefix + [sep] + last;
    SplitLastIsRestsLast(s, sep);
    assert s[|prefix| + 1..] == last;
    SplitOfNoSeparator(last, sep);
  }

  /** An earlier separator in `prefix`: the last part is that of the text after it. */
  lemma {:induction false} SplitEndsAfterFirst(prefix: string, sep: char, last: string)
    requires sep !in last && 0 <= IndexOf(prefix + [sep] + last, sep) < |prefix|
    ensures Split(prefix + [sep] + last, sep)[|Split(prefix + [sep] + last, sep)| - 1] == last
    decreases |prefix|, 0
  {
    var s := prefix + [sep] + last;
    var k := IndexOf(s, sep);
    SplitLastIsRestsLast(s, sep);
    var t := prefix[k + 1..];
    DropFromConcat(prefix, [sep], last, k + 1);
    SplitEndsWith(t, sep, last);
  }

  lemma DropFromConcat<T>(a: seq<T>, b: seq<T>, c: seq<T>, n: nat)
    requires n <= |a|
    ensures (a + b + c)[n..] == a[n..] + b + c
  {
  }

  /** The first occurrence is no later than any occurrence. */
  lemma {:induction false} IndexOfAtMost(s: string, c: char, j: nat)
    requires j < |s| && s[j] == c
    ensures 0 <= IndexOf(s, c) <= j
    decreases j
  {
    if s[0] != c {
      IndexOfAtMost(s[1..], c, j - 1);
    }
  }

  /** Text without the separator is one part. */
  lemma SplitOfNoSeparator(s: string, sep: char)
    requires sep !in s
    ensures Split(s, sep) == [s]
  {
  }

  /** Past the first separator, the last part is the last part of what follows it. */
  lemma {:induction false} SplitLastIsRestsLast(s: string, sep: char)
    requires IndexOf(s, sep) != -1
    ensures var rest := Split(s[IndexOf(s, sep) + 1..], sep);
      Split(s, sep)[|Split(s, sep)| - 1] == rest[|rest| - 1]
  {
    var k := IndexOf(s, sep);
    var rest := Split(s[k + 1..], sep);
    var parts := Split(s, sep);
    assert parts == [s[..k]] + rest;
    assert parts[|parts| - 1] == rest[|rest| - 1];
  }

  function UpperChar(c: char): (u: char)
    ensures 'a' <= c <= 'z' ==> u as int == c as int - 32
    ensures !('a' <= c <= 'z') ==> u == c
  {
    if 'a' <= c <= 'z' then (c as int - 32) as char else c
  }

  function LowerChar(c: char): (l: char)
    ensures 'A' <= c <= 'Z' ==> l as int == c as int + 32
    ensures !('A' <= c <= 'Z') ==> l == c
  {
    if 'A' <= c <= 'Z' then (c as int + 32) as char else c
  }

  /** `s.toUpperCase()` (ASCII letters). */
  function Upper(s: string): (u: string)
    ensures |u| == |s|
    ensures forall i :: 0 <= i < |s| ==> u[i] == UpperChar(s[i])
  {
    seq(|s|, i requires 0 <= i < |s| => UpperChar(s[i]))
  }

  /** `s.toLowerCase()` (ASCII letters). */
  function Lower(s: string): (l: string)
    ensures |l| == |s|
    ensures forall i :: 0 <= i < |s| ==> l[i] == LowerChar(s[i])
  {
    seq(|s|, i requires 0 <= i < |s| => LowerChar(s[i]))
  }

  /** The characters `String.prototype.trim` removes (the common ones). */
  predicate IsWhiteSpace(c: char)
  {
    c == ' ' || c == '\t' || c == '\n' || c == '\r' || c == '\U{B}' || c == '\U{C}'
    || c == '\U{A0}' || c == '\U{1680}' || '\U{2000}' <= c <= '\U{200A}' || c == '\U{202F}'
    || c == '\U{205F}' || c == '\U{3000}' || c == '\U{FEFF}' || c == '\U{2028}' || c == '\U{2029}'
  }

  /** `!s.trim()`: the text is empty once white space is trimmed. */
  predicate IsBlank(s: string)
  {
    forall i :: 0 <= i < |s| ==> IsWhiteSpace(s[i])
  }

  /** `s.filter(p)`. */
  function Where<T(!new)>(s: seq<T>, p: T -> bool): (r: seq<T>)
    ensures |r| <= |s|
    ensures forall x :: x in r <==> x in s && p(x)
    ensures forall x :: multiset(r)[x] == if p(x) then multiset(s)[x] else 0
  {
    if |s| == 0 then []
    else
      assert s == [s[0]] + s[1..];
      if p(s[0]) then [s[0]] + Where(s[1..], p)
      else Where(s[1..], p)
  }

  /** Filtering a concatenation filters each part and keeps them in order. */
  lemma {:induction false} WhereAppend<T(!new)>(a: seq<T>, b: seq<T>, p: T -> bool)
    ensures Where(a + b, p) == Where(a, p) + Where(b, p)
    decreases |a|
  {
    if |a| == 0 {
      assert a + b == b;
    } else {
      assert (a + b)[1..] == a[1..] + b;
      WhereAppend(a[1..], b, p);
    }
  }

  /** A filter every element passes keeps the whole sequence. */
  lemma {:induction false} WhereKeepsAll<T(!new)>(s: seq<T>, p: T -> bool)
    requires forall x :: x in s ==> p(x)
    ensures Where(s, p) == s
    decreases |s|
  {
    if |s| > 0 {
      assert s[0] in s;
      assert forall x :: x in s[1..] ==> x in s;
      WhereKeepsAll(s[1..], p);
      assert s == [s[0]] + s[1..];
    }
  }

  ghost predicate SortedDesc<T>(s: seq<T>, key: T -> int)
  {
    forall i, j :: 0 <= i < j < |s| ==> key(s[i]) >= key(s[j])
  }

  /** Insert `x` into a list sorted by descending key, before the first element whose key is not larger. */
  function InsertDesc<T>(x: T, s: seq<T>, key: T -> int): (r: seq<T>)
    requires SortedDesc(s, key)
    ensures SortedDesc(r, key)
    ensures multiset(r) == multiset(s) + multiset{x}
  {
    if |s| == 0 then [x]
    else if key(s[0]) <= key(x) then
      assert s == [s[0]] + s[1..];
      [x] + s
    else
      var rest := InsertDesc(x, s[1..], key);
      assert s == [s[0]] + s[1..];
      InsertAfterHead(x, s, rest, key);
      [s[0]] + rest
  }

  lemma InsertAfterHead<T>(x: T, s: seq<T>, rest: seq<T>, key: T -> int)
    requires |s| > 0 && SortedDesc(s, key) && key(x) < key(s[0])
    requires SortedDesc(rest, key) && multiset(rest) == multiset(s[1..]) + multiset{x}
    ensures SortedDesc([s[0]] + rest, key)
  {
    forall j | 0 <= j < |rest| ensures key(rest[j]) <= key(s[0]) {
      assert rest[j] in multiset(rest);
      if rest[j] != x {
        assert rest[j] in multiset(s[1..]);
        var i :| 0 <= i < |s[1..]| && s[1..][i] == rest[j];
        assert s[i + 1] == rest[j];
      }
    }
  }

  /** A stable sort by descending key (`sort((a, b) => key(b) - key(a))`). */
  function SortDesc<T>(s: seq<T>, key: T -> int): (r: seq<T>)
    ensures SortedDesc(r, key)
    ensures multiset(r) == multiset(s)
  {
    if |s| == 0 then []
    else
      assert s == [s[0]] + s[1..];
      InsertDesc(s[0], SortDesc(s[1..], key), key)
  }

  /** Sorting keeps exactly the same elements. */
  lemma SortKeepsElements<T>(s: seq<T>, key: T -> int)
    ensures forall x :: x in SortDesc(s, key) <==> x in s
  {
    var r := SortDesc(s, key);
    assert forall x :: x in r <==> x in multiset(r);
    assert forall x :: x in s <==> x in multiset(s);
  }
}
