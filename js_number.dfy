/**
 * JavaScript number parsing as the converter uses it, over exact reals.
 * `parseFloat` and `parseInt(s)` read the longest numeric prefix of their
 * argument and give NaN when there is none; NaN is `None` here. The
 * accepted prefix is an optional sign, decimal digits and (for
 * `parseFloat`) an optional fraction. The idiom `parseFloat(s) || 0`
 * turns NaN (and 0) into 0.
 */
module JsNumber {
  import opened Common

  /** Length of the run of decimal digits at the start of `s`. */
  function DigitRun(s: string): (n: nat)
    ensures n <= |s| && AllDigits(s[..n])
    ensures n < |s| ==> !IsDigit(s[n])
  {
    if |s| > 0 && IsDigit(s[0]) then
      var n := 1 + DigitRun(s[1..]);
      assert s[..n] == [s[0]] + s[1..][..n - 1];
      n
    else 0
  }

  /** The value of a run of decimal digits. */
  function DigitsValue(s: string): nat
    requires AllDigits(s)
  {
    if |s| == 0 then 0 else 10 * DigitsValue(s[..|s| - 1]) + DigitValue(s[|s| - 1])
  }

  function Pow10(k: nat): (p: nat)
    ensures p >= 1
  {
    if k == 0 then 1 else 10 * Pow10(k - 1)
  }

  /** The sign prefix of a numeral: whether it is '-', and the text after it. */
  function SplitSign(s: string): (bool, string)
  {
    if |s| > 0 && (s[0] == '-' || s[0] == '+') then (s[0] == '-', s[1..]) else (false, s)
  }

  /** `parseFloat(s)`; `None` stands for NaN. */
  function ParseFloat(s: string): (r: Option<real>)
    ensures var (_, rest) := SplitSign(s);
            r.None? <==> DigitRun(rest) == 0 && !(|rest| > 1 && rest[0] == '.' && IsDigit(rest[1]))
  {
    var (negative, rest) := SplitSign(s);
    var i := DigitRun(rest);
    var after := rest[i..];
    var fraction := if |after| > 0 && after[0] == '.' then after[1..][..DigitRun(after[1..])] else "";
    if i == 0 && |fraction| == 0 then None
    else
      var magnitude := DigitsValue(rest[..i]) as real + DigitsValue(fraction) as real / Pow10(|fraction|) as real;
      Some(if negative then -magnitude else magnitude)
  }

  /** How many white-space characters `s` starts with. */
  function LeadingBlanks(s: string): (n: nat)
    ensures n <= |s| && forall i :: 0 <= i < n ==> IsWhiteSpace(s[i])
    ensures n < |s| ==> !IsWhiteSpace(s[n])
  {
    if |s| > 0 && IsWhiteSpace(s[0]) then 1 + LeadingBlanks(s[1..]) else 0
  }

  /** `s` without its leading white space, as `parseInt` first trims it. */
  function TrimStart(s: string): (t: string)
    ensures |t| <= |s| && t == s[|s| - |t|..]
    ensures IsBlank(s[..|s| - |t|])
    ensures |t| > 0 ==> !IsWhiteSpace(t[0])
  {
    s[LeadingBlanks(s)..]
  }

  predicate IsHexDigit(c: char)
  {
    IsDigit(c) || 'a' <= c <= 'f' || 'A' <= c <= 'F'
  }

  function HexDigitValue(c: char): (d: nat)
    requires IsHexDigit(c)
    ensures d < 16
    ensures IsDigit(c) ==> d == DigitValue(c)
  {
    if IsDigit(c) then DigitValue(c)
    else if 'a' <= c <= 'f' then (c as int - 'a' as int + 10) as nat
    else (c as int - 'A' as int + 10) as nat
  }

  /** Length of the run of hexadecimal digits at the start of `s`. */
  function HexRun(s: string): (n: nat)
    ensures n <= |s| && forall i :: 0 <= i < n ==> IsHexDigit(s[i])
    ensures n < |s| ==> !IsHexDigit(s[n])
  {
    if |s| > 0 && IsHexDigit(s[0]) then 1 + HexRun(s[1..]) else 0
  }

  /** The value of a run of hexadecimal digits. */
  function HexValue(s: string): nat
    requires forall i :: 0 <= i < |s| ==> IsHexDigit(s[i])
  {
    if |s| == 0 then 0 else 16 * HexValue(s[..|s| - 1]) + HexDigitValue(s[|s| - 1])
  }

  /** The `0x` or `0X` prefix that makes `parseInt` (without a radix) read base 16. */
  predicate HasHexPrefix(s: string)
  {
    |s| >= 2 && s[0] == '0' && (s[1] == 'x' || s[1] == 'X')
  }

  /**
   * `parseInt(s)` without a radix: leading white space is skipped, then the
   * rest is read by `ParseIntTrimmed`. `None` stands for NaN.
   */
  function ParseInt(s: string): (r: Option<int>)
    ensures var rest := SplitSign(TrimStart(s)).1;
            && (!HasHexPrefix(rest) ==> (r.None? <==> DigitRun(rest) == 0))
            && (HasHexPrefix(rest) ==> (r.None? <==> HexRun(rest[2..]) == 0))
    ensures r.Some? && !SplitSign(TrimStart(s)).0 ==> r.value >= 0
  {
    ParseIntTrimmed(TrimStart(s))
  }

  /**
   * `parseInt` after the white space: an optional sign; after a `0x`/`0X`
   * prefix the longest run of hexadecimal digits, otherwise the longest run
   * of decimal digits.
   */
  function ParseIntTrimmed(t: string): (r: Option<int>)
    ensures var rest := SplitSign(t).1;
            && (!HasHexPrefix(rest) ==> (r.None? <==> DigitRun(rest) == 0))
            && (HasHexPrefix(rest) ==> (r.None? <==> HexRun(rest[2..]) == 0))
    ensures r.Some? && !SplitSign(t).0 ==> r.value >= 0
  {
    var (negative, rest) := SplitSign(t);
    if HasHexPrefix(rest) then
      var digits := rest[2..];
      var i := HexRun(digits);
      if i == 0 then None
      else
        var magnitude: int := HexValue(digits[..i]);
        Some(if negative then -magnitude else magnitude)
    else
      var i := DigitRun(rest);
      if i == 0 then None
      else
        var magnitude: int := DigitsValue(rest[..i]);
        Some(if negative then -magnitude else magnitude)
  }

  /** White space before the text does not change what `parseInt` reads. */
  lemma ParseIntSkipsWhiteSpace(ws: string, s: string)
    requires IsBlank(ws)
    ensures ParseInt(ws + s) == ParseInt(s)
  {
    TrimBlankPrefix(ws, s);
  }

  lemma {:induction false} TrimBlankPrefix(ws: string, s: string)
    requires IsBlank(ws)
    ensures TrimStart(ws + s) == TrimStart(s)
  {
    LeadingBlanksOfBlankPrefix(ws, s);
    assert (ws + s)[|ws| + LeadingBlanks(s)..] == s[LeadingBlanks(s)..];
  }

  lemma {:induction false} LeadingBlanksOfBlankPrefix(ws: string, s: string)
    requires IsBlank(ws)
    ensures LeadingBlanks(ws + s) == |ws| + LeadingBlanks(s)
    decreases |ws|
  {
    if |ws| > 0 {
      assert (ws + s)[1..] == ws[1..] + s;
      assert (ws + s)[0] == ws[0];
      LeadingBlanksOfBlankPrefix(ws[1..], s);
    } else {
      assert ws + s == s;
    }
  }

  /** A `0x` or `0X` prefix reads the digits after it in base 16. */
  lemma ParseIntOfHexDigits(d: string)
    requires |d| > 0 && forall i :: 0 <= i < |d| ==> IsHexDigit(d[i])
    ensures ParseInt("0x" + d) == Some(HexValue(d))
    ensures ParseInt("0X" + d) == Some(HexValue(d))
  {
    assert d[..|d|] == d;
    HexPrefixed("0x" + d, d);
    HexPrefixed("0X" + d, d);
  }

  lemma HexPrefixed(s: string, d: string)
    requires |d| > 0 && forall i :: 0 <= i < |d| ==> IsHexDigit(d[i])
    requires |s| == |d| + 2 && HasHexPrefix(s) && s[2..] == d
    ensures ParseInt(s) == Some(HexValue(d))
  {
    assert !IsWhiteSpace(s[0]);
    assert TrimStart(s) == s;
    assert SplitSign(s) == (false, s);
    assert HexRun(d) == |d| && d[..|d|] == d;
  }

  /** `parseInt("0x10")` is 16, not 0, and `parseInt("0X1f")` is 31. */
  lemma ParseIntOfHex()
    ensures ParseInt("0x10") == Some(16)
    ensures ParseInt("0X1f") == Some(31)
  {
    HexSixteen();
    HexThirtyOne();
  }

  lemma HexSixteen()
    ensures ParseInt("0x10") == Some(16)
  {
    var d := "10";
    assert HexValue(d) == 16 by { assert d[..1] == "1"; }
    assert "0x10" == "0x" + d;
    ParseIntOfHexDigits(d);
  }

  lemma HexThirtyOne()
    ensures ParseInt("0X1f") == Some(31)
  {
    var d := "1f";
    assert HexValue(d) == 31 by { assert d[..1] == "1"; }
    assert "0X1f" == "0X" + d;
    ParseIntOfHexDigits(d);
  }

  /** `x || 0` on a number: NaN becomes 0, every other value stays. */
  function OrZero(x: Option<real>): (r: real)
    ensures x.None? ==> r == 0.0
    ensures x.Some? ==> r == x.value
  {
    if x.Some? then x.value else 0.0
  }

  /** `parseFloat(s) || 0`. */
  function ParseFloatOrZero(s: string): real
  {
    OrZero(ParseFloat(s))
  }

  /** Reading back the numeral of a natural number gives the number. */
  lemma {:induction false} DigitsValueOfNumeral(n: nat)
    ensures DigitsValue(NatToString(n)) == n
  {
    if n >= 10 {
      DigitsValueOfNumeral(n / 10);
      var s := NatToString(n);
      assert s[..|s| - 1] == NatToString(n / 10);
    }
  }

  lemma {:induction false} DigitRunOfDigits(s: string)
    requires AllDigits(s)
    ensures DigitRun(s) == |s|
    decreases |s|
  {
    if |s| > 0 { DigitRunOfDigits(s[1..]); }
  }

  /** `parseInt(String(n)) == n` for every natural number n. */
  lemma ParseIntRoundTrip(n: nat)
    ensures ParseInt(NatToString(n)) == Some(n)
  {
    var s := NatToString(n);
    assert TrimStart(s) == s;
    assert !HasHexPrefix(s);
    DigitRunOfDigits(s);
    DigitsValueOfNumeral(n);
    assert s[..|s|] == s;
  }

  /** `parseFloat(String(n)) == n` for every natural number n. */
  lemma ParseFloatRoundTrip(n: nat)
    ensures ParseFloat(NatToString(n)) == Some(n as real)
  {
    var s := NatToString(n);
    DigitRunOfDigits(s);
    DigitsValueOfNumeral(n);
    assert s[..|s|] == s;
    assert s[|s|..] == "";
  }

  /** Text that starts with a letter (or anything that cannot start a numeral) is NaN. */
  lemma ParseFloatOfNonNumeral(s: string)
    requires |s| > 0 && !IsDigit(s[0]) && s[0] != '-' && s[0] != '+' && s[0] != '.'
    ensures ParseFloat(s).None? && ParseFloatOrZero(s) == 0.0
  {
  }
}
