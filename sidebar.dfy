/**
 * The sidebar: up to three favourites as quick actions, the five most
 * recent conversions with how long ago each was made, and a "View All
 * History" button when there are more. Number rendering is left to the
 * `show` (`String(x)`) and `fixed2` (`x.toFixed(2)`) parameters, and the
 * clock reading `Date.now()` is the parameter `now`, in milliseconds.
 */
module Sidebar {
  import opened Common
  import opened Schema
  import opened LocalStorage

  const MinuteMs := 60000
  const HourMs := 3600000
  const DayMs := 86400000

  /** "<n> <unit> ago", with the plural 's' only when n is above one. */
  function Ago(n: nat, unit: string): (r: string)
    ensures |r| > 0 && IsDigit(r[0])
  {
    NatToString(n) + " " + unit + (if n > 1 then "s" else "") + " ago"
  }

  /** Whole hours from whole minutes, and whole days from whole hours, as `Math.floor` does them. */
  lemma NestedFloors(d: int)
    requires d >= 0
    ensures (d / MinuteMs) / 60 == d / HourMs
    ensures ((d / MinuteMs) / 60) / 24 == d / DayMs
  {
    var q := d / HourMs;
    var r := d % HourMs;
    assert d == q * HourMs + r && 0 <= r < HourMs;
    assert d / MinuteMs == q * 60 + r / MinuteMs;
    var p := d / DayMs;
    var t := d % DayMs;
    assert d == p * DayMs + t && 0 <= t < DayMs;
    assert q == p * 24 + t / HourMs;
  }

  /**
   * `formatTimeAgo`: "Just now" below a minute (a timestamp in the future
   * included), then whole minutes, whole hours, whole days.
   */
  function FormatTimeAgo(now: int, timestamp: int): (r: string)
    ensures now - timestamp < MinuteMs <==> r == "Just now"
    ensures MinuteMs <= now - timestamp < HourMs ==> r == Ago((now - timestamp) / MinuteMs, "minute")
    ensures HourMs <= now - timestamp < DayMs ==> r == Ago((now - timestamp) / HourMs, "hour")
    ensures DayMs <= now - timestamp ==> r == Ago((now - timestamp) / DayMs, "day")
  {
    var minutes := (now - timestamp) / MinuteMs;
    if minutes < 1 then "Just now"
    else
      NestedFloors(now - timestamp);
      if minutes < 60 then Ago(minutes, "minute")
      else
        var hours := minutes / 60;
        if hours < 24 then Ago(hours, "hour")
        else Ago(hours / 24, "day")
  }

  /** The symbol before the from unit: none for currencies, a space otherwise. */
  function FromSymbol(kind: string): string
  {
    if kind == "currency" then "" else " "
  }

  /** The symbol before the converted amount: € or $ for currencies, a space otherwise. */
  function ToSymbol(kind: string, toUnit: string): string
  {
    if kind == "currency" then (if toUnit == "EUR" then "€" else "$") else " "
  }

  /** The unit after the converted amount: none for EUR, the unit after a space otherwise. */
  function ToSuffix(toUnit: string): string
  {
    if toUnit == "EUR" then "" else " " + toUnit
  }

  /** `formatConversion`: "<from><symbol><unit> → <symbol><to, two decimals><unit>". */
  function FormatConversion(show: real -> string, fixed2: real -> string, c: ConversionRecord): (r: string)
    ensures c.kind == "currency" && c.toUnit == "EUR" ==>
              r == show(c.fromValue) + c.fromUnit + " → €" + fixed2(c.toValue)
    ensures c.kind == "currency" && c.toUnit != "EUR" ==>
              r == show(c.fromValue) + c.fromUnit + " → $" + fixed2(c.toValue) + " " + c.toUnit
    ensures c.kind != "currency" && c.toUnit != "EUR" ==>
              r == show(c.fromValue) + " " + c.fromUnit + " →  " + fixed2(c.toValue) + " " + c.toUnit
    ensures c.kind != "currency" && c.toUnit == "EUR" ==>
              r == show(c.fromValue) + " " + c.fromUnit + " →  " + fixed2(c.toValue)
  {
    show(c.fromValue) + FromSymbol(c.kind) + c.fromUnit + " → "
      + ToSymbol(c.kind, c.toUnit) + fixed2(c.toValue) + ToSuffix(c.toUnit)
  }

  /**
   * When neither the numbers nor the units contain an arrow, the arrow
   * splits the line into the from side and the to side.
   */
  lemma ArrowSeparatesSides(show: real -> string, fixed2: real -> string, c: ConversionRecord)
    requires '→' !in show(c.fromValue) && '→' !in c.fromUnit
    requires '→' !in fixed2(c.toValue) && '→' !in c.toUnit
    ensures Split(FormatConversion(show, fixed2, c), '→')
            == [show(c.fromValue) + FromSymbol(c.kind) + c.fromUnit + " ",
                " " + ToSymbol(c.kind, c.toUnit) + fixed2(c.toValue) + ToSuffix(c.toUnit)]
  {
    var left := show(c.fromValue) + FromSymbol(c.kind) + c.fromUnit + " ";
    var right := " " + ToSymbol(c.kind, c.toUnit) + fixed2(c.toValue) + ToSuffix(c.toUnit);
    assert '→' !in left;
    assert '→' !in right;
    assert FormatConversion(show, fixed2, c) == left + ['→'] + right;
    SplitAtOnly(left, '→', right);
  }

  /** `list.slice(0, n)`. */
  function Slice<T>(s: seq<T>, n: nat): (r: seq<T>)
    ensures |r| == if |s| < n then |s| else n
    ensures forall i :: 0 <= i < |r| ==> r[i] == s[i]
  {
    if |s| < n then s else s[..n]
  }

  /** The favourites offered as quick actions. */
  function QuickActions(favorites: seq<Favorite>): (r: seq<Favorite>)
    ensures |r| == if |favorites| < 3 then |favorites| else 3
    ensures forall i :: 0 <= i < |r| ==> r[i] == favorites[i]
  {
    Slice(favorites, 3)
  }

  /** A quick action's title and subtitle. */
  function QuickActionText(f: Favorite): (r: (string, string))
    ensures r.0 == f.fromUnit + " → " + f.toUnit
    ensures r.1 == "Favorite " + f.kind
  {
    (f.fromUnit + " → " + f.toUnit, "Favorite " + f.kind)
  }

  /** The conversions listed under "Recent Conversions". */
  function RecentConversions(conversions: seq<ConversionRecord>): (r: seq<ConversionRecord>)
    ensures |r| == if |conversions| < 5 then |conversions| else 5
    ensures forall i :: 0 <= i < |r| ==> r[i] == conversions[i]
  {
    Slice(conversions, 5)
  }

  /** The "View All History" button. */
  predicate ShowsViewAll(conversions: seq<ConversionRecord>)
  {
    |conversions| > 5
  }

  /** The "Clear" button. */
  predicate ShowsClear(conversions: seq<ConversionRecord>)
  {
    |conversions| > 0
  }

  /** "View All History" appears exactly when some conversion is left out of the list. */
  lemma ViewAllExactlyWhenTruncated(conversions: seq<ConversionRecord>)
    ensures ShowsViewAll(conversions) <==> |RecentConversions(conversions)| < |conversions|
    ensures !ShowsViewAll(conversions) ==> RecentConversions(conversions) == conversions
  {
    if !ShowsViewAll(conversions) {
      var r := RecentConversions(conversions);
      assert |r| == |conversions|;
      assert forall i :: 0 <= i < |r| ==> r[i] == conversions[i];
    }
  }

  /** The text shown instead of an empty favourites list. */
  function FavoritesPlaceholder(user: bool, favorites: seq<Favorite>): (r: Option<string>)
    ensures r.Some? <==> favorites == []
    ensures r.Some? && user ==> r.value == "No favorites yet. Add some by clicking the heart icon on converters."
    ensures r.Some? && !user ==> r.value == "Sign in to save favorite conversions."
  {
    if |favorites| != 0 then None
    else if user then Some("No favorites yet. Add some by clicking the heart icon on converters.")
    else Some("Sign in to save favorite conversions.")
  }

  /** The text shown instead of an empty history. */
  function HistoryPlaceholder(user: bool, conversions: seq<ConversionRecord>): (r: Option<string>)
    ensures r.Some? <==> !ShowsClear(conversions)
    ensures r.Some? && user ==> r.value == "No conversions yet. Start converting to see your history here."
    ensures r.Some? && !user ==> r.value == "Sign in to save conversion history."
  {
    if |conversions| != 0 then None
    else if user then Some("No conversions yet. Start converting to see your history here.")
    else Some("Sign in to save conversion history.")
  }
}
