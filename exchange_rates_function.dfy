/**
 * The serverless exchange-rate endpoint: GET only, the base currency is the
 * last path segment (USD when that segment is empty), and the answer comes
 * from three fixed rate tables, with USD for any other base.
 *
 * The table lookup `mockRates[base]` is a property read on a plain object,
 * so a base that names a member every object inherits ("toString",
 * "constructor", "__proto__", ...) finds that member instead of falling
 * back to USD. `HandleAsWritten` models that lookup; `Handle` is the
 * own-property lookup the fallback is evidently meant to have.
 */
module ExchangeRatesFunction {
  import opened Common

  datatype ReplyBody =
    | RatesBody(rates: map<string, real>)
    | MessageBody(message: string)
    | ErrorBody(error: string)
    | NoBody                                 // `JSON.stringify` of a function is undefined

  datatype Reply = Reply(statusCode: int, body: ReplyBody)

  const UsdRates: map<string, real> := map["EUR" := 0.85, "GBP" := 0.73, "JPY" := 110.0]
  const EurRates: map<string, real> := map["USD" := 1.18, "GBP" := 0.86, "JPY" := 129.5]
  const GbpRates: map<string, real> := map["USD" := 1.37, "EUR" := 1.16, "JPY" := 150.8]

  /** The own properties of the rate object. */
  const MockRates: map<string, map<string, real>> := map["USD" := UsdRates, "EUR" := EurRates, "GBP" := GbpRates]

  /** The methods every plain object inherits from `Object.prototype`. */
  const InheritedMethods: set<string> := {
    "constructor", "hasOwnProperty", "isPrototypeOf", "propertyIsEnumerable", "toString",
    "toLocaleString", "valueOf", "__defineGetter__", "__defineSetter__", "__lookupGetter__",
    "__lookupSetter__"}

  const MethodNotAllowed := Reply(405, MessageBody("Method not allowed"))
  const InternalError := Reply(500, ErrorBody("Internal Server Error"))

  /** The last segment of a path, `path.split('/').pop()`. */
  function LastSegment(path: string): (last: string)
    ensures '/' !in last
  {
    var parts := Split(path, '/');
    parts[|parts| - 1]
  }

  /** `path.split('/').pop() || 'USD'`: the last path segment, or USD when it is empty. */
  function BaseCurrency(path: string): (base: string)
    ensures base != "" && '/' !in base
    ensures LastSegment(path) != "" ==> base == LastSegment(path)
    ensures LastSegment(path) == "" ==> base == "USD"
  {
    var last := LastSegment(path);
    if last == "" then "USD" else last
  }

  /** The base currency of a path ending in `/CODE` is CODE. */
  lemma BaseCurrencyOfRatesPath(prefix: string, code: string)
    requires code != "" && '/' !in code
    ensures BaseCurrency(prefix + "/" + code) == code
  {
    assert prefix + "/" + code == prefix + ['/'] + code;
    SplitEndsWith(prefix, '/', code);
  }

  /** What `mockRates[base] || mockRates.USD` evaluates to, serialised. */
  function LookupAsWritten(base: string): (body: ReplyBody)
    ensures base in MockRates ==> body == RatesBody(MockRates[base])
    ensures base !in MockRates && base in InheritedMethods ==> body == NoBody
    ensures base == "__proto__" ==> body == RatesBody(map[])
    ensures base !in MockRates && base !in InheritedMethods && base != "__proto__" ==> body == RatesBody(UsdRates)
  {
    if base in MockRates then RatesBody(MockRates[base])
    else if base in InheritedMethods then NoBody     // a function: truthy, serialises to undefined
    else if base == "__proto__" then RatesBody(map[])  // Object.prototype: truthy, serialises to {}
    else RatesBody(UsdRates)
  }

  /** `mockRates[base]` read as an own property, with USD for every other base. */
  function Lookup(base: string): (body: ReplyBody)
    ensures base in MockRates ==> body == RatesBody(MockRates[base])
    ensures base !in MockRates ==> body == RatesBody(UsdRates)
  {
    RatesBody(if base in MockRates then MockRates[base] else UsdRates)
  }

  /**
   * The handler as written. `path` is `None` when the event has no path, so
   * that `path.split` throws and the catch answers 500.
   */
  function HandleAsWritten(httpMethod: string, path: Option<string>): (reply: Reply)
    ensures httpMethod != "GET" ==> reply == MethodNotAllowed
    ensures httpMethod == "GET" && path.None? ==> reply == InternalError
    ensures httpMethod == "GET" && path.Some? ==> reply == Reply(200, LookupAsWritten(BaseCurrency(path.value)))
  {
    if httpMethod != "GET" then MethodNotAllowed
    else if path.None? then InternalError
    else Reply(200, LookupAsWritten(BaseCurrency(path.value)))
  }

  /** The handler with the own-property lookup. */
  function Handle(httpMethod: string, path: Option<string>): (reply: Reply)
    ensures httpMethod != "GET" ==> reply == MethodNotAllowed
    ensures httpMethod == "GET" && path.None? ==> reply == InternalError
    ensures httpMethod == "GET" && path.Some? ==> reply == Reply(200, Lookup(BaseCurrency(path.value)))
  {
    if httpMethod != "GET" then MethodNotAllowed
    else if path.None? then InternalError
    else Reply(200, Lookup(BaseCurrency(path.value)))
  }

  /** Every successful reply of the corrected handler is one of the three rate tables. */
  lemma HandleAnswersATable(httpMethod: string, path: string)
    requires httpMethod == "GET"
    ensures Handle(httpMethod, Some(path)).statusCode == 200
    ensures Handle(httpMethod, Some(path)).body.RatesBody?
    ensures Handle(httpMethod, Some(path)).body.rates in MockRates.Values
  {
    var base := BaseCurrency(path);
    UsdIsATable();
    if base in MockRates {
      assert MockRates[base] in MockRates.Values;
    }
  }

  lemma UsdIsATable()
    ensures UsdRates in MockRates.Values
  {
    assert "USD" in MockRates && MockRates["USD"] == UsdRates;
  }

  /** Both handlers agree on every base that is not an inherited member name. */
  lemma HandlersAgreeOnPlainCodes(httpMethod: string, path: Option<string>)
    requires path.Some? ==> BaseCurrency(path.value) !in InheritedMethods && BaseCurrency(path.value) != "__proto__"
    ensures HandleAsWritten(httpMethod, path) == Handle(httpMethod, path)
  {
  }

  /** "toString" is an inherited method name and not a rate table of its own. */
  lemma ToStringIsInherited()
    ensures "toString" in InheritedMethods && "toString" !in MockRates
  {
  }

  /**
   * As written, a request whose path ends in "/toString" (for instance
   * "/.netlify/functions/exchange-rates/toString") is answered 200 with no
   * body at all; the corrected handler answers with the USD rates.
   */
  lemma ToStringBaseHasNoBody(prefix: string)
    ensures HandleAsWritten("GET", Some(prefix + "/toString")) == Reply(200, NoBody)
    ensures Handle("GET", Some(prefix + "/toString")) == Reply(200, RatesBody(UsdRates))
  {
    BaseCurrencyOfRatesPath(prefix, "toString");
    assert prefix + "/" + "toString" == prefix + "/toString";
    ToStringIsInherited();
  }
}
