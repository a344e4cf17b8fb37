/**
 * The currency converter: a from/to currency pair, the typed amount, and the
 * converted amount shown to two decimals. The exchange-rate query is keyed
 * on the from currency: its cache holds the tables loaded so far by base
 * currency, and the component sees the table of the current from currency
 * (`None` until that one has loaded). Fetching, refetching and cache
 * expiry are outside the model.
 */
module CurrencyConverter {
  import opened Common
  import opened JsNumber
  import opened Schema
  import opened LocalStorage
  import opened UnitFields

  /** `rates[code] || 0`: a missing code (or a zero rate) gives 0. */
  function RateOf(rates: map<string, real>, code: string): (r: real)
    ensures code !in rates ==> r == 0.0
    ensures code in rates ==> r == rates[code]
  {
    if code in rates then rates[code] else 0.0
  }

  /** The record the conversion effect saves for a signed-in user and a positive amount. */
  function SavedRecord(from: string, to: string, amount: real, rate: real, user: bool): (r: Option<ConversionInput>)
    ensures r.Some? <==> user && amount > 0.0
    ensures r.Some? ==> r.value.kind == "currency" && r.value.fromUnit == from && r.value.toUnit == to
                        && r.value.fromValue == amount && r.value.exchangeRate == Some(rate)
                        && r.value.toValue == amount * rate
  {
    if user && amount > 0.0 then Some(ConversionInput("currency", from, to, amount, amount * rate, Some(rate)))
    else None
  }

  /** The query's data for a base currency: its cached table, or `undefined` (`None`) before one has loaded. */
  function CachedRates(cache: map<string, map<string, real>>, base: string): (r: Option<map<string, real>>)
    ensures r.Some? <==> base in cache
    ensures r.Some? ==> r.value == cache[base]
  {
    if base in cache then Some(cache[base]) else None
  }

  class Converter {
    var fromCurrency: string
    var toCurrency: string
    var fromAmount: string
    var convertedAmount: Field
    /** The rate tables the query has loaded, by the base currency of its key. */
    var cache: map<string, map<string, real>>

    constructor ()
      ensures fromCurrency == "USD" && toCurrency == "EUR"
      ensures fromAmount == "100" && convertedAmount == Typed("0")
      ensures cache == map[] && ExchangeRates().None?
    {
      fromCurrency := "USD";
      toCurrency := "EUR";
      fromAmount := "100";
      convertedAmount := Typed("0");
      cache := map[];
    }

    /** `exchangeRates`: the query keyed on the from currency sees only that currency's table. */
    function ExchangeRates(): (r: Option<map<string, real>>)
      reads this
      ensures r.Some? <==> fromCurrency in cache
      ensures r.Some? ==> r.value == cache[fromCurrency]
    {
      CachedRates(cache, fromCurrency)
    }

    /** `getCurrentExchangeRate`: 0 before the rates load or when the target is missing. */
    function CurrentExchangeRate(): (r: real)
      reads this
      ensures ExchangeRates().None? ==> r == 0.0
      ensures ExchangeRates().Some? && toCurrency !in ExchangeRates().value ==> r == 0.0
      ensures ExchangeRates().Some? && toCurrency in ExchangeRates().value ==> r == ExchangeRates().value[toCurrency]
    {
      var rates := ExchangeRates();
      if rates.None? then 0.0 else RateOf(rates.value, toCurrency)
    }

    /** The query answering for `base`: its table is cached under that key. */
    method RatesLoaded(base: string, rates: map<string, real>)
      modifies this
      ensures cache == old(cache)[base := rates]
      ensures base == fromCurrency ==> ExchangeRates() == Some(rates)
      ensures fromCurrency == old(fromCurrency) && toCurrency == old(toCurrency)
      ensures fromAmount == old(fromAmount) && convertedAmount == old(convertedAmount)
    {
      cache := cache[base := rates];
    }

    /** The amount input. */
    method SetFromAmount(text: string)
      modifies this
      ensures fromAmount == text
      ensures fromCurrency == old(fromCurrency) && toCurrency == old(toCurrency)
      ensures convertedAmount == old(convertedAmount) && cache == old(cache)
    {
      fromAmount := text;
    }

    /** The from-currency select; the rates shown become those cached for the new code, if any. */
    method SetFromCurrency(code: string)
      modifies this
      ensures fromCurrency == code && ExchangeRates() == CachedRates(cache, code)
      ensures toCurrency == old(toCurrency) && fromAmount == old(fromAmount)
      ensures convertedAmount == old(convertedAmount) && cache == old(cache)
    {
      fromCurrency := code;
    }

    /** The to-currency select. */
    method SetToCurrency(code: string)
      modifies this
      ensures toCurrency == code
      ensures fromCurrency == old(fromCurrency) && fromAmount == old(fromAmount)
      ensures convertedAmount == old(convertedAmount) && cache == old(cache)
    {
      toCurrency := code;
    }

    /**
     * The conversion effect: with rates loaded and a non-empty amount, show
     * amount × rate and report the record saved, if any.
     */
    method ConvertEffect(user: bool) returns (saved: Option<ConversionInput>)
      modifies this
      ensures ExchangeRates().None? || fromAmount == "" ==> convertedAmount == old(convertedAmount) && saved.None?
      ensures ExchangeRates().Some? && fromAmount != "" ==>
                && convertedAmount == Fixed2(ParseFloatOrZero(fromAmount) * CurrentExchangeRate())
                && saved == SavedRecord(fromCurrency, toCurrency, ParseFloatOrZero(fromAmount),
                                        CurrentExchangeRate(), user)
      ensures ExchangeRates().Some? && fromAmount != "" && toCurrency !in ExchangeRates().value ==>
                convertedAmount == Fixed2(0.0)
      ensures ExchangeRates().Some? && ParseFloat(fromAmount).None? && fromAmount != "" ==>
                convertedAmount == Fixed2(0.0) && saved.None?
      ensures fromCurrency == old(fromCurrency) && toCurrency == old(toCurrency)
      ensures fromAmount == old(fromAmount) && cache == old(cache)
    {
      saved := None;
      var rates := ExchangeRates();
      if rates.Some? && fromAmount != "" {
        var rate := RateOf(rates.value, toCurrency);
        var amount := ParseFloatOrZero(fromAmount);
        if toCurrency !in rates.value {
          assert rate == 0.0;
        }
        if ParseFloat(fromAmount).None? {
          assert amount == 0.0;
        }
        var converted := amount * rate;
        convertedAmount := Fixed2(converted);
        saved := SavedRecord(fromCurrency, toCurrency, amount, rate, user);
      }
    }

    /**
     * `handleSwapCurrencies`: exchange the two codes. The query key follows
     * the from currency, so the rates shown become the new base's cached
     * table, or none until it loads.
     */
    method SwapCurrencies()
      modifies this
      ensures fromCurrency == old(toCurrency) && toCurrency == old(fromCurrency)
      ensures ExchangeRates() == CachedRates(old(cache), old(toCurrency))
      ensures fromAmount == old(fromAmount) && convertedAmount == old(convertedAmount)
      ensures cache == old(cache)
    {
      fromCurrency, toCurrency := toCurrency, fromCurrency;
    }

    /** `handleAddToFavorites`: the POST body sent, or `None` when nobody is signed in. */
    method AddToFavorites(user: bool) returns (request: Option<FavoriteBody>)
      ensures !user ==> request.None?
      ensures user ==> request == Some(FavoriteBody(None, Some("currency"), Some(fromCurrency), Some(toCurrency)))
    {
      if !user {
        return None;
      }
      request := Some(FavoriteBody(None, Some("currency"), Some(fromCurrency), Some(toCurrency)));
    }
  }

  /** Swapping twice restores both codes. */
  method SwapTwiceRestores(c: Converter)
    modifies c
    ensures c.fromCurrency == old(c.fromCurrency) && c.toCurrency == old(c.toCurrency)
    ensures c.ExchangeRates() == old(c.ExchangeRates())
  {
    c.SwapCurrencies();
    c.SwapCurrencies();
  }

  /**
   * After a swap the converter waits for the new base's table: with only the
   * USD table loaded, swapping USD/EUR leaves the display as it was and
   * saves nothing.
   */
  method SwapWaitsForNewBase(usd: map<string, real>) returns (saved: Option<ConversionInput>, shown: Field)
    ensures saved.None? && shown == Typed("0")
  {
    var c := new Converter();
    c.RatesLoaded("USD", usd);
    c.SwapCurrencies();
    saved := c.ConvertEffect(true);
    shown := c.convertedAmount;
  }
}
