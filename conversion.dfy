/**
 * The handlers' view of the rate file: `get_exchange_rate` reads one key of
 * exchange_rates.json, and `convert_to_usd` turns an amount into US dollars
 * through the two currencies' rouble rates.
 */
module Conversion {
  import opened Wrappers
  import opened Exchange

  /** `get_exchange_rate(key)`: `None` when the file is missing or lacks the
      key; a non-numeric entry (the ISO timestamp) fails `float()` and is
      `None` as well. */
  function GetExchangeRate(file: Option<Record>, key: string): (r: Option<real>)
    ensures r.Some? <==> file.Some? && key in file.value && file.value[key].JNum?
    ensures r.Some? ==> file.value[key] == JNum(r.value)
  {
    if file.None? || key !in file.value then None
    else match file.value[key]
      case JNum(x) => Some(x)
      case JStr(_) => None
  }

  /** `convert_to_usd(amount, currency)`. A missing rate yields 0. `None`
      stands for the ZeroDivisionError raised when the stored USD rate is 0. */
  function ConvertToUsd(amount: real, currency: string, file: Option<Record>): Option<real> {
    var usdRate := GetExchangeRate(file, "USD_RUB");
    var curRate := GetExchangeRate(file, currency + "_RUB");
    if currency == "USD" then Some(amount)
    else if usdRate.None? || curRate.None? then Some(0.0)
    else if usdRate.value == 0.0 then None
    else Some((amount * curRate.value) / usdRate.value)
  }

  /** Dollars are never converted and need no rate at all. */
  lemma UsdIsIdentity(amount: real, file: Option<Record>)
    ensures ConvertToUsd(amount, "USD", file) == Some(amount)
  {
  }

  /** The three outcomes for any other currency, each with its condition. */
  lemma ConversionOutcomes(amount: real, currency: string, file: Option<Record>)
    requires currency != "USD"
    ensures var usd := GetExchangeRate(file, "USD_RUB");
      var cur := GetExchangeRate(file, currency + "_RUB");
      && (usd.None? || cur.None? ==> ConvertToUsd(amount, currency, file) == Some(0.0))
      && (ConvertToUsd(amount, currency, file).None? <==> usd.Some? && cur.Some? && usd.value == 0.0)
      && (usd.Some? && cur.Some? && usd.value != 0.0 ==>
            ConvertToUsd(amount, currency, file).Some? &&
            ConvertToUsd(amount, currency, file).value == amount * cur.value / usd.value)
  {
  }

  /** Cross rate through the rouble: the dollar amount is worth as many roubles
      as the original amount, and converting it back at the inverse rate gives
      the original amount. */
  lemma CrossRateRoundTrip(amount: real, currency: string, file: Option<Record>, usdRate: real, curRate: real)
    requires currency != "USD"
    requires GetExchangeRate(file, "USD_RUB") == Some(usdRate) && usdRate > 0.0
    requires GetExchangeRate(file, currency + "_RUB") == Some(curRate) && curRate > 0.0
    ensures ConvertToUsd(amount, currency, file).Some?
    ensures var usd := ConvertToUsd(amount, currency, file).value;
      usd * usdRate == amount * curRate && usd * usdRate / curRate == amount
  {
  }

  /** Conversion is linear in the amount. */
  lemma ConversionScales(amount: real, k: real, currency: string, file: Option<Record>)
    requires ConvertToUsd(amount, currency, file).Some?
    ensures ConvertToUsd(k * amount, currency, file).Some?
    ensures ConvertToUsd(k * amount, currency, file).value == k * ConvertToUsd(amount, currency, file).value
  {
    var usd := GetExchangeRate(file, "USD_RUB");
    var cur := GetExchangeRate(file, currency + "_RUB");
    if currency != "USD" && usd.Some? && cur.Some? && usd.value != 0.0 {
      var u, c := usd.value, cur.value;
      assert (k * amount * c) / u == k * ((amount * c) / u);
    }
  }
}
