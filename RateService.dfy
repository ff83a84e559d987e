/**
 * The `/rate` endpoint of RGZ/currency_service.py: a fixed table of rates to
 * the rouble, looked up by the upper-cased `currency` query parameter.
 */
module RateService {
  import opened Wrappers
  import Text

  /** `CURRENCY_RATES`. */
  const CurrencyRates: map<string, real> := map["USD" := 90.5, "EUR" := 98.7, "CNY" := 12.3]

  /** The JSON body of a response (the success body's timestamp is not modelled). */
  datatype Body =
    | Message(message: string)
    | Quote(currency: string, rate: real)

  datatype Response = Response(body: Body, status: int)

  /**
   * `get_exchange_rate`: `param` is the query parameter, None when absent
   * (`request.args.get('currency', '')` then yields the empty string).
   */
  function GetExchangeRate(param: Option<string>): (r: Response)
    ensures r.status == 200 || r.status == 400
    ensures var code := Text.Upper(if param.Some? then param.value else "");
            && (code == [] <==> r == Response(Message("Currency parameter is required"), 400))
            && (code != [] && code !in CurrencyRates <==> r == Response(Message("UNKNOWN CURRENCY"), 400))
            && (r.status == 200 <==> code in CurrencyRates)
            && (code in CurrencyRates ==> r.body == Quote(code, CurrencyRates[code]))
  {
    var currency := Text.Upper(if param.Some? then param.value else "");
    if currency == [] then Response(Message("Currency parameter is required"), 400)
    else if currency !in CurrencyRates then Response(Message("UNKNOWN CURRENCY"), 400)
    else Response(Quote(currency, CurrencyRates[currency]), 200)
  }

  /** The lookup ignores letter case: a parameter and its upper case get the same response. */
  lemma CaseInsensitive(s: string)
    ensures GetExchangeRate(Some(s)) == GetExchangeRate(Some(Text.Upper(s)))
  {
    Text.UpperIdempotent(s);
  }

  /** Status 200 is given for exactly the three table currencies, in any letter case. */
  lemma OkOnlyForTable(s: string)
    ensures GetExchangeRate(Some(s)).status == 200 <==> Text.Upper(s) in {"USD", "EUR", "CNY"}
  {
  }

  /** The rouble itself is not in the table: "RUB" is an unknown currency. */
  lemma RoubleUnknown()
    ensures GetExchangeRate(Some("RUB")) == Response(Message("UNKNOWN CURRENCY"), 400)
    ensures GetExchangeRate(Some("usd")) == Response(Quote("USD", 90.5), 200)
  {
    Text.UpperOfUpper("RUB");
    assert Text.Upper("usd") == "USD";
  }
}
