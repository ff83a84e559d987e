/**
 * lab4/Bot.py: a chat bot that stores exchange rates to the rouble in a
 * process-wide dictionary and converts amounts with them. Two dialogues
 * (save a rate; convert an amount) run on a per-chat state machine.
 */
module CurrencyBot {
  import opened Wrappers
  import Text
  import opened Chat

  /** `CurrencyStates`. */
  datatype CurrencyState =
    | WaitingForCurrencyName
    | WaitingForCurrencyRate
    | WaitingForConvertCurrency
    | WaitingForConvertAmount

  /**
   * One chat's FSM record: the state (None once cleared) and the keys that
   * `update_data` stored (`currency_name` and `currency`).
   */
  datatype Session = Session(state: Option<CurrencyState>, currencyName: Option<string>, currency: Option<string>)

  /** The record after `state.clear()`. */
  const Cleared := Session(None, None, None)

  /** The reply each handler sends, as a tag with the values it reports. */
  datatype Reply =
    | Menu                                               // /start
    | NoCurrencies                                       // /list_currencies or /convert with nothing stored
    | CurrencyList(rates: map<string, real>)
    | AskCurrencyName
    | AskRate(currency: string)
    | RateNotPositive
    | NotANumber
    | Saved(currency: string, rate: real)
    | AskConvertCurrency
    | UnknownCurrency(currency: string)
    | AskAmount(currency: string)
    | AmountNotPositive
    | Converted(amount: real, currency: string, result: real)
    | NoReply                                            // no handler matches the message

  /** The data a state relies on is present: the name while a rate is awaited, a stored currency while an amount is. */
  ghost predicate Coherent(s: Session, currencies: map<string, real>)
  {
    && (s.state == Some(WaitingForCurrencyRate) ==> s.currencyName.Some?)
    && (s.state == Some(WaitingForConvertAmount) ==> s.currency.Some? && s.currency.value in currencies)
  }

  class Bot {
    /** `currencies`: code to rate in roubles. */
    var currencies: map<string, real>
    /** The FSM storage; a chat without an entry has no state and no data. */
    var sessions: map<ChatId, Session>

    /** Every stored rate is positive, and every chat's state has the data it needs. */
    ghost predicate Valid()
      reads this
    {
      && (forall code | code in currencies :: currencies[code] > 0.0)
      && (forall chat | chat in sessions :: Coherent(sessions[chat], currencies))
    }

    function SessionOf(chat: ChatId): Session
      reads this
    {
      if chat in sessions then sessions[chat] else Cleared
    }

    constructor ()
      ensures Valid()
      ensures currencies == map[] && sessions == map[]
    {
      currencies := map[];
      sessions := map[];
    }

    /** `cmd_start`. */
    method CmdStart() returns (reply: Reply)
      ensures reply == Menu
    {
      reply := Menu;
    }

    /** `cmd_list_currencies`. */
    method CmdListCurrencies() returns (reply: Reply)
      ensures reply == if currencies == map[] then NoCurrencies else CurrencyList(currencies)
    {
      if currencies == map[] {
        reply := NoCurrencies;
      } else {
        reply := CurrencyList(currencies);
      }
    }

    /** `cmd_save_currency`: enters the save dialogue from any state, keeping stored data. */
    method CmdSaveCurrency(chat: ChatId) returns (reply: Reply)
      requires Valid()
      modifies this
      ensures Valid()
      ensures currencies == old(currencies)
      ensures sessions == old(sessions)[chat := old(SessionOf(chat)).(state := Some(WaitingForCurrencyName))]
      ensures reply == AskCurrencyName
    {
      sessions := sessions[chat := SessionOf(chat).(state := Some(WaitingForCurrencyName))];
      reply := AskCurrencyName;
    }

    /** `process_currency_name`: any text is accepted, upper-cased, as the currency name. */
    method ProcessCurrencyName(chat: ChatId, text: string) returns (reply: Reply)
      requires Valid()
      requires SessionOf(chat).state == Some(WaitingForCurrencyName)
      modifies this
      ensures Valid()
      ensures currencies == old(currencies)
      ensures sessions == old(sessions)[chat := old(SessionOf(chat)).(
                state := Some(WaitingForCurrencyRate), currencyName := Some(Text.Upper(text)))]
      ensures reply == AskRate(Text.Upper(text))
    {
      var currency := Text.Upper(text);
      sessions := sessions[chat := SessionOf(chat).(state := Some(WaitingForCurrencyRate), currencyName := Some(currency))];
      reply := AskRate(currency);
    }

    /**
     * `process_currency_rate`: a positive rate is stored under the name given
     * before, replacing any earlier rate, and the chat's record is cleared; a
     * refused rate changes nothing.
     */
    method ProcessCurrencyRate(chat: ChatId, text: string, parseFloat: string -> Option<real>) returns (reply: Reply)
      requires Valid()
      requires SessionOf(chat).state == Some(WaitingForCurrencyRate)
      modifies this
      ensures Valid()
      ensures old(SessionOf(chat)).currencyName.Some?
      ensures match PositiveNumber(text, parseFloat)
              case Failure(NotNumeric) =>
                reply == NotANumber && currencies == old(currencies) && sessions == old(sessions)
              case Failure(NotPositive) =>
                reply == RateNotPositive && currencies == old(currencies) && sessions == old(sessions)
              case Success(rate) =>
                var name := old(SessionOf(chat)).currencyName.value;
                && reply == Saved(name, rate)
                && currencies == old(currencies)[name := rate]
                && sessions == old(sessions)[chat := Cleared]
    {
      match PositiveNumber(text, parseFloat) {
        case Failure(NotNumeric) =>
          reply := NotANumber;
        case Failure(NotPositive) =>
          reply := RateNotPositive;
        case Success(rate) =>
          var currency := SessionOf(chat).currencyName.value;
          currencies := currencies[currency := rate];
          sessions := sessions[chat := Cleared];
          reply := Saved(currency, rate);
      }
    }

    /** `cmd_convert`: the dialogue starts only when some rate is stored. */
    method CmdConvert(chat: ChatId) returns (reply: Reply)
      requires Valid()
      modifies this
      ensures Valid()
      ensures currencies == old(currencies)
      ensures old(currencies) == map[] ==> reply == NoCurrencies && sessions == old(sessions)
      ensures old(currencies) != map[] ==>
                && reply == AskConvertCurrency
                && sessions == old(sessions)[chat := old(SessionOf(chat)).(state := Some(WaitingForConvertCurrency))]
    {
      if currencies == map[] {
        reply := NoCurrencies;
      } else {
        sessions := sessions[chat := SessionOf(chat).(state := Some(WaitingForConvertCurrency))];
        reply := AskConvertCurrency;
      }
    }

    /** `process_convert_currency`: an unknown code ends the dialogue rather than asking again. */
    method ProcessConvertCurrency(chat: ChatId, text: string) returns (reply: Reply)
      requires Valid()
      requires SessionOf(chat).state == Some(WaitingForConvertCurrency)
      modifies this
      ensures Valid()
      ensures currencies == old(currencies)
      ensures var code := Text.Upper(text);
              if code in old(currencies) then
                && reply == AskAmount(code)
                && sessions == old(sessions)[chat := old(SessionOf(chat)).(
                     state := Some(WaitingForConvertAmount), currency := Some(code))]
              else
                reply == UnknownCurrency(code) && sessions == old(sessions)[chat := Cleared]
    {
      var currency := Text.Upper(text);
      if currency !in currencies {
        sessions := sessions[chat := Cleared];
        reply := UnknownCurrency(currency);
      } else {
        sessions := sessions[chat := SessionOf(chat).(state := Some(WaitingForConvertAmount), currency := Some(currency))];
        reply := AskAmount(currency);
      }
    }

    /**
     * `process_convert_amount`: a positive amount is multiplied by the stored
     * rate and the chat's record is cleared; a refused amount changes nothing.
     * The stored currency is always still in the store, so the lookup of line
     * 143 cannot fail.
     */
    method ProcessConvertAmount(chat: ChatId, text: string, parseFloat: string -> Option<real>) returns (reply: Reply)
      requires Valid()
      requires SessionOf(chat).state == Some(WaitingForConvertAmount)
      modifies this
      ensures Valid()
      ensures currencies == old(currencies)
      ensures old(SessionOf(chat)).currency.Some? && old(SessionOf(chat)).currency.value in currencies
      ensures match PositiveNumber(text, parseFloat)
              case Failure(NotNumeric) => reply == NotANumber && sessions == old(sessions)
              case Failure(NotPositive) => reply == AmountNotPositive && sessions == old(sessions)
              case Success(amount) =>
                var code := old(SessionOf(chat)).currency.value;
                && reply == Converted(amount, code, amount * currencies[code])
                && reply.result > 0.0
                && sessions == old(sessions)[chat := Cleared]
    {
      match PositiveNumber(text, parseFloat) {
        case Failure(NotNumeric) =>
          reply := NotANumber;
        case Failure(NotPositive) =>
          reply := AmountNotPositive;
        case Success(amount) =>
          var currency := SessionOf(chat).currency.value;
          var rate := currencies[currency];
          var result := amount * rate;
          sessions := sessions[chat := Cleared];
          reply := Converted(amount, currency, result);
      }
    }

    /**
     * One incoming message, routed to the first handler whose filter accepts it,
     * in the order the handlers are registered (lines 45-147): the commands
     * `/start`, `/list_currencies` and `/save_currency` in any state, then the two
     * save-dialogue states, then `/convert`, then the two convert-dialogue states.
     */
    method Dispatch(chat: ChatId, text: string, parseFloat: string -> Option<real>) returns (reply: Reply)
      requires Valid()
      modifies this
      ensures Valid()
      ensures old(currencies).Keys <= currencies.Keys
      ensures currencies == if reply.Saved? then old(currencies)[reply.currency := reply.rate] else old(currencies)
      ensures forall other :: other != chat ==> SessionOf(other) == old(SessionOf(other))
      ensures reply == NoReply <==> !IsCommand(text, "start") && !IsCommand(text, "list_currencies")
                                    && !IsCommand(text, "save_currency") && !IsCommand(text, "convert")
                                    && old(SessionOf(chat)).state.None?
      ensures reply == NoReply ==> sessions == old(sessions)
    {
      var state := SessionOf(chat).state;
      if IsCommand(text, "start") {
        reply := CmdStart();
      } else if IsCommand(text, "list_currencies") {
        reply := CmdListCurrencies();
      } else if IsCommand(text, "save_currency") {
        reply := CmdSaveCurrency(chat);
      } else if state == Some(WaitingForCurrencyName) {
        reply := ProcessCurrencyName(chat, text);
      } else if state == Some(WaitingForCurrencyRate) {
        reply := ProcessCurrencyRate(chat, text, parseFloat);
        assert reply != NoReply by {
          match PositiveNumber(text, parseFloat)
          case Failure(NotNumeric) =>
          case Failure(NotPositive) =>
          case Success(_) =>
        }
      } else if IsCommand(text, "convert") {
        reply := CmdConvert(chat);
      } else {
        match state {
          case Some(WaitingForConvertCurrency) =>
            reply := ProcessConvertCurrency(chat, text);
          case Some(WaitingForConvertAmount) =>
            reply := ProcessConvertAmount(chat, text, parseFloat);
            assert reply != NoReply by {
              match PositiveNumber(text, parseFloat)
              case Failure(NotNumeric) =>
              case Failure(NotPositive) =>
              case Success(_) =>
            }
          case None =>
            reply := NoReply;
        }
      }
    }
  }

  /** A save followed by a conversion, as a user would type them. */
  method SaveThenConvert() returns (reply: Reply)
    ensures reply == Converted(2.0, "USD", 181.0)
  {
    var readFloat := (s: string) => if s == "90.5" then Some(90.5) else if s == "2" then Some(2.0) else None;
    assert readFloat("90.5") == Some(90.5);
    ScenarioTexts();
    var bot := SaveUsd(readFloat);
    assert "USD" in bot.currencies;
    reply := bot.CmdConvert(7);
    reply := bot.ProcessConvertCurrency(7, "Usd");
    reply := bot.ProcessConvertAmount(7, "2", readFloat);
  }

  /** First half of the scenario above: "usd" is saved at "90,5" and the dialogue ends. */
  method SaveUsd(readFloat: string -> Option<real>) returns (bot: Bot)
    requires readFloat("90.5") == Some(90.5)
    ensures fresh(bot) && bot.Valid()
    ensures bot.currencies == map["USD" := 90.5] && bot.SessionOf(7) == Cleared
  {
    ScenarioTexts();
    bot := new Bot();
    var reply := bot.CmdSaveCurrency(7);
    reply := bot.ProcessCurrencyName(7, "usd");
    reply := bot.ProcessCurrencyRate(7, "90,5", readFloat);
    assert reply == Saved("USD", 90.5);
  }

  /** The texts typed in the scenario above, as the handlers normalise them. */
  lemma ScenarioTexts()
    ensures Text.Upper("usd") == "USD" && Text.Upper("Usd") == "USD"
    ensures Text.ReplaceChar("90,5", ',', '.') == "90.5" && Text.ReplaceChar("2", ',', '.') == "2"
  {
    assert Text.Upper("usd") == "USD";
    assert Text.Upper("Usd") == "USD";
    assert Text.ReplaceChar("90,5", ',', '.') == "90.5";
  }
}
