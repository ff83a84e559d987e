/**
 * RGZ/bot_RGZ.py: a personal-finance chat bot. Users register, record income
 * and expense operations, and ask for a report over a period in a chosen
 * currency. Three dialogues (registration, adding an operation, a report) run
 * on a per-chat state machine; the database, the clock, the rate request and
 * the number and date parsers are answers supplied with each message (`Env`).
 */
module FinanceBot {
  import opened Wrappers
  import Text
  import opened Chat
  import opened FinanceReport

  /** `RegistrationState`, `AddOperationState` and `ReportState` together. */
  datatype DialogueState =
    | WaitingForName
    | WaitingForType
    | WaitingForAmount
    | WaitingForDate
    | WaitingForCurrency
    | WaitingForPeriod

  datatype OperationType = Income | Expense

  /** The value stored in `operations.type_operation`. */
  function StoredType(t: OperationType): string
  {
    if t == Income then "income" else "expense"
  }

  /**
   * One chat's FSM record: the state (None once cleared) and the keys that
   * `update_data` stored (`operation_type`, `amount`, `currency`).
   */
  datatype Session = Session(
    state: Option<DialogueState>,
    operationType: Option<OperationType>,
    amount: Option<real>,
    currency: Option<string>)

  /** The record after `state.clear()`. */
  const Cleared := Session(None, None, None, None)

  const CancelButton := "Отмена"
  const IncomeButton := "Доход"
  const ExpenseButton := "Расход"
  const TodayButton := "Сегодня"
  const AddOperationButton := "\U{2795} Добавить операцию"
  const ReportsButton := "\U{1F4CA} Отчеты"
  const HelpButton := "\U{2139}\U{FE0F} Помощь"
  const AllTimeButton := "За все время"

  /** The currencies offered for a report. */
  const ReportCurrencies: seq<string> := ["RUB", "USD", "EUR", "CNY"]

  /** The operation type chosen with a button; None for any other text. */
  function OperationTypeOf(text: string): (t: Option<OperationType>)
    ensures t == Some(Income) <==> text == IncomeButton
    ensures t == Some(Expense) <==> text == ExpenseButton
    ensures t.None? <==> text !in [IncomeButton, ExpenseButton]
  {
    if text == IncomeButton then Some(Income)
    else if text == ExpenseButton then Some(Expense)
    else None
  }

  /**
   * `period_mapping`: the report window in days (a week is seven), None
   * inside for all time; None outside for a text that is not a period button.
   */
  function PeriodWindow(text: string): (w: Option<Option<nat>>)
    ensures w.None? <==> text !in ["За сегодня", "За неделю", "За месяц", AllTimeButton]
    ensures w == Some(None) <==> text == AllTimeButton
    ensures w == Some(Some(1)) <==> text == "За сегодня"
    ensures w == Some(Some(7)) <==> text == "За неделю"
    ensures w == Some(Some(30)) <==> text == "За месяц"
  {
    if text == "За сегодня" then Some(Some(1))
    else if text == "За неделю" then Some(Some(7))
    else if text == "За месяц" then Some(Some(30))
    else if text == AllTimeButton then Some(None)
    else None
  }

  /** The row `INSERT INTO operations` writes. */
  datatype Operation = Operation(chatId: ChatId, typeOperation: string, sum: real, date: Date)

  /** What the outside world answers while one message is handled. */
  datatype Env = Env(
    connects: bool,                                    // create_db_connection() succeeds
    userExists: Option<bool>,                          // SELECT 1 FROM users ...; None when it raises
    insertSucceeds: bool,                              // the INSERT does not raise
    today: Date,                                       // datetime.now().date()
    parseDate: string -> Option<Date>,                 // strptime(text, "%d.%m.%Y"); None on ValueError
    parseFloat: string -> Option<real>,                // float(text); None on ValueError
    fetchRate: string -> Option<real>,                 // the rate request; None on any failure
    fetchOperations: Option<nat> -> Option<seq<Row>>)  // the report SELECT for a window; None when it raises

  /** Whether the user is registered; None when the connection or the query fails. */
  function UserCheck(env: Env): Option<bool>
  {
    if env.connects then env.userExists else None
  }

  /** The date typed: the "today" button reads the clock, any other text goes to strptime. */
  function DateOf(text: string, env: Env): (d: Option<Date>)
    ensures text == TodayButton ==> d == Some(env.today)
    ensures text != TodayButton ==> d == env.parseDate(text)
  {
    if text == TodayButton then Some(env.today) else env.parseDate(text)
  }

  /** The messages the bot sends, as tags with the values they report. */
  datatype Reply =
    | Welcome | AlreadyStarted | Failed
    | AlreadyRegistered | AskName | RegistrationCancelled | Registered(chatId: ChatId, name: string)
    | PleaseRegister | AskType | OperationCancelled | ChooseType
    | AskAmount | AmountNotPositive | AmountNotNumeric | AskDate | BadDateFormat
    | OperationSaved(operation: Operation)
    | AskCurrency | ReportCancelled | ChooseCurrency | AskPeriod | ChoosePeriod
    | RateUnavailable | NoOperations | Report(currency: string, summary: Summary)
    | Help | Unknown

  /**
   * The answer to a chosen period (lines 409-486): a failed connection is an
   * error; otherwise a fallback warning when the rate is unavailable, then an
   * error if the query fails, a notice if it finds nothing, an error if the
   * rate is zero, or else the report of the rows in the currency actually used.
   */
  predicate ReportAnswer(replies: seq<Reply>, currency: string, window: Option<nat>, env: Env)
  {
    if !env.connects then replies == [Failed]
    else
      var choice := ReportRate(currency, env.fetchRate);
      var warning := if choice.fellBack then [RateUnavailable] else [];
      && |replies| == |warning| + 1
      && replies[..|warning|] == warning
      && var last := replies[|warning|];
         match env.fetchOperations(window)
         case None => last == Failed
         case Some(rows) =>
           if rows == [] then last == NoOperations
           else if choice.rate == 0.0 then last == Failed
           else last.Report? && last.currency == choice.currency && Describes(last.summary, rows, choice.rate)
  }

  /** The report step of `process_report_period`, which changes no state. */
  method BuildReport(currency: string, window: Option<nat>, env: Env) returns (replies: seq<Reply>)
    ensures ReportAnswer(replies, currency, window, env)
  {
    if !env.connects {
      return [Failed];
    }
    var choice := ReportRate(currency, env.fetchRate);
    var warning := if choice.fellBack then [RateUnavailable] else [];
    match env.fetchOperations(window) {
      case None =>
        replies := warning + [Failed];
      case Some(rows) =>
        if rows == [] {
          replies := warning + [NoOperations];
        } else {
          var summary := Totals(rows, choice.rate);
          match summary {
            case None =>
              replies := warning + [Failed];
            case Some(s) =>
              replies := warning + [Report(choice.currency, s)];
          }
        }
    }
  }

  /**
   * Asked of the rate service, a report in any offered currency is given in
   * that currency, with no warning, and its lines are the stored amounts
   * divided by a positive rate.
   */
  lemma ReportInChosenCurrency(replies: seq<Reply>, currency: string, window: Option<nat>, env: Env)
    requires currency in ReportCurrencies && env.connects && env.fetchRate == ServiceLookup
    requires env.fetchOperations(window).Some? && env.fetchOperations(window).value != []
    requires ReportAnswer(replies, currency, window, env)
    ensures |replies| == 1
    ensures replies[0].Report? && replies[0].currency == currency
    ensures ReportRate(currency, ServiceLookup).rate > 0.0
  {
    ServiceNeverFallsBack(currency);
  }

  /** The data a state relies on is present: the type and a positive amount while a date is awaited, an offered currency while a period is. */
  ghost predicate Coherent(s: Session)
  {
    && (s.state == Some(WaitingForAmount) ==> s.operationType.Some?)
    && (s.state == Some(WaitingForDate) ==> s.operationType.Some? && s.amount.Some? && s.amount.value > 0.0)
    && (s.state == Some(WaitingForPeriod) ==> s.currency.Some? && s.currency.value in ReportCurrencies)
  }

  /** A chat's record in the FSM storage; a chat without an entry has none. */
  function SessionIn(sessions: map<ChatId, Session>, chat: ChatId): Session
  {
    if chat in sessions then sessions[chat] else Cleared
  }

  /**
   * What handling one message from `chat` guarantees, whichever handler takes
   * it, from the storage `before` to the storage `after`.
   */
  ghost predicate Step(before: map<ChatId, Session>, after: map<ChatId, Session>, chat: ChatId, text: string, env: Env, replies: seq<Reply>)
  {
    var was := SessionIn(before, chat).state;
    var now := SessionIn(after, chat);
    // every message is answered, and other chats are untouched
    && replies != []
    && (forall other :: other != chat ==> SessionIn(after, other) == SessionIn(before, other))
    // "Отмена" leaves any dialogue, with nothing kept
    && (text == CancelButton && was.Some? ==> now == Cleared)
    // only a registered user reaches the type state, and only an unregistered one the name state
    && (now.state == Some(WaitingForType) && was != Some(WaitingForType) ==> UserCheck(env) == Some(true))
    && (now.state == Some(WaitingForName) && was != Some(WaitingForName) ==> UserCheck(env) == Some(false))
    // the date and name steps end their dialogue whatever is typed, except a command or the add button
    && (&& was in {Some(WaitingForName), Some(WaitingForDate)}
        && !IsCommand(text, "start") && !IsCommand(text, "register") && text != AddOperationButton
        ==> now == Cleared)
    // what is written to the database comes from a finished dialogue
    && (forall r | r in replies && r.OperationSaved? ::
          && was == Some(WaitingForDate)
          && r.operation.chatId == chat
          && r.operation.sum > 0.0
          && r.operation.typeOperation in ["income", "expense"])
    && (forall r | r in replies && r.Registered? :: was == Some(WaitingForName) && r.chatId == chat)
    // a report is in one of the offered currencies, and its balance is income minus expense
    && (forall r | r in replies && r.Report? ::
          && r.currency in ReportCurrencies
          && r.summary.balance == r.summary.totalIncome - r.summary.totalExpense)
    // the catch-all answers only outside every dialogue, and changes nothing
    && (Unknown in replies ==> was.None? && after == before)
  }

  class Bot {
    /** The FSM storage; a chat without an entry has no state and no data. */
    var sessions: map<ChatId, Session>

    ghost predicate Valid()
      reads this
    {
      forall chat | chat in sessions :: Coherent(sessions[chat])
    }

    function SessionOf(chat: ChatId): Session
      reads this
    {
      SessionIn(sessions, chat)
    }

    constructor ()
      ensures Valid()
      ensures sessions == map[]
    {
      sessions := map[];
    }

    /** `cmd_start`: greets a new user, reminds a registered one; no state changes. */
    method CmdStart(env: Env) returns (replies: seq<Reply>)
      ensures |replies| == 1
      ensures replies == match UserCheck(env)
                         case None => [Failed]
                         case Some(false) => [Welcome]
                         case Some(true) => [AlreadyStarted]
    {
      match UserCheck(env) {
        case None => replies := [Failed];
        case Some(false) => replies := [Welcome];
        case Some(true) => replies := [AlreadyStarted];
      }
    }

    /** `cmd_register`: only an unregistered user enters the name state, keeping stored data. */
    method CmdRegister(chat: ChatId, env: Env) returns (replies: seq<Reply>)
      requires Valid()
      modifies this
      ensures Valid()
      ensures |replies| == 1
      ensures UserCheck(env) == Some(false) ==>
                && replies == [AskName]
                && sessions == old(sessions)[chat := old(SessionOf(chat)).(state := Some(WaitingForName))]
      ensures UserCheck(env) == Some(true) ==> replies == [AlreadyRegistered] && sessions == old(sessions)
      ensures UserCheck(env).None? ==> replies == [Failed] && sessions == old(sessions)
    {
      match UserCheck(env) {
        case None =>
          replies := [Failed];
        case Some(true) =>
          replies := [AlreadyRegistered];
        case Some(false) =>
          sessions := sessions[chat := SessionOf(chat).(state := Some(WaitingForName))];
          replies := [AskName];
      }
    }

    /** `process_registration_name`: registers the stripped text as the name; the record is cleared whatever happens. */
    method ProcessRegistrationName(chat: ChatId, text: string, env: Env) returns (replies: seq<Reply>)
      requires Valid()
      requires SessionOf(chat).state == Some(WaitingForName)
      modifies this
      ensures Valid()
      ensures Step(old(sessions), sessions, chat, text, env, replies)
      ensures sessions == old(sessions)[chat := Cleared]
      ensures text == CancelButton ==> replies == [RegistrationCancelled]
      ensures text != CancelButton ==>
                replies == [if env.connects && env.insertSucceeds then Registered(chat, Text.Strip(text)) else Failed]
    {
      if text == CancelButton {
        replies := [RegistrationCancelled];
      } else if env.connects && env.insertSucceeds {
        replies := [Registered(chat, Text.Strip(text))];
      } else {
        replies := [Failed];
      }
      sessions := sessions[chat := Cleared];
    }

    /** `add_operation_start`: only a registered user enters the type state, keeping stored data. */
    method AddOperationStart(chat: ChatId, env: Env) returns (replies: seq<Reply>)
      requires Valid()
      modifies this
      ensures Valid()
      ensures Step(old(sessions), sessions, chat, AddOperationButton, env, replies)
      ensures UserCheck(env) == Some(true) ==>
                && replies == [AskType]
                && sessions == old(sessions)[chat := old(SessionOf(chat)).(state := Some(WaitingForType))]
      ensures UserCheck(env) == Some(false) ==> replies == [PleaseRegister] && sessions == old(sessions)
      ensures UserCheck(env).None? ==> replies == [Failed] && sessions == old(sessions)
    {
      match UserCheck(env) {
        case None =>
          replies := [Failed];
        case Some(false) =>
          replies := [PleaseRegister];
        case Some(true) =>
          sessions := sessions[chat := SessionOf(chat).(state := Some(WaitingForType))];
          replies := [AskType];
      }
    }

    /** `process_operation_type`: a type button moves on to the amount; other text asks again. */
    method ProcessOperationType(chat: ChatId, text: string, ghost env: Env) returns (replies: seq<Reply>)
      requires Valid()
      requires SessionOf(chat).state == Some(WaitingForType)
      modifies this
      ensures Valid()
      ensures Step(old(sessions), sessions, chat, text, env, replies)
      ensures text == CancelButton ==> replies == [OperationCancelled] && sessions == old(sessions)[chat := Cleared]
      ensures text != CancelButton ==>
                match OperationTypeOf(text)
                case None => replies == [ChooseType] && sessions == old(sessions)
                case Some(t) =>
                  && replies == [AskAmount]
                  && sessions == old(sessions)[chat := old(SessionOf(chat)).(
                       state := Some(WaitingForAmount), operationType := Some(t))]
    {
      if text == CancelButton {
        sessions := sessions[chat := Cleared];
        replies := [OperationCancelled];
      } else {
        match OperationTypeOf(text) {
          case None =>
            replies := [ChooseType];
          case Some(t) =>
            sessions := sessions[chat := SessionOf(chat).(state := Some(WaitingForAmount), operationType := Some(t))];
            replies := [AskAmount];
        }
      }
    }

    /** `process_operation_amount`: a positive amount moves on to the date; a refused one asks again. */
    method ProcessOperationAmount(chat: ChatId, text: string, env: Env) returns (replies: seq<Reply>)
      requires Valid()
      requires SessionOf(chat).state == Some(WaitingForAmount)
      modifies this
      ensures Valid()
      ensures Step(old(sessions), sessions, chat, text, env, replies)
      ensures text == CancelButton ==> replies == [OperationCancelled] && sessions == old(sessions)[chat := Cleared]
      ensures text != CancelButton ==>
                match PositiveNumber(text, env.parseFloat)
                case Failure(NotNumeric) => replies == [AmountNotNumeric] && sessions == old(sessions)
                case Failure(NotPositive) => replies == [AmountNotPositive] && sessions == old(sessions)
                case Success(amount) =>
                  && replies == [AskDate]
                  && sessions == old(sessions)[chat := old(SessionOf(chat)).(
                       state := Some(WaitingForDate), amount := Some(amount))]
    {
      if text == CancelButton {
        sessions := sessions[chat := Cleared];
        replies := [OperationCancelled];
      } else {
        match PositiveNumber(text, env.parseFloat) {
          case Failure(NotNumeric) =>
            replies := [AmountNotNumeric];
          case Failure(NotPositive) =>
            replies := [AmountNotPositive];
          case Success(amount) =>
            sessions := sessions[chat := SessionOf(chat).(state := Some(WaitingForDate), amount := Some(amount))];
            replies := [AskDate];
        }
      }
    }

    /**
     * `process_operation_date`: stores the operation with the type and amount
     * collected before. The record is cleared in every case, a badly formatted
     * date included, so that date cannot be typed again.
     */
    method ProcessOperationDate(chat: ChatId, text: string, env: Env) returns (replies: seq<Reply>)
      requires Valid()
      requires SessionOf(chat).state == Some(WaitingForDate)
      modifies this
      ensures Valid()
      ensures Step(old(sessions), sessions, chat, text, env, replies)
      ensures sessions == old(sessions)[chat := Cleared]
      ensures old(SessionOf(chat)).operationType.Some? && old(SessionOf(chat)).amount.Some?
      ensures text == CancelButton ==> replies == [OperationCancelled]
      ensures text != CancelButton ==>
                match DateOf(text, env)
                case None => replies == [BadDateFormat]
                case Some(date) =>
                  var s := old(SessionOf(chat));
                  var operation := Operation(chat, StoredType(s.operationType.value), s.amount.value, date);
                  replies == [if env.connects && env.insertSucceeds then OperationSaved(operation) else Failed]
    {
      var s := SessionOf(chat);
      if text == CancelButton {
        replies := [OperationCancelled];
      } else {
        match DateOf(text, env) {
          case None =>
            replies := [BadDateFormat];
          case Some(date) =>
            if env.connects && env.insertSucceeds {
              replies := [OperationSaved(Operation(chat, StoredType(s.operationType.value), s.amount.value, date))];
            } else {
              replies := [Failed];
            }
        }
      }
      sessions := sessions[chat := Cleared];
    }

    /** `reports_menu`: enters the currency state with no registration check, keeping stored data. */
    method ReportsMenu(chat: ChatId) returns (replies: seq<Reply>)
      requires Valid()
      modifies this
      ensures Valid()
      ensures replies == [AskCurrency]
      ensures sessions == old(sessions)[chat := old(SessionOf(chat)).(state := Some(WaitingForCurrency))]
    {
      sessions := sessions[chat := SessionOf(chat).(state := Some(WaitingForCurrency))];
      replies := [AskCurrency];
    }

    /** `process_report_currency`: an offered currency moves on to the period; other text asks again. */
    method ProcessReportCurrency(chat: ChatId, text: string, ghost env: Env) returns (replies: seq<Reply>)
      requires Valid()
      requires SessionOf(chat).state == Some(WaitingForCurrency)
      modifies this
      ensures Valid()
      ensures Step(old(sessions), sessions, chat, text, env, replies)
      ensures text == CancelButton ==> replies == [ReportCancelled] && sessions == old(sessions)[chat := Cleared]
      ensures text != CancelButton && text !in ReportCurrencies ==> replies == [ChooseCurrency] && sessions == old(sessions)
      ensures text in ReportCurrencies ==>
                && replies == [AskPeriod]
                && sessions == old(sessions)[chat := old(SessionOf(chat)).(
                     state := Some(WaitingForPeriod), currency := Some(text))]
    {
      if text == CancelButton {
        sessions := sessions[chat := Cleared];
        replies := [ReportCancelled];
      } else if text !in ReportCurrencies {
        replies := [ChooseCurrency];
      } else {
        sessions := sessions[chat := SessionOf(chat).(state := Some(WaitingForPeriod), currency := Some(text))];
        replies := [AskPeriod];
      }
    }

    /** `process_report_period`: a period button produces the report and clears the record; other text asks again. */
    method ProcessReportPeriod(chat: ChatId, text: string, env: Env) returns (replies: seq<Reply>)
      requires Valid()
      requires SessionOf(chat).state == Some(WaitingForPeriod)
      modifies this
      ensures Valid()
      ensures Step(old(sessions), sessions, chat, text, env, replies)
      ensures old(SessionOf(chat)).currency.Some? && old(SessionOf(chat)).currency.value in ReportCurrencies
      ensures text == CancelButton ==> replies == [ReportCancelled] && sessions == old(sessions)[chat := Cleared]
      ensures text != CancelButton ==>
                match PeriodWindow(text)
                case None => replies == [ChoosePeriod] && sessions == old(sessions)
                case Some(window) =>
                  && ReportAnswer(replies, old(SessionOf(chat)).currency.value, window, env)
                  && sessions == old(sessions)[chat := Cleared]
    {
      if text == CancelButton {
        sessions := sessions[chat := Cleared];
        replies := [ReportCancelled];
      } else {
        match PeriodWindow(text) {
          case None =>
            replies := [ChoosePeriod];
          case Some(window) =>
            var currency := SessionOf(chat).currency.value;
            replies := BuildReport(currency, window, env);
            sessions := sessions[chat := Cleared];
            ReportsUseOfferedCurrency(replies, currency, text, env);
        }
      }
    }
    /**
     * One incoming message, routed to the first handler whose filter accepts it,
     * in the order the handlers are registered (lines 151-513): `/start` and
     * `/register` in any state, the name state, the add-operation button, the
     * three add-operation states, the reports button, the two report states,
     * and, with no state, the help button or the catch-all.
     */
    method Dispatch(chat: ChatId, text: string, env: Env) returns (replies: seq<Reply>)
      requires Valid()
      modifies this
      ensures Valid()
      ensures Step(old(sessions), sessions, chat, text, env, replies)
    {
      var state := SessionOf(chat).state;
      if IsCommand(text, "start") {
        replies := OnStart(chat, text, env);
      } else if IsCommand(text, "register") {
        replies := OnRegister(chat, text, env);
      } else if state == Some(WaitingForName) {
        replies := ProcessRegistrationName(chat, text, env);
      } else if text == AddOperationButton {
        replies := AddOperationStart(chat, env);
      } else if state == Some(WaitingForType) {
        replies := ProcessOperationType(chat, text, env);
      } else if state == Some(WaitingForAmount) {
        replies := ProcessOperationAmount(chat, text, env);
      } else if state == Some(WaitingForDate) {
        replies := ProcessOperationDate(chat, text, env);
      } else if text == ReportsButton {
        replies := OnReportsButton(chat, env);
      } else {
        match state {
          case Some(WaitingForCurrency) =>
            replies := ProcessReportCurrency(chat, text, env);
          case Some(WaitingForPeriod) =>
            replies := ProcessReportPeriod(chat, text, env);
          case None =>
            replies := OnOtherText(chat, text, env);
        }
      }
    }

    /** `/start`, accepted in every state. */
    method OnStart(chat: ChatId, text: string, env: Env) returns (replies: seq<Reply>)
      requires IsCommand(text, "start")
      ensures Step(sessions, sessions, chat, text, env, replies)
    {
      CancelIsPlainText();
      replies := CmdStart(env);
      assert text != CancelButton;
      assert forall r | r in replies :: r in [Failed, Welcome, AlreadyStarted];
    }

    /** `/register`, accepted in every state. */
    method OnRegister(chat: ChatId, text: string, env: Env) returns (replies: seq<Reply>)
      requires Valid()
      requires IsCommand(text, "register")
      modifies this
      ensures Valid()
      ensures Step(old(sessions), sessions, chat, text, env, replies)
    {
      CancelIsPlainText();
      replies := CmdRegister(chat, env);
      RegisterStep(old(sessions), sessions, chat, text, env, replies);
    }

    /** The reports button, once no add-operation or registration state has taken the message. */
    method OnReportsButton(chat: ChatId, ghost env: Env) returns (replies: seq<Reply>)
      requires Valid()
      requires SessionOf(chat).state !in {Some(WaitingForName), Some(WaitingForDate)}
      modifies this
      ensures Valid()
      ensures Step(old(sessions), sessions, chat, ReportsButton, env, replies)
    {
      CancelIsPlainText();
      replies := ReportsMenu(chat);
    }

    /** `show_help` and `handle_unknown_message`, reached only with no state. */
    method OnOtherText(chat: ChatId, text: string, ghost env: Env) returns (replies: seq<Reply>)
      requires SessionOf(chat).state.None?
      ensures Step(sessions, sessions, chat, text, env, replies)
      ensures replies == if text == HelpButton then [Help] else [Unknown]
    {
      replies := if text == HelpButton then [Help] else [Unknown];
    }
  }

  /** "Отмена" is neither a command nor a menu button, so it reaches the dialogue handlers. */
  lemma CancelIsPlainText()
    ensures !IsCommand(CancelButton, "start") && !IsCommand(CancelButton, "register")
    ensures CancelButton != AddOperationButton && CancelButton != ReportsButton
  {
    WordThenWhitespace(CancelButton, []);
    assert CancelButton + [] == CancelButton;
  }

  /** A report reply of the period step is in an offered currency and balances. */
  lemma ReportsUseOfferedCurrency(replies: seq<Reply>, currency: string, text: string, env: Env)
    requires currency in ReportCurrencies
    requires text != CancelButton ==>
               match PeriodWindow(text)
               case None => replies == [ChoosePeriod]
               case Some(window) => ReportAnswer(replies, currency, window, env)
    requires text == CancelButton ==> replies == [ReportCancelled]
    ensures replies != []
    ensures forall r | r in replies && r.Report? ::
              && r.currency in ReportCurrencies
              && r.summary.balance == r.summary.totalIncome - r.summary.totalExpense
    ensures Unknown !in replies
  {
    if text != CancelButton && PeriodWindow(text).Some? && env.connects {
      var choice := ReportRate(currency, env.fetchRate);
      var warning := if choice.fellBack then [RateUnavailable] else [];
      assert replies == warning + [replies[|warning|]];
    }
  }
  /** The storage change of `/register` is a `Step`. */
  lemma RegisterStep(before: map<ChatId, Session>, after: map<ChatId, Session>, chat: ChatId, text: string, env: Env, replies: seq<Reply>)
    requires text != CancelButton && IsCommand(text, "register")
    requires UserCheck(env) == Some(false) ==>
               replies == [AskName] && after == before[chat := SessionIn(before, chat).(state := Some(WaitingForName))]
    requires UserCheck(env) == Some(true) ==> replies == [AlreadyRegistered] && after == before
    requires UserCheck(env).None? ==> replies == [Failed] && after == before
    ensures Step(before, after, chat, text, env, replies)
  {
    match UserCheck(env)
    case None =>
    case Some(true) =>
    case Some(false) =>
      assert forall other :: other != chat ==> SessionIn(after, other) == SessionIn(before, other);
  }
  /** An expense of 1500,50 typed with a comma and recorded with the "today" button. */
  method RecordExpense() returns (replies: seq<Reply>)
    ensures replies == [OperationSaved(Operation(7, "expense", 1500.50, Date(1, 6, 2025)))]
  {
    var today := Date(1, 6, 2025);
    var env := Env(
      true, Some(true), true, today,
      (text: string) => None,
      (text: string) => if text == "1500.50" then Some(1500.50) else None,
      (code: string) => None,
      (window: Option<nat>) => None);
    var bot := new Bot();
    replies := bot.AddOperationStart(7, env);
    assert replies == [AskType];
    replies := bot.ProcessOperationType(7, ExpenseButton, env);
    assert replies == [AskAmount];
    assert Text.ReplaceChar("1500,50", ',', '.') == "1500.50";
    replies := bot.ProcessOperationAmount(7, "1500,50", env);
    assert replies == [AskDate];
    replies := bot.ProcessOperationDate(7, TodayButton, env);
    assert replies == [OperationSaved(Operation(7, "expense", 1500.50, today))];
    assert bot.SessionOf(7) == Cleared;
  }

  /** The all-time report in roubles of that one expense: no income, a balance of -1500.50. */
  method ReportOneExpense() returns (replies: seq<Reply>)
    ensures replies == [Report("RUB", Summary(0.0, 1500.50, -1500.50, [Line(false, Date(1, 6, 2025), 1500.50)]))]
  {
    var today := Date(1, 6, 2025);
    var expense := Row("expense", 1500.50, today);
    var env := Env(
      true, Some(true), true, today,
      (text: string) => None,
      (text: string) => None,
      (code: string) => None,
      (window: Option<nat>) => if window.None? then Some([expense]) else Some([]));
    var bot := new Bot();
    replies := bot.ReportsMenu(7);
    replies := bot.ProcessReportCurrency(7, "RUB", env);
    assert replies == [AskPeriod];
    replies := bot.ProcessReportPeriod(7, AllTimeButton, env);
    SingleExpenseBalance(today);
    assert ReportRate("RUB", env.fetchRate) == RateChoice("RUB", 1.0, false);
    assert env.fetchOperations(None) == Some([expense]);
    var summary := replies[0].summary;
    assert Describes(summary, [expense], 1.0);
    assert summary.lines == [Line(false, today, 1500.50)];
    assert replies == [Report("RUB", Summary(0.0, 1500.50, -1500.50, [Line(false, today, 1500.50)]))];
    assert bot.SessionOf(7) == Cleared;
  }
}
