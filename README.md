# Coursework programs, modelled in Dafny

This project models the parts of a set of Python coursework programs that have
logic worth stating and proving:

- **Triangle classifier** (lab7): `get_triangle_type` rejects non-positive sides
  and sides that break the strict triangle inequality. Otherwise it names the
  triangle equilateral, isosceles or nonequilateral.
- **Number line** (lab2, task 1): a line is cut at spaces into tokens, each token
  is read with `int()`, and the numbers are summed and counted. Both loops are
  kept as loops.
- **Letter swap** (lab2, task 2): `a` becomes `o` and `A` becomes `O`. The
  script also reports a replacement count and the length.
- **Array analysis** (lab2, task 3): checks the command-line arguments, finds the
  maximum and its first index, and lists the odd elements in descending order.
- **Rate service** (RGZ): a `/rate` endpoint answers from a fixed table, after
  upper-casing the code.
- **Currency bot** (lab4): a chat bot that stores rates in a process-wide map
  and converts amounts. Two dialogues run on a per-chat state machine.
- **Finance bot** (RGZ): a chat bot with three dialogues (registration, adding
  an operation, a report), and a report loop that converts and totals
  operations.

Both bots are classes. Their fields are the maps the source mutates in place.
Each handler is a method whose contract gives the exact new state and reply.
`Dispatch` routes one message the way the framework does: handlers are tried in
registration order and the first whose filter matches wins. A handler without a
state filter matches in every state.

The outside world becomes values passed in with each message:

- the database (whether the user exists, whether an insert succeeds, the rows
  of a report query);
- the rate request;
- the clock;
- Python's `float()` and `strptime`.

Amounts and rates are `real`. Integers are unbounded; the digit limit on `int()` and `str()` is listed under "Left out".

Modules, one per file:

- `Wrappers`: `Option` and `Result`.
- `Text`: the `str` methods the programs use.
- `IntParse`: `int()` and `str()` on integers.
- `Triangle`, `Tokenizer`, `LetterSwap`, `ArrayStats`: the lab programs.
- `RateService`: the rate endpoint.
- `Chat`: the command filter and the number check, shared by both bots.
- `CurrencyBot`: the lab4 bot.
- `FinanceReport`: the report loop and the choice of rate.
- `FinanceBot`: the RGZ dialogues.

A malformed date does not re-prompt. The `finally` clause
(RGZ/bot_RGZ.py:349-352) runs after `except ValueError: ... return`, so the
dialogue is cleared even then (`FinanceBot.Bot.ProcessOperationDate`).

## Model

| member | source | states |
|---|---|---|
| Text.Upper | lab4/Bot.py:78 | `str.upper()` keeps the length; each character is upper-cased on its own, and a-z map into A-Z |
| Text.UpperIdempotent | lab4/Bot.py:119 | upper-casing an already upper-cased code changes nothing, so a saved name is found by the upper-cased lookup |
| Text.UpperOfUpper | RGZ/currency_service.py:28 | a code with no lower-case letter is its own upper case |
| Text.ReplaceChar | lab4/Bot.py:88 | `replace(',', '.')` keeps the length and changes exactly the commas, position by position |
| Text.Count | lab2/task_2.py:5 | `count` is at most the length, and zero exactly when the character is absent |
| Text.CountAppend | lab2/task_2.py:5 | the count over a concatenation is the sum of the two counts |
| Text.Strip | lab2/task_1.py:38 | `strip()` is a slice of the input with only whitespace removed at each end; the result neither starts nor ends with whitespace; it is empty exactly when the input is all whitespace |
| Text.StripUnchanged | lab2/task_1.py:38 | stripping a string with no whitespace at either end returns it unchanged |
| IntParse.ParseInt | lab2/task_1.py:45 | `int(text)` succeeds only on a text whose stripped form is non-empty and ends in a digit, and a negative result comes only from a leading minus sign |
| IntParse.ParseShow | lab2/task_1.py:45 | `int(str(n)) == n` for every integer, negative ones included, apart from the digit limit listed under "Left out" |
| IntParse.ParseAll | lab2/task_3.py:11 | `list(map(int, args))` gives one value per argument when it succeeds |
| IntParse.ParseAllSpec | lab2/task_3.py:11 | `list(map(int, args))` fails exactly when some argument fails; otherwise it gives each argument's value at its own position |
| IntParse.ParseAllAppend | lab2/task_3.py:11 | parsing a concatenation succeeds exactly when both parts succeed, and the results concatenate in order |
| Triangle.GetTriangleType | lab7/triangle_func.py:4-15 | a non-positive side gives the first error; otherwise a broken strict inequality gives the second error; a label is returned exactly on valid sides; equilateral, isosceles and nonequilateral each hold exactly under their side conditions |
| Triangle.ClassifiesByDistinctSides | lab7/triangle_func.py:10-15 | on valid sides the label agrees with an independent definition by the number of distinct side lengths (1, 2 or 3) |
| Triangle.PermutationInvariant | lab7/triangle_func.py:5-15 | the outcome, label or error, is the same for all six orders of the arguments |
| Triangle.UnitTestCases | lab7/test_func.py:5-26 | every case of the unit tests: (5,5,5), the three isosceles orders, (3,4,5), and the errors for (-1,2,3), (0,0,0) and (1,2,3) |
| Tokenizer.Tokens | lab2/task_1.py:42-50 | the tokens are non-empty and contain no space |
| Tokenizer.WordThenSpace | lab2/task_1.py:49-50 | a word followed by a space or by the end of the line is the next token, so a last word with no space after it is still taken |
| Tokenizer.SpaceStep | lab2/task_1.py:43-46 | at a space, the pending word is emitted only when non-empty and the space is skipped, so repeated spaces give no empty token |
| Tokenizer.AppendNumber | lab2/task_1.py:44-46 | appending `int(word)` extends the parsed list exactly as parsing the longer token list would; a word `int()` rejects fails every continuation |
| Tokenizer.CloseWord | lab2/task_1.py:43-46 | at a space the parsed list grows by the pending word exactly when it is non-empty, and the tokens still to come are those after the space; a word `int()` rejects fails the whole line |
| Tokenizer.FinishLine | lab2/task_1.py:49-50 | the word pending at the end of the line is parsed and appended when non-empty, completing the parse of all tokens |
| Tokenizer.SplitNumbers | lab2/task_1.py:40-50 | the character loop returns exactly `int()` of each maximal run of non-space characters, in order, or fails when one of them does not parse |
| Tokenizer.SumAppend | lab2/task_1.py:57 | the sum of a concatenation is the sum of the sums, the step the sum loop relies on |
| Tokenizer.SumAndCount | lab2/task_1.py:52-59 | the loop ends with the sum of all the numbers and their count |
| Tokenizer.Run | lab2/task_1.py:38-62 | the script fails exactly when a token does not parse; otherwise it reports the sum and count of the tokens of the stripped line |
| Tokenizer.NoTokensIffBlank | lab2/task_1.py:40-50 | no token is produced exactly when the line holds only spaces |
| Tokenizer.BlankLineTotals | lab2/task_1.py:40-62 | a line of spaces parses without error into a list whose sum is 0 and whose count is 0 |
| Tokenizer.SplitJoin | lab2/task_1.py:42-50 | splitting the single-space join of non-empty, space-free words gives the words back in order |
| Tokenizer.TokensKeepCharacters | lab2/task_1.py:42-48 | the tokens, concatenated, are the line without its spaces: no character is lost or added |
| LetterSwap.Modified | lab2/task_2.py:6 | the replaced line has the same length; at each position only 'a'→'o' and 'A'→'O' change; it contains no 'a' and no 'A' |
| LetterSwap.ModifiedIdempotent | lab2/task_2.py:6 | replacing a second time changes nothing |
| LetterSwap.ChangedPositions | lab2/task_2.py:5-6 | the replacement changes exactly as many positions as there are 'a' and 'A' characters |
| LetterSwap.Summary | lab2/task_2.py:5-12 | as written: the printed count is the number of lower-case 'a' only, which falls short of the replaced characters by exactly the number of 'A'; the reported length is the input length and the line is the replaced line |
| LetterSwap.SummaryMissesUpperCase | lab2/task_2.py:5-9 | on "A" one character is replaced but the count printed is 0 |
| LetterSwap.CorrectedSummary | lab2/task_2.py:9 | the count the message promises: the number of replaced characters, 'a' and 'A' alike |
| LetterSwap.SummariesAgreeWithoutUpperA | lab2/task_2.py:5-9 | the printed count and the promised count agree exactly on lines without 'A' |
| ArrayStats.Max | lab2/task_3.py:21 | `max` is an element and no element exceeds it |
| ArrayStats.IndexOf | lab2/task_3.py:22 | `index` returns a position of the value, and no earlier position holds it |
| ArrayStats.Odds | lab2/task_3.py:27 | the filter keeps only odd elements and is no longer than the input |
| ArrayStats.OddsAppend | lab2/task_3.py:27 | the filter keeps the original order: it distributes over concatenation |
| ArrayStats.OddsMultiplicity | lab2/task_3.py:27 | every odd value is kept as often as it occurs, and no even value is kept |
| ArrayStats.NoOddsIffAllEven | lab2/task_3.py:29-30 | the "no odd numbers" branch is taken exactly when every element is even |
| ArrayStats.SortDescending | lab2/task_3.py:32 | the sorted list is non-increasing and a permutation of its input |
| ArrayStats.NonIncreasingPermutationUnique | lab2/task_3.py:32 | two non-increasing permutations of each other are equal, so the sort result is fully determined |
| ArrayStats.Analyse | lab2/task_3.py:5-33 | no arguments is the first error, a non-integer argument the second; the empty-array error is never reached; on success the maximum, its first index, the no-odd branch exactly when all elements are even, and the odd elements sorted non-increasingly as a permutation |
| ArrayStats.AnalyseSortsOdds | lab2/task_3.py:32 | the listed odd numbers equal every non-increasing ordering of the odd elements, i.e. `sorted(odd_numbers, reverse=True)` |
| RateService.GetExchangeRate | RGZ/currency_service.py:26-45 | the status is 200 or 400; an empty or absent code gives "Currency parameter is required" with 400; a code not in the table gives "UNKNOWN CURRENCY" with 400; status 200 exactly for a table code, whose rate is answered with the upper-cased code |
| RateService.CaseInsensitive | RGZ/currency_service.py:28 | a code and its upper case get the same response |
| RateService.OkOnlyForTable | RGZ/currency_service.py:18-36 | status 200 exactly when the upper-cased code is USD, EUR or CNY |
| RateService.RoubleUnknown | RGZ/currency_service.py:34-36 | "RUB" is an unknown currency (400); "usd" gets USD at 90.5 |
| Chat.IsCommand | lab4/Bot.py:45 | the `Command(name)` filter matches only a text whose first word, after leading whitespace, starts with `/name` and ends right after it |
| Chat.CommandWithArguments | lab4/Bot.py:45 | the command filter accepts `/name` alone and followed by arguments |
| Chat.PositiveNumber | lab4/Bot.py:88-92 | after comma→dot, unparseable text is the "not a number" outcome, a value ≤ 0 the "not positive" outcome, and otherwise the parsed value, which is positive |
| Chat.CommaReadsAsDot | RGZ/bot_RGZ.py:288 | an amount typed with a decimal comma reads as with a dot |
| CurrencyBot.Bot.constructor | lab4/Bot.py:34 | the store starts empty, with no dialogue in progress |
| CurrencyBot.Bot.CmdStart | lab4/Bot.py:45-53 | `/start` answers with the menu |
| CurrencyBot.Bot.CmdListCurrencies | lab4/Bot.py:56-66 | an empty store gives the notice, otherwise the whole map |
| CurrencyBot.Bot.CmdSaveCurrency | lab4/Bot.py:69-73 | enters the name state from any state, keeping the stored data |
| CurrencyBot.Bot.ProcessCurrencyName | lab4/Bot.py:76-82 | stores the upper-cased text as the name and moves to the rate state |
| CurrencyBot.Bot.ProcessCurrencyRate | lab4/Bot.py:85-103 | a non-number or a rate ≤ 0 leaves the store and the state unchanged; a positive rate is stored under the saved name, replacing any earlier rate and no other key, and the chat's record is cleared |
| CurrencyBot.Bot.CmdConvert | lab4/Bot.py:106-114 | with an empty store the dialogue is not entered |
| CurrencyBot.Bot.ProcessConvertCurrency | lab4/Bot.py:117-129 | an unknown upper-cased code clears the record instead of asking again; a known one moves to the amount state |
| CurrencyBot.Bot.ProcessConvertAmount | lab4/Bot.py:132-151 | a refused amount keeps the state; a positive amount gives `amount * rate` with the stored rate, which is positive, and clears the record; the stored currency is always still in the store |
| CurrencyBot.Bot.Dispatch | lab4/Bot.py:45-151 | in registration order: every rate stays positive and every record keeps its data; keys are never removed; the store changes only by a successful save; other chats are untouched; no handler answers exactly when the text is not a command and the chat has no state |
| CurrencyBot.SaveThenConvert | lab4/Bot.py:69-151 | saving "usd" at "90,5" and converting 2 gives 181 roubles |
| FinanceReport.TotalsAppend | RGZ/bot_RGZ.py:457-463 | one more row adds its converted amount to the income total if its type is 'income', and to the expense total otherwise |
| FinanceReport.Totals | RGZ/bot_RGZ.py:453-473 | the loop fails (division by zero) exactly when there are rows and the rate is 0; otherwise the totals are the converted income and expense sums, the balance is their difference, and there is one line per row, in order, with the amount divided by the rate |
| FinanceReport.TotalsConvertStoredTotal | RGZ/bot_RGZ.py:457-458 | converting each amount and adding equals adding in roubles and converting once |
| FinanceReport.BaseCurrencyIdentity | RGZ/bot_RGZ.py:417 | at rate 1 every line shows the stored amount and the totals add up to the stored total |
| FinanceReport.SingleExpenseBalance | RGZ/bot_RGZ.py:457-470 | one expense of 1500.50 in roubles: no income, an expense total of 1500.50, one down line, balance -1500.50 |
| FinanceReport.ExchangeRate | RGZ/bot_RGZ.py:84-103 | the rouble gets rate 1.0 with no request; any other currency gets what the request answers, None on any failure |
| FinanceReport.ServiceLookup | RGZ/bot_RGZ.py:88-103 | against the rate service, the request succeeds exactly for a table currency in any letter case, with the table's positive rate |
| FinanceReport.ExchangeRateFromService | RGZ/bot_RGZ.py:84-103 | against the rate service, a rate is known exactly for the rouble and the table currencies, and it is positive |
| FinanceReport.ReportRate | RGZ/bot_RGZ.py:416-426 | the rouble uses rate 1 with no request; a failed lookup falls back to the rouble at rate 1, and only then; otherwise the chosen currency is kept with the rate looked up |
| FinanceReport.ServiceNeverFallsBack | RGZ/bot_RGZ.py:84-99 | against the rate service, none of the four offered currencies falls back and every rate is positive; the rouble owes this to the shortcut, since the service itself does not know "RUB" |
| FinanceBot.DateOf | RGZ/bot_RGZ.py:321-324 | the "today" button reads the clock and cannot fail; any other text goes to `strptime` |
| FinanceBot.OperationTypeOf | RGZ/bot_RGZ.py:269-273 | only the two type buttons are accepted, as income and expense respectively |
| FinanceBot.PeriodWindow | RGZ/bot_RGZ.py:397-407 | only the four period buttons are accepted: 1, 7 and 30 days, and all time |
| FinanceBot.BuildReport | RGZ/bot_RGZ.py:409-486 | a failed connection is an error; otherwise a fallback warning exactly when the rate fell back, then an error if the query fails, a notice if it finds nothing, an error at rate 0, or the report of the rows in the currency actually used |
| FinanceBot.ReportInChosenCurrency | RGZ/bot_RGZ.py:416-426 | with the rate service, a report in any offered currency is given in that currency, with no warning, at a positive rate |
| FinanceBot.Bot.constructor | RGZ/bot_RGZ.py:43 | the FSM storage starts empty |
| FinanceBot.Bot.CmdStart | RGZ/bot_RGZ.py:151-177 | a failed check is an error, a new user is greeted, a registered one reminded; no state changes |
| FinanceBot.Bot.CmdRegister | RGZ/bot_RGZ.py:180-204 | only a user the database does not know enters the name state; otherwise nothing changes |
| FinanceBot.Bot.ProcessRegistrationName | RGZ/bot_RGZ.py:207-232 | cancel, success or failure, the record is cleared; the name registered is the stripped text |
| FinanceBot.Bot.AddOperationStart | RGZ/bot_RGZ.py:235-259 | only a registered user enters the type state; otherwise nothing changes |
| FinanceBot.Bot.ProcessOperationType | RGZ/bot_RGZ.py:262-278 | cancel clears; a type button stores income or expense and moves to the amount; other text changes nothing |
| FinanceBot.Bot.ProcessOperationAmount | RGZ/bot_RGZ.py:281-307 | cancel clears; a non-number or an amount ≤ 0 changes nothing; a positive amount is stored and the date is asked |
| FinanceBot.Bot.ProcessOperationDate | RGZ/bot_RGZ.py:310-352 | the record is cleared in every case, a malformed date included; a good date saves the collected type and amount with that date for this chat, or reports the failure |
| FinanceBot.Bot.ReportsMenu | RGZ/bot_RGZ.py:355-361 | enters the currency state with no registration check, keeping the stored data |
| FinanceBot.Bot.ProcessReportCurrency | RGZ/bot_RGZ.py:364-387 | cancel clears; RUB, USD, EUR or CNY is stored and moves to the period; other text changes nothing |
| FinanceBot.Bot.ProcessReportPeriod | RGZ/bot_RGZ.py:390-485 | cancel clears; text that is not a period changes nothing; a period gives the report answer for the stored currency, which is one of the four, and clears the record |
| FinanceBot.Bot.Dispatch | RGZ/bot_RGZ.py:151-513 | every message is answered and other chats are untouched; "Отмена" clears any dialogue; only a registered user reaches the type state and only an unknown one the name state; the name and date steps always end their dialogue; a saved operation comes from the date step, for this chat, with a positive amount and type income or expense; a report is in an offered currency and its balance is income minus expense; the catch-all answers only outside every dialogue and changes nothing |
| FinanceBot.Bot.OnOtherText | RGZ/bot_RGZ.py:488-513 | with no state, the help button gets help and any other text the catch-all answer |
| FinanceBot.RecordExpense | RGZ/bot_RGZ.py:235-352 | an expense of "1500,50" recorded with the "today" button is saved as expense 1500.50 at today's date |
| FinanceBot.ReportOneExpense | RGZ/bot_RGZ.py:355-486 | the all-time rouble report of that one expense has no income, expense 1500.50 and balance -1500.50 |

## Left out

- Text.Upper: upper-cases only ASCII a-z and U+0430-U+045F; accented Latin letters such as "é", which Python upper-cases, are left unchanged. Other scripts, and special cases such as "ß" becoming "SS", are not modelled.
- IntParse.ParseInt: the non-ASCII decimal digits that Python's `int()` also accepts are not modelled.
- IntParse.ParseInt: CPython's limit of 4300 digits for decimal conversion is not modelled. A longer token makes `int()` raise ValueError (and `str()` raise on such an integer), where the model parses it.
- IntParse.ParseShow: holds without CPython's 4300-digit conversion limit; beyond it `str(n)` raises.
- Triangle.GetTriangleType: exact for integer sides. IEEE rounding of float sides is not modelled: for (0.1, 0.2, 0.3) Python's `0.1 + 0.2` exceeds `0.3`, so Python labels the sides while the model reports the broken inequality.
- Chat.IsCommand: the `/command@botname` form is not recognised.
- Floating point: amounts and rates are exact reals. IEEE rounding, infinities and NaN are not modelled; note that "nan" passes the `<= 0` checks in both bots. `float()` and `strptime` are supplied as parsers that either give a value or fail.
- Reply texts, keyboards, the HTML help text, `:.2f` and `strftime` formatting, and logging are not modelled. A reply is a tag carrying the values it reports.
- The database is supplied with each message:
  - whether the connection succeeds;
  - whether the user exists;
  - whether an insert succeeds;
  - the rows of the report query.
  The SQL itself is not modelled, nor the `NOW() - interval` window, the date ordering or `init_db`. An insert appears as the `Registered` or `OperationSaved` reply that carries the row written.
- The rate request's HTTP call and its timeout are a supplied lookup. `FinanceReport.ServiceLookup` connects it to the rate service model.
- The clock (`datetime.now()`) is a supplied date. The success body's timestamp in the rate service is not modelled.
- RateService.GetExchangeRate: the 500 branch is not modelled, because the table lookup it guards follows a membership test and cannot raise.
- Non-text messages (a `None` text) are not modelled; every message is a string.
- Chats and users: aiogram keys each FSM record by chat and user, and the finance bot stores `message.from_user.id`. The model uses one id for both, which is exact only in private chats.
- Concurrency between chats is not modelled. Each message is handled as one atomic step, which matches one-at-a-time processing per chat.
- stdin, `sys.argv`, `print` and `sys.exit` in the lab2 scripts are parameters and results. `int()` raising ValueError is a `None` result rather than a traceback.
- lab3 (random values; an HTTP client with `eval`) and lab7/test_class.py (its class's source is absent) are not part of this model.
- CurrencyBot.Bot.Dispatch: states the guarantees common to all handlers, not which handler ran; each handler's exact transition is its own contract.
- FinanceBot.Bot.Dispatch: states the dialogue-wide guarantees listed above rather than each handler's exact reply; each handler's exact transition is its own contract.

## Findings

| source | as written | input that shows it | evidently intended | confidence | as-written member | corrected member |
|---|---|---|---|---|---|---|
| lab2/task_2.py:5-9 | `count_replace` counts only lower-case 'a', though both 'a' and 'A' are replaced and the message reports replacements of "a(A)" | the line "A": one character is replaced, the count printed is 0 | count every replaced character, 'a' and 'A' | medium, not executed | LetterSwap.SummaryMissesUpperCase | LetterSwap.CorrectedSummary |
