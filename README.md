# k9LogBot ledger core, modelled in Dafny

k9LogBot is a Telegram bot that keeps the books between a dog owner and a dog walker.
Every walk earns 75 MDL. Payments and credit given lower what is owed. An initial-balance
entry resets the amount owed. A small OLED panel shows the figures.

This project models the bot's core:

- the ledger store;
- the admin range cleanup;
- the conversation handlers, as state transitions;
- the statistics snapshot;
- the display helpers.

It proves what each promises.

## Modules

| file | module | models |
|---|---|---|
| `wrappers.dfy` | `Wrappers` | `Option` and `Result` |
| `calendar.dfy` | `Calendar` | dates, day arithmetic for the one-week window, and the zero-padded `YYYY-MM-DD` text |
| `text.dfy` | `Text` | Python's `str.split()` and `str.strip()` with no arguments, and the texts the word wrap builds |
| `ledger.dfy` | `Ledger` | `database.py` |
| `report_cleanup.dfy` | `ReportCleanup` | `report_cleanup.py` |
| `stats.dfy` | `BotStats` | `BotStatsManager` of `main.py` |
| `bot_logic.dfy` | `BotLogic` | the handlers of `bot_logic.py` |
| `oled_display.dfy` | `OledDisplay` | the helpers of `OLEDDisplayManager` in `oled_display.py` |

### Ledger store

`Ledger.Store` is a class with three fields:

- `log`: the `transactions` table, in insertion order;
- `balanceRow`: the `balance` row with id 1. It is `None` until `init_db` has created it;
- `nextId`: the AUTOINCREMENT counter.

Each of the four mutators is one method. Each appends exactly one row and updates the
cell the way its `UPDATE` does. The fold `Replay` runs over the log: an initial-balance
entry sets the balance to its amount, and every other entry adds its stored amount.

`Store.InSync()` says the cell equals this fold. The store starts unsynchronised. It
becomes synchronised once `InitDb` creates the 0.0 row on an empty ledger. Every mutator
preserves it.

Walks, payments and credit given are stored with signed amounts. An initial-balance entry
stores the target value.

### Dates

A timestamp is a date plus the microseconds since midnight. `date(timestamp)` compares
zero-padded `YYYY-MM-DD` texts, and `Calendar.IsoDateOrder` proves that this text
comparison is the same as comparing the dates. The SQL filters can therefore compare dates
directly.

`ORDER BY timestamp` is an insertion sort on date and time of day (`Ledger.SortByTime`).
Entries with equal timestamps keep an order the model does not fix.

### Inputs without a model of their own

The clock, "today" and the uptime are parameters. So are three other inputs:

- `dbError`: failure of a SQLite statement in the cleanup module. A missing table and an
  I/O error are examples;
- `storeFails`: failure of a mutator inside a handler's `except Exception` branch;
- `float(text)`: an `Option<real>`, which is `None` when Python raises `ValueError`.

`is_admin` is imported from `config` but not defined there. It is modelled as membership
of an allow-list `admins`.

### The cleanup workflow

The cleanup is one admin button that arms a flag, then one message holding two dates,
then one `DELETE` (bot_logic.py, report_cleanup.py:22-63). There are no presets, no
deletion by id and no confirm step.

### Behaviour the model makes explicit

- `receive_initial_balance` never reads `await_initial_balance`.
  - It fires on any text matching `^\d+(\.\d+)?$`. Such a text is always digits, with
    perhaps a dot and more digits.
  - So any bare non-negative number that no conversation claims resets the balance
    (`BotLogic.ReceiveInitialBalance`).
- The detailed report's "payments/credits" total looks for the kinds `'credit'` and
  `'payment'`. The ledger writes `'credit_given'`.
  - Credit given is therefore never counted (`BotLogic.DetailedReportPayments`).
  - The total is also the signed sum, where the weekly report sums absolute values.
- Cleanup deletes ledger rows but leaves the balance cell alone. Cleaning away a walk
  leaves a cell that still counts its fee (`ReportCleanup.CleanupLeavesBalanceStale`).
- Manual cash out refuses only 0. A negative amount is recorded as a payment that raises
  the balance.

## Model

| member | source | states |
|---|---|---|
| Ledger.Apply | database.py:87-143 | definition: a `walk`, `payment` or `credit_given` entry adds its stored amount to the balance (lines 87, 127, 143); an `initial_balance` entry replaces the balance with its amount (line 111) |
| Ledger.Replay | database.py:87-143 | definition: the balance reached by applying the log's entries in the order they were recorded |
| Ledger.AddToCell | database.py:87-143 | definition: `UPDATE balance SET current_balance = current_balance + delta WHERE id = 1`; a missing row stays missing (lines 87, 127, 143) |
| Ledger.SetCell | database.py:111 | definition: `UPDATE balance SET current_balance = amount WHERE id = 1`; a missing row stays missing |
| Ledger.Store.constructor | database.py:35-51 | a database whose tables have just been created: no entries, no balance row, the id counter at 1 |
| Ledger.Store.Insert | database.py:81-84 | exactly one entry is appended, carrying the next id, the time, amount, type and description given; the id counter rises by one; the balance cell is untouched |
| Ledger.Store.InitDb | database.py:53-56 | the 0.0 row is inserted only when no row exists, so an existing balance survives a second call; the log is untouched; an empty ledger is synchronised afterwards |
| Ledger.Store.CurrentBalance | database.py:90-96 | the cell's value, 0.0 when the row is missing; equal to the fold of the log when synchronised |
| Ledger.Store.AddWalk | database.py:74-88 | exactly one entry is appended (75.0, `walk`, "Dog walk"); earlier entries are unchanged; the cell rises by 75; synchronisation is preserved |
| Ledger.Store.SetInitialBalance | database.py:98-112 | one `initial_balance` entry holding the amount is appended; the cell equals the amount afterwards whatever it was; synchronisation is preserved |
| Ledger.Store.RecordPayment | database.py:114-128 | one `payment` entry with amount `-a` is appended; the cell falls by `a`; nothing else changes; synchronisation is preserved |
| Ledger.Store.RecordCreditGiven | database.py:130-144 | one `credit_given` entry with amount `-a` is appended; the cell falls by `a`; synchronisation is preserved |
| Ledger.ReplayFromReset | database.py:105-111 | after an initial-balance entry the balance depends only on that entry and the entries after it |
| Ledger.ReplayWithoutReset | database.py:87-143 | with no reset in the log, the balance is the start plus the sum of the stored amounts |
| Ledger.Where | database.py:152-157 | the filtered listing is no longer than the log and holds only log entries that satisfy the `WHERE` condition |
| Ledger.CountWhere | database.py:153 | definition: `COUNT(*)` is the length of the filtered listing |
| Ledger.SumWhere | database.py:153 | definition: `SUM` of a column over the filtered entries, 0 when none matches (the `if walk_data[1] else 0.0` of line 160) |
| Ledger.WeeklyReportData | database.py:146-172 | definition: the count and stored-amount sum of the walks dated within the last 7 days, and the sum of the absolute amounts of the `payment` and `credit_given` entries in the same window; its properties are in the next three rows |
| Ledger.WeeklyReportTotals | database.py:146-172 | the payment total, a sum of absolute values, is non-negative; the walk total is 75 times the walk count |
| Ledger.WeeklyReportEmpty | database.py:146-172 | a week without walks reports a walk count and walk total of 0, and a week without money received a payment total of 0 (the `COALESCE`) |
| Ledger.WalkTodayCountsThisWeek | database.py:152-157 | a walk recorded today raises the week's walk count by one |
| Ledger.InsertByTime | database.py:181 | the result holds the listed entries and the new one, each exactly as often as before |
| Ledger.SortByTime | database.py:178-181 | the listing is ordered by timestamp (newest first or oldest first, as asked) and holds every entry exactly as often as the input |
| Ledger.AllTransactionsForReport | database.py:174-183 | every entry exactly as often as in the log, in timestamp order newest first |
| Ledger.InsertOrdered | database.py:181 | inserting an entry into a timestamp-ordered listing keeps it ordered |
| Ledger.SortKeepsAggregates | database.py:178-181 | ordering the log changes no count and no sum |
| Ledger.GetStatsSummary | database.py:185-214 | definition: the count and stored-amount sum of all walks, and the count of walks dated today; its properties are in the next row |
| Ledger.StatsSummaryFacts | database.py:185-214 | walks today never exceed total walks; total earned is 75 times total walks |
| Ledger.WhereKeeps | database.py:152-157 | a `WHERE` filter keeps exactly the entries that satisfy it |
| Ledger.WherePartition | report_cleanup.py:43-54 | every entry falls on exactly one side of a filter |
| Ledger.WhereKeepsOrder | report_cleanup.py:50-54 | filtering keeps the relative order of the entries it keeps |
| Calendar.IsRealDate | report_cleanup.py:12 | definition: a calendar date with a year from 1 to 9999, the dates `strptime` can produce |
| Calendar.PrevDay | database.py:156 | the day before a calendar date is a calendar date strictly earlier than it |
| Calendar.IsoDate | database.py:156 | the text `date(timestamp)` yields: ten characters with dashes at positions 4 and 7; its order is in the next row |
| Calendar.IsoDateOrder | database.py:156 | comparing zero-padded `YYYY-MM-DD` texts character by character is comparing the dates, both strictly and non-strictly |
| Calendar.SubDays | database.py:156 | `date('now', '-7 days')` is a calendar date no later than today, and strictly earlier for a positive count |
| Calendar.SubDaysWithinMonth | database.py:156 | going back fewer days than the day of the month stays in the month |
| Calendar.DaysInMonth | report_cleanup.py:12 | months have 28 to 31 days, and 29 exactly for February of a leap year |
| ReportCleanup.MatchMonthDash | report_cleanup.py:12 | the `%m-` part of the pattern: a match names a month from 1 to 12 |
| ReportCleanup.MatchDay | report_cleanup.py:12 | the `%d` part of the pattern: a match names a day from 1 to 31 |
| ReportCleanup.MatchIsoPattern | report_cleanup.py:12 | the whole `%Y-%m-%d` pattern before the calendar check: a match names a year from 0 to 9999, a month from 1 to 12 and a day from 1 to 31 |
| ReportCleanup.ValidateDate | report_cleanup.py:9-14 | success only for a real date in years 1 to 9999 that the text spells in the `%Y-%m-%d` shape (`Spells`: four year digits, the month in two digits or one, the day in two digits, one digit or a space and a digit, nothing after); every failure carries the one message naming the text |
| ReportCleanup.ValidateDateComplete | report_cleanup.py:9-14 | every text that spells a real date is accepted as that date |
| ReportCleanup.ValidateDateExact | report_cleanup.py:9-14 | a text is accepted as a date exactly when it spells that real date, both directions |
| ReportCleanup.ValidateIsoDate | report_cleanup.py:9-14 | every real date written zero-padded is accepted as itself |
| ReportCleanup.ValidateRejectsNonDate | report_cleanup.py:12-14 | 29 February 2023 is refused with the message naming the text; trailing text is refused |
| ReportCleanup.ValidateAcceptsExamples | report_cleanup.py:12-14 | 29 February 2024 is accepted; the unpadded "2024-1-5" is accepted as 5 January |
| ReportCleanup.CheckRange | report_cleanup.py:35-38 | success exactly when both dates are valid and from is not after to; otherwise the first failing check's message |
| ReportCleanup.InRange | report_cleanup.py:44 | definition: `DATE(date) >= from AND DATE(date) <= to`, both ends inclusive |
| ReportCleanup.CountInRange | report_cleanup.py:43-47 | definition: the number of entries inside the range |
| ReportCleanup.Survivors | report_cleanup.py:50-54 | definition: the entries outside the range, in their order |
| ReportCleanup.CountRange | report_cleanup.py:43-47 | the count is the number of entries dated inside the inclusive range |
| ReportCleanup.DeleteRange | report_cleanup.py:50-54 | what remains is the entries outside the range |
| ReportCleanup.CleanDetailedReport | report_cleanup.py:16-63 | success exactly when the dates check and the database answers; the count is the number of in-range entries before the delete; the log becomes the survivors; every failure reports `success = false`, 0 and the message with the log untouched; the balance cell and the id counter are never touched |
| ReportCleanup.CleanupPartition | report_cleanup.py:43-57 | deleted count plus survivors is the old size; no in-range entry survives; every entry outside the range survives |
| ReportCleanup.CleanupLeavesBalanceStale | report_cleanup.py:16-63 | on a fresh store holding one walk, cleaning that walk's day succeeds and deletes 1 entry; the log is then empty while the cell still holds 75, so the cell no longer agrees with the ledger |
| ReportCleanup.GetReportEntries | report_cleanup.py:65-87 | oldest first; empty on a database error |
| ReportCleanup.ReportEntriesExact | report_cleanup.py:73-84 | the report holds exactly the in-range entries, each as often as the ledger does |
| ReportCleanup.GetTotalTransactionsCount | report_cleanup.py:89-100 | the ledger's size, or 0 on a database error |
| ReportCleanup.TotalAfterCleanup | report_cleanup.py:89-100 | after a successful cleanup the total has fallen by exactly the deleted count |
| ReportCleanup.CleanDetailedReportAsWritten | report_cleanup.py:43-54 | the cleanup with its statements naming the column `date` |
| ReportCleanup.AsWrittenCleanupNeverSucceeds | report_cleanup.py:44 | as written, the cleanup fails and deletes nothing for every input |
| ReportCleanup.GetReportEntriesAsWritten | report_cleanup.py:73-76 | the entries query naming the columns `date` and `type`; empty on a database error |
| ReportCleanup.AsWrittenReportAlwaysEmpty | report_cleanup.py:74 | as written, the report is empty for every ledger |
| BotStats.StatsManager.constructor | main.py:21-25 | a fresh manager has a count of 0 and is not running |
| BotStats.StatsManager.RecordActivity | main.py:52-55 | the count rises by exactly one per call; the last activity becomes now |
| BotStats.StatsManager.GetStats | main.py:27-50 | the manager's own fields; the stored balance cell as it is; walks, walks today and earnings equal the store's summary; walks today never exceed total walks |
| BotStats.TotalsOf | main.py:33-39 | walks today never exceed total walks |
| BotStats.TotalsAgreeWithSummary | main.py:32-39 | counting over the newest-first listing gives the summary's figures; earnings are 75 times the walks |
| BotLogic.UserData.constructor | bot_logic.py:222 | a chat starts with neither flag raised, as `user_data.get(..., False)` reads a missing key |
| BotLogic.IsAdmin | bot_logic.py:194 | definition: `is_admin` as membership of an allow-list |
| BotLogic.NoteActivity | bot_logic.py:49-50 | with a manager installed, its count rises by one and its last activity becomes now; its start time and running flag are unchanged |
| BotLogic.ReceiveCreditAmount | bot_logic.py:47-78 | an amount ≤ 0 or a non-number stays in the amount step and records nothing; a positive amount records one `credit_given` entry, lowers the balance by it and ends; a failing store ends with nothing recorded; every call records one activity at `now` |
| BotLogic.CashoutTypeChosen | bot_logic.py:98-134 | "cashout_all" with balance ≤ 0 records nothing and ends; a positive balance `b` is paid out as one payment of `b`, leaving exactly 0; "cashout_manual" asks for an amount; any other button keeps the state; every call records one activity at `now` |
| BotLogic.ReceiveManualCashoutAmount | bot_logic.py:136-167 | only 0 and non-numbers are refused, staying in the amount step; any other amount, negative included, is one payment lowering the balance by it; every call records one activity at `now` |
| BotLogic.DetailedReportData | bot_logic.py:175-191 | definition: the figures the detailed report prints; its properties are in the next four rows |
| BotLogic.DetailedReportWalks | bot_logic.py:175-181 | the report's walk count and total are the walk entries' count and sum; the balance is the store's cell as `get_current_balance` reads it, the ledger's fold while the two agree; the cleanup button is offered exactly to admins |
| BotLogic.DetailedReportWalkTotal | bot_logic.py:180 | the report's walk total is 75 times its walk count |
| BotLogic.DetailedReportPayments | bot_logic.py:182 | the payment/credit total is the signed sum of the `payment` entries only |
| BotLogic.DetailedReportIgnoresCredit | bot_logic.py:182 | a ledger holding only credit given reports a payment/credit total of 0 |
| BotLogic.ButtonCallback | bot_logic.py:205-214 | "clean_report" from an admin raises the cleanup flag; from a non-admin it is refused with no change; every other button changes nothing |
| BotLogic.HandleAdminCleanupDates | bot_logic.py:217-239 | a non-admin, or an admin without the flag, changes neither the flags nor the store; a handled message always lowers the flag; two words run the cleanup and report its count; any other word count is an invalid-format reply with the store untouched |
| BotLogic.ParseDecimal | bot_logic.py:356-359 | every text the initial-balance filter accepts denotes a non-negative amount |
| BotLogic.ParseDecimalExamples | bot_logic.py:357 | signs, missing digits around the dot and a second dot do not match |
| BotLogic.SetInitialBalanceCommand | bot_logic.py:276-278 | the initial-balance flag is raised |
| BotLogic.ReceiveInitialBalance | bot_logic.py:280-292 | whatever the flag, the balance is set to the text's non-negative value by one `initial_balance` entry; the flag is lowered afterwards |
| OledDisplay.WrapLines | oled_display.py:176-188 | splitting the lines back into words gives the message's words in order; no words gives no lines; a line of two or more words has at most 15 characters; only the first line can be empty, exactly when the first word has 16 or more characters |
| OledDisplay.WrapWords | oled_display.py:180-185 | after the loop over all the words, the wrap invariant holds of the finished lines and the current line |
| OledDisplay.AcceptKeeps | oled_display.py:181-182 | a word joining the current line keeps the wrap invariant |
| OledDisplay.BreakKeeps | oled_display.py:183-185 | finishing a line and starting the next keeps the wrap invariant |
| OledDisplay.FinishKeeps | oled_display.py:187-188 | adding the last line establishes every property of the wrap |
| OledDisplay.WordsOfLinesPrefix | oled_display.py:191-192 | the words of the first lines are a prefix of the words of all lines |
| OledDisplay.Display.ShowNotification | oled_display.py:165-198 | with no device, nothing changes; otherwise at most 3 lines are drawn, holding a prefix of the message's words, or all of them when fewer than 3 lines are drawn |
| OledDisplay.BalanceStatus | oled_display.py:112-117 | "They owe you" iff balance > 0; "You owe them" iff balance < 0; "All settled" iff balance = 0 |
| OledDisplay.UptimeClock | oled_display.py:89-91 | minutes are below 60 and the shown hour and minute start at or before the uptime and end after it |
| OledDisplay.ScreenAt | oled_display.py:59-66 | indices 0 to 3 name the status, balance, statistics and time screens, one to one |
| OledDisplay.Display.DisplayLoop | oled_display.py:55-74 | while running, round `k` shows the screen at `(start + k) % 4`; the index stays in 0..3 and ends at `(start + rounds) % 4`; when not running, nothing is shown |
| OledDisplay.Display.constructor | oled_display.py:14-33 | a new manager is not running, shows screen 0 and has drawn no notification; it has a device exactly when the probe found one |
| OledDisplay.Display.Start | oled_display.py:35-44 | the display runs only when a device was found |
| Text.Words | oled_display.py:176 | `split()`: every element is a non-empty run of non-space characters (also `text.split()` at bot_logic.py:224) |
| Text.Strip | bot_logic.py:219 | definition: `strip()` drops leading and trailing whitespace (also oled_display.py:184 and 188) |
| Text.WordsOfJoin | oled_display.py:176 | splitting words joined by single spaces gives the words back |
| Text.StripTrailing | oled_display.py:182-188 | stripping `word + " "` accumulated word by word gives the words joined by single spaces |

## Left out

- SQLite plumbing is not modelled: connections, PRAGMAs, the data directory, indexes and file paths.
  - The two `DB_PATH` values differ: `report_cleanup.py:7` against `database.py:7`. Against a fresh
    file the cleanup statements fail with a missing table. The model represents that failure, and
    any other statement failure, by the parameter `dbError`.
- `datetime.now()`, `date('now', ...)` and the uptime are parameters.
  - The weekly window uses the supplied "today". The SQL takes `'now'` in UTC while timestamps are
    local time, and that difference is not modelled.
- Amounts are mathematical reals. Floating-point rounding, `nan`/`inf` from `float()`, and the
  `:.2f`/`:.0f` formatting in messages and descriptions are not modelled. A description is kept as
  its template and amount (`Ledger.Note`).
- `float(text)` in the credit and manual cash-out steps is an input (`Option<real>`), not a parser.
- `ReportCleanup.ValidateDate`: `\d` in Python's `re` also accepts non-ASCII decimal digits; the
  model accepts ASCII digits only.
- `BotLogic.ParseDecimal`: also ASCII only. Python's `$` also matches before a final newline; the
  model does not accept that newline.
- `ReportCleanup.CleanDetailedReport`: the model filters on the parsed dates. The SQL compares the
  raw texts, so with an unpadded input such as "2024-1-5" it would compare differently. This is
  not modelled.
- `ReportCleanup.GetReportEntries`: takes already-parsed dates. The original passes its texts to
  SQL unvalidated.
- `get_transaction_table_structure`: a schema passthrough, left out.
- Telegram is not modelled:
  - reply texts, keyboards, `ParseMode`, `credit_start`, `cashout_start` and the cancel handlers;
  - the error handler and the scheduled report;
  - `ConversationHandler` routing and handler priority. Each handler is modelled as if it had
    received its message.
- `HandleAdminCleanupDates` is modelled for any text. The regex filter that routes messages to it
  is not modelled.
- The OLED notifications the handlers send, and the threads, drawing, fonts, `time.sleep` and
  `stop` are not modelled.
- `OledDisplay.Display.DisplayLoop`: runs a given number of rounds instead of until `running`
  turns false. The `except` branch that retries a failed draw without advancing is not modelled,
  since drawing is not modelled.
- `OledDisplay.UptimeClock`: takes whole seconds (`nat`), not a float.
- `BotStats.StatsManager.GetStats`: the uptime is a parameter, not `now - start_time`.
- `main()` start-up, the scheduler and `config.py` are not modelled.

## Findings

| source | as written | input that shows it | evidently intended | confidence | as-written member | corrected member |
|---|---|---|---|---|---|---|
| report_cleanup.py:43-54 | the COUNT and DELETE filter on `DATE(date)`, but `init_db` (database.py:35-43) gives the table no `date` column, so SQLite refuses both statements | any valid range, e.g. "2024-01-01" to "2024-01-31": the result is `success = false` with a "no such column" error (or "no such table" against the default `DB_PATH` file of report_cleanup.py:7, which has no `transactions` table), and nothing is deleted | filter on `date(timestamp)` | not executed | ReportCleanup.AsWrittenCleanupNeverSucceeds | ReportCleanup.CleanDetailedReport |
| report_cleanup.py:73-76 | the report query selects `date` and `type` and orders by `date`; neither column exists, so the query fails and the `except` returns `[]` | any ledger and any range: the report is empty | select `timestamp` and `transaction_type`, filtered and ordered by `date(timestamp)` | not executed | ReportCleanup.AsWrittenReportAlwaysEmpty | ReportCleanup.GetReportEntries |
