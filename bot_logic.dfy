/**
 * The bot's handlers as state transitions, with Telegram left out.
 *
 * Each handler reads its input, may call one ledger mutator, may change the chat's
 * flags and returns the conversation's next state.  `float(text)` enters as an
 * `Option<real>` (`None` when Python raises ValueError).  A failure of the ledger inside
 * the handlers' `except Exception` branches enters as the flag `storeFails`: the
 * mutator then commits nothing.  `is_admin` is an allow-list.
 */
module BotLogic {
  import opened Wrappers
  import opened Calendar
  import opened Text
  import opened Ledger
  import opened ReportCleanup
  import opened BotStats

  /** The state a conversation handler returns; `Ended` is `ConversationHandler.END`. */
  datatype ConvState = Ended | AskCreditAmount | AskCashoutType | AskManualCashoutAmount

  /** `context.user_data`: the two flags kept per chat. */
  class UserData {
    var awaitReportCleanup: bool
    var awaitInitialBalance: bool

    constructor ()
      ensures !awaitReportCleanup && !awaitInitialBalance
    {
      awaitReportCleanup := false;
      awaitInitialBalance := false;
    }
  }

  /** `is_admin`, which the configuration does not define here: membership of an allow-list. */
  predicate IsAdmin(admins: set<int>, chatId: int) {
    chatId in admins
  }

  function CreditNote(amount: real): Note {
    AboutAmount("Credit (advance) of ", amount, " MDL")
  }

  function ManualCashoutNote(amount: real): Note {
    AboutAmount("Manual cash out of ", amount, " MDL")
  }

  /** `global_stats_manager.record_activity()` when a manager is installed. */
  method NoteActivity(stats: StatsManager?, now: Timestamp)
    modifies stats
    ensures stats != null ==> stats.messageCount == old(stats.messageCount) + 1 && stats.lastActivity == now
    ensures stats != null ==> stats.startTime == old(stats.startTime) && stats.botRunning == old(stats.botRunning)
  {
    if stats != null {
      stats.RecordActivity(now);
    }
  }

  // ---------------------------------------------------------------------------
  // Give Credit

  /**
   * `receive_credit_amount`: a positive amount is recorded as credit given and ends the
   * conversation; a non-number or an amount of at most 0 asks again and records nothing.
   */
  method ReceiveCreditAmount(store: Store, stats: StatsManager?, now: Timestamp,
                             amount: Option<real>, storeFails: bool)
    returns (next: ConvState)
    requires store.Valid()
    modifies store, stats
    ensures store.Valid()
    ensures stats != null ==> stats.messageCount == old(stats.messageCount) + 1 && stats.lastActivity == now
    ensures stats != null ==> stats.startTime == old(stats.startTime) && stats.botRunning == old(stats.botRunning)
    ensures amount.None? || amount.value <= 0.0 ==> next == AskCreditAmount && unchanged(store)
    ensures amount.Some? && amount.value > 0.0 && storeFails ==> next == Ended && unchanged(store)
    ensures amount.Some? && amount.value > 0.0 && !storeFails ==>
      next == Ended
      && store.log == old(store.log) + [Tx(old(store.nextId), now, -amount.value, CreditGiven, CreditNote(amount.value))]
      && store.nextId == old(store.nextId) + 1
      && store.balanceRow == AddToCell(old(store.balanceRow), -amount.value)
      && (old(store.balanceRow).Some? ==> store.CurrentBalance() == old(store.CurrentBalance()) - amount.value)
      && (old(store.InSync()) ==> store.InSync())
  {
    NoteActivity(stats, now);
    if amount.None? {
      return AskCreditAmount;
    }
    var a := amount.value;
    if a <= 0.0 {
      return AskCreditAmount;
    }
    if storeFails {
      return Ended;
    }
    store.RecordCreditGiven(now, a, CreditNote(a));
    return Ended;
  }

  // ---------------------------------------------------------------------------
  // Cash Out

  /**
   * `cashout_type_chosen`: "cashout_all" pays out a positive balance in full, leaving
   * 0, and ends; with a balance of at most 0 it records nothing and ends.
   * "cashout_manual" asks for an amount; any other button keeps the state.
   */
  method CashoutTypeChosen(store: Store, stats: StatsManager?, now: Timestamp, data: string)
    returns (next: ConvState)
    requires store.Valid()
    modifies store, stats
    ensures store.Valid()
    ensures stats != null ==> stats.messageCount == old(stats.messageCount) + 1 && stats.lastActivity == now
    ensures stats != null ==> stats.startTime == old(stats.startTime) && stats.botRunning == old(stats.botRunning)
    ensures data == "cashout_all" && old(store.CurrentBalance()) <= 0.0 ==> next == Ended && unchanged(store)
    ensures data == "cashout_all" && old(store.CurrentBalance()) > 0.0 ==>
      next == Ended
      && store.log == old(store.log)
           + [Tx(old(store.nextId), now, -old(store.CurrentBalance()), Payment, Plain("Full settlement"))]
      && store.nextId == old(store.nextId) + 1
      && store.balanceRow == AddToCell(old(store.balanceRow), -old(store.CurrentBalance()))
      && store.balanceRow == Some(0.0) && store.CurrentBalance() == 0.0
      && (old(store.InSync()) ==> store.InSync())
    ensures data == "cashout_manual" ==> next == AskManualCashoutAmount && unchanged(store)
    ensures data != "cashout_all" && data != "cashout_manual" ==> next == AskCashoutType && unchanged(store)
  {
    NoteActivity(stats, now);
    if data == "cashout_all" {
      var b := store.CurrentBalance();
      if b <= 0.0 {
        return Ended;
      }
      store.RecordPayment(now, b, Plain("Full settlement"));
      return Ended;
    } else if data == "cashout_manual" {
      return AskManualCashoutAmount;
    }
    // The handler returns None: the conversation stays where it was.
    return AskCashoutType;
  }

  /**
   * `receive_manual_cashout_amount`: only 0 is refused; any other amount, negative
   * ones included, is recorded as a payment and ends the conversation.
   */
  method ReceiveManualCashoutAmount(store: Store, stats: StatsManager?, now: Timestamp,
                                    amount: Option<real>, storeFails: bool)
    returns (next: ConvState)
    requires store.Valid()
    modifies store, stats
    ensures store.Valid()
    ensures stats != null ==> stats.messageCount == old(stats.messageCount) + 1 && stats.lastActivity == now
    ensures stats != null ==> stats.startTime == old(stats.startTime) && stats.botRunning == old(stats.botRunning)
    ensures amount.None? || amount.value == 0.0 ==> next == AskManualCashoutAmount && unchanged(store)
    ensures amount.Some? && amount.value != 0.0 && storeFails ==> next == Ended && unchanged(store)
    ensures amount.Some? && amount.value != 0.0 && !storeFails ==>
      next == Ended
      && store.log == old(store.log) + [Tx(old(store.nextId), now, -amount.value, Payment, ManualCashoutNote(amount.value))]
      && store.nextId == old(store.nextId) + 1
      && store.balanceRow == AddToCell(old(store.balanceRow), -amount.value)
      && (old(store.balanceRow).Some? ==> store.CurrentBalance() == old(store.CurrentBalance()) - amount.value)
      && (old(store.InSync()) ==> store.InSync())
  {
    NoteActivity(stats, now);
    if amount.None? {
      return AskManualCashoutAmount;
    }
    var a := amount.value;
    if a == 0.0 {
      return AskManualCashoutAmount;
    }
    if storeFails {
      return Ended;
    }
    store.RecordPayment(now, a, ManualCashoutNote(a));
    return Ended;
  }

  // ---------------------------------------------------------------------------
  // Detailed report

  datatype DetailedReport = DetailedReport(
    walkCount: nat,
    walkTotal: real,
    currentBalance: real,
    paymentCreditTotal: real,
    offerCleanup: bool)

  /** The kind the report's walk figures look for: `t[2] == 'walk'`. */
  predicate ReportedAsWalk(t: Tx) {
    KindName(t.kind) == "walk"
  }

  /** The kinds the report's payment/credit total looks for: `t[2] in ('credit', 'payment')`. */
  predicate ReportedAsPaymentOrCredit(t: Tx) {
    KindName(t.kind) == "credit" || KindName(t.kind) == "payment"
  }

  /**
   * `detailed_report_command`: the figures over all transactions, the balance cell as
   * `get_current_balance` reads it, and the cleanup button for admins.
   */
  function DetailedReportData(store: Store, admins: set<int>, chatId: int): DetailedReport
    reads store
  {
    var transactions := AllTransactionsForReport(store.log);
    DetailedReport(
      CountWhere(transactions, ReportedAsWalk),
      SumWhere(transactions, ReportedAsWalk, (t: Tx) => t.amount),
      store.CurrentBalance(),
      SumWhere(transactions, ReportedAsPaymentOrCredit, (t: Tx) => t.amount),
      IsAdmin(admins, chatId))
  }

  lemma KindNames(k: Kind)
    ensures KindName(k) == "walk" <==> k == Walk
    ensures KindName(k) == "payment" <==> k == Payment
    ensures KindName(k) != "credit"
  {
  }

  /**
   * The report's walk figures are the walk entries' count and sum, its balance is the
   * store's cell (the ledger's fold while the two agree), and only admins get the button.
   */
  lemma DetailedReportWalks(store: Store, admins: set<int>, chatId: int)
    ensures var r := DetailedReportData(store, admins, chatId);
      r.walkCount == CountWhere(store.log, IsWalk)
      && r.walkTotal == SumWhere(store.log, IsWalk, (t: Tx) => t.amount)
      && r.currentBalance == store.CurrentBalance()
      && (store.InSync() ==> r.currentBalance == Replay(store.log, 0.0))
      && (r.offerCleanup <==> chatId in admins)
  {
    var amount := (t: Tx) => t.amount;
    var transactions := AllTransactionsForReport(store.log);
    forall t: Tx
      ensures ReportedAsWalk(t) == IsWalk(t)
    {
      KindNames(t.kind);
    }
    SameFilter(transactions, ReportedAsWalk, IsWalk, amount);
    SortKeepsAggregates(store.log, true, IsWalk, amount);
  }

  /** Every walk earns the fee, so the report's walk total is the fee times the walk count. */
  lemma DetailedReportWalkTotal(store: Store, admins: set<int>, chatId: int)
    requires WalksEarnFee(store.log)
    ensures var r := DetailedReportData(store, admins, chatId);
      r.walkTotal == WalkFee * r.walkCount as real
  {
    DetailedReportWalks(store, admins, chatId);
    SumWhereFee(store.log, IsWalk, (t: Tx) => t.amount);
  }

  /**
   * The payment/credit total is the signed sum of the payment entries alone: no kind is
   * named "credit", so credit-given entries never count.
   */
  lemma DetailedReportPayments(store: Store, admins: set<int>, chatId: int)
    ensures DetailedReportData(store, admins, chatId).paymentCreditTotal
         == SumWhere(store.log, (t: Tx) => t.kind == Payment, (t: Tx) => t.amount)
  {
    var amount := (t: Tx) => t.amount;
    var payment := (t: Tx) => t.kind == Payment;
    var transactions := AllTransactionsForReport(store.log);
    forall t: Tx
      ensures ReportedAsPaymentOrCredit(t) == payment(t)
    {
      KindNames(t.kind);
    }
    SameFilter(transactions, ReportedAsPaymentOrCredit, payment, amount);
    SortKeepsAggregates(store.log, true, payment, amount);
  }

  /** A ledger of credits given alone reports a payment/credit total of 0, whatever the amounts. */
  lemma DetailedReportIgnoresCredit(store: Store, admins: set<int>, chatId: int)
    requires forall i :: 0 <= i < |store.log| ==> store.log[i].kind == CreditGiven
    ensures DetailedReportData(store, admins, chatId).paymentCreditTotal == 0.0
  {
    DetailedReportPayments(store, admins, chatId);
    NoMatchIsZero(store.log, (t: Tx) => t.kind == Payment, (t: Tx) => t.amount);
  }

  // ---------------------------------------------------------------------------
  // Admin cleanup

  datatype CallbackOutcome = Ignored | AccessDenied | AskForDates

  /** `button_callback`: "clean_report" from an admin arms the date step; a non-admin is refused. */
  method ButtonCallback(session: UserData, admins: set<int>, chatId: int, data: string)
    returns (outcome: CallbackOutcome)
    modifies session
    ensures data != "clean_report" ==> outcome == Ignored && unchanged(session)
    ensures data == "clean_report" && !IsAdmin(admins, chatId) ==> outcome == AccessDenied && unchanged(session)
    ensures data == "clean_report" && IsAdmin(admins, chatId) ==>
      outcome == AskForDates && session.awaitReportCleanup
      && session.awaitInitialBalance == old(session.awaitInitialBalance)
  {
    if data != "clean_report" {
      return Ignored;
    }
    if !IsAdmin(admins, chatId) {
      return AccessDenied;
    }
    session.awaitReportCleanup := true;
    return AskForDates;
  }

  datatype AdminReply = Cleaned(from: string, to: string, deleted: nat) | CleanFailed(error: string) | InvalidFormat

  /**
   * `handle_admin_cleanup_dates`: from an admin whose date step is armed, exactly two
   * words run the cleanup; the step is disarmed whatever happens.  Anyone else, or an
   * admin without the step armed, changes nothing and gets no reply.
   */
  method HandleAdminCleanupDates(store: Store, session: UserData, admins: set<int>, chatId: int,
                                 text: string, dbError: Option<string>)
    returns (reply: Option<AdminReply>)
    requires store.Valid()
    modifies store, session
    ensures store.Valid()
    ensures !IsAdmin(admins, chatId) || !old(session.awaitReportCleanup) ==>
      reply.None? && unchanged(store) && unchanged(session)
    ensures IsAdmin(admins, chatId) && old(session.awaitReportCleanup) ==>
      reply.Some? && !session.awaitReportCleanup
      && session.awaitInitialBalance == old(session.awaitInitialBalance)
    ensures store.balanceRow == old(store.balanceRow) && store.nextId == old(store.nextId)
    ensures reply == Some(InvalidFormat) ==> unchanged(store)
    ensures reply.Some? && reply.value.CleanFailed? ==> store.log == old(store.log)
    ensures IsAdmin(admins, chatId) && old(session.awaitReportCleanup) ==>
      var ws := Words(Strip(text));
      if |ws| != 2 then reply == Some(InvalidFormat)
      else if CheckRange(ws[0], ws[1]).Ok? && dbError.None? then
        var (from, to) := CheckRange(ws[0], ws[1]).value;
        reply == Some(Cleaned(ws[0], ws[1], CountInRange(old(store.log), from, to)))
        && store.log == Survivors(old(store.log), from, to)
      else if CheckRange(ws[0], ws[1]).Err? then
        reply == Some(CleanFailed(CheckRange(ws[0], ws[1]).error))
      else
        reply == Some(CleanFailed(dbError.value))
  {
    var stripped := Strip(text);
    if !IsAdmin(admins, chatId) || !session.awaitReportCleanup {
      return None;
    }
    var ws := Words(stripped);
    if |ws| != 2 {
      reply := Some(InvalidFormat);
    } else {
      var result := CleanDetailedReport(store, ws[0], ws[1], dbError);
      if result.success {
        reply := Some(Cleaned(ws[0], ws[1], result.deletedCount));
      } else {
        reply := Some(CleanFailed(result.error.value));
      }
    }
    session.awaitReportCleanup := false;
  }

  // ---------------------------------------------------------------------------
  // Initial balance

  predicate AllDigits(s: string) {
    forall i :: 0 <= i < |s| ==> IsDigit(s[i])
  }

  function NaturalValue(s: string): (n: nat)
    requires AllDigits(s)
  {
    if s == [] then 0 else 10 * NaturalValue(s[..|s| - 1]) + DigitValue(s[|s| - 1])
  }

  function Pow10(k: nat): (p: nat)
    ensures p >= 1
  {
    if k == 0 then 1 else 10 * Pow10(k - 1)
  }

  /** The position of the first '.', or the length when there is none. */
  function DotIndex(s: string): (k: nat)
    ensures k <= |s| && (k < |s| ==> s[k] == '.')
    ensures forall i :: 0 <= i < k ==> s[i] != '.'
  {
    if s == [] || s[0] == '.' then 0 else 1 + DotIndex(s[1..])
  }

  /**
   * The handler's filter `^\d+(\.\d+)?$` followed by `float(text)`: digits, optionally a
   * dot and more digits; the value, or `None` when the text does not match.
   */
  function ParseDecimal(text: string): (r: Option<real>)
    ensures r.Some? ==> r.value >= 0.0
  {
    var k := DotIndex(text);
    var whole := text[..k];
    if whole == [] || !AllDigits(whole) then None
    else if k == |text| then Some(NaturalValue(whole) as real)
    else
      var frac := text[k + 1..];
      if frac == [] || !AllDigits(frac) then None
      else Some(NaturalValue(whole) as real + NaturalValue(frac) as real / Pow10(|frac|) as real)
  }

  /** A sign, an empty part or a second dot keeps the handler from firing. */
  lemma ParseDecimalExamples()
    ensures ParseDecimal("12.5") == Some(12.5)
    ensures ParseDecimal("0") == Some(0.0)
    ensures ParseDecimal("-5") == None && ParseDecimal("5.") == None && ParseDecimal(".5") == None
    ensures ParseDecimal("1.2.3") == None
  {
    assert DotIndex("12.5") == 2 && "12.5"[..2] == "12" && "12.5"[3..] == "5";
    assert NaturalValue("12") == 12 by {
      assert "12"[..1] == "1";
      assert "1"[..0] == "";
    }
    assert NaturalValue("5") == 5 by {
      assert "5"[..0] == "";
    }
    assert DotIndex("0") == 1 by {
      assert "0"[1..] == "";
    }
    assert "0"[..|"0"|] == "0";
    assert NaturalValue("0") == 0 by {
      assert "0"[..0] == "";
    }
    assert DotIndex("-5") == 2 by {
      assert "-5"[1..] == "5" && "5"[1..] == "";
    }
    assert DotIndex("5.") == 1 by {
      assert "5."[1..] == ".";
    }
    assert "5."[2..] == "";
    assert DotIndex(".5") == 0;
    assert DotIndex("1.2.3") == 1 by {
      assert "1.2.3"[1..] == ".2.3";
    }
    assert "1.2.3"[2..] == "2.3" && !IsDigit("2.3"[1]);
  }

  /** `set_initial_balance_command`: asks for the amount and raises the flag. */
  method SetInitialBalanceCommand(session: UserData)
    modifies session
    ensures session.awaitInitialBalance && session.awaitReportCleanup == old(session.awaitReportCleanup)
  {
    session.awaitInitialBalance := true;
  }

  /**
   * `receive_initial_balance`: fires on every text the filter accepts, whether or not the
   * flag is raised; sets the balance to that non-negative value and lowers the flag.
   */
  method ReceiveInitialBalance(store: Store, session: UserData, now: Timestamp, text: string, storeFails: bool)
    requires ParseDecimal(text).Some?
    requires store.Valid()
    modifies store, session
    ensures store.Valid()
    ensures !session.awaitInitialBalance && session.awaitReportCleanup == old(session.awaitReportCleanup)
    ensures storeFails ==> unchanged(store)
    ensures !storeFails ==>
      var a := ParseDecimal(text).value;
      a >= 0.0
      && store.log == old(store.log)
           + [Tx(old(store.nextId), now, a, InitialBalance, AboutAmount("Initial balance set to ", a, " MDL"))]
      && store.nextId == old(store.nextId) + 1
      && store.balanceRow == SetCell(old(store.balanceRow), a)
      && (old(store.balanceRow).Some? ==> store.CurrentBalance() == a && store.CurrentBalance() >= 0.0)
      && (old(store.InSync()) ==> store.InSync())
  {
    var a := ParseDecimal(text).value;
    if !storeFails {
      store.SetInitialBalance(now, a);
    }
    session.awaitInitialBalance := false;
  }

  /**
   * A chat that gives credit of 20 after a walk, then pays the rest out in full, ends
   * settled with the three entries in the ledger.
   */
  method ScenarioCreditThenCashout(t1: Timestamp, t2: Timestamp, t3: Timestamp)
  {
    var store := new Store();
    store.InitDb();
    store.AddWalk(t1);
    var s1 := ReceiveCreditAmount(store, null, t2, Some(20.0), false);
    assert s1 == Ended && store.CurrentBalance() == 55.0;
    var s2 := CashoutTypeChosen(store, null, t3, "cashout_all");
    assert s2 == Ended && store.CurrentBalance() == 0.0;
    assert |store.log| == 3 && store.log[2].amount == -55.0 && store.InSync();
  }
}
