/**
 * The ledger store of database.py: an append-only log of transactions plus one
 * balance cell, the four mutators that append a row and update the cell in the
 * same commit, and the read queries over the log.
 *
 * The SQLite connection is left out: the store is in-memory state, every
 * mutator is one atomic method, and the clock (`datetime.now()`) and the date
 * of "today" are parameters.
 */
module Ledger {
  import opened Wrappers
  import opened Calendar

  /** What one dog walk earns (MDL). */
  const WalkFee: real := 75.0

  /** The closed set of values the `transaction_type` column takes. */
  datatype Kind = Walk | Payment | CreditGiven | InitialBalance

  /** The text stored in the `transaction_type` column for each kind. */
  function KindName(k: Kind): string {
    match k
    case Walk => "walk"
    case Payment => "payment"
    case CreditGiven => "credit_given"
    case InitialBalance => "initial_balance"
  }

  /**
   * The `description` column: free text, or a message template around an
   * amount such as `f'Initial balance set to {amount:.2f} MDL'`.
   */
  datatype Note = Plain(text: string) | AboutAmount(prefix: string, amount: real, suffix: string)

  /** A row of the `transactions` table. */
  datatype Tx = Tx(id: nat, timestamp: Timestamp, amount: real, kind: Kind, note: Note)

  // ---------------------------------------------------------------------------
  // The balance as a fold over the log.
  // ---------------------------------------------------------------------------

  /** How one entry moves the balance: a reset sets it, every other kind adds its stored amount. */
  function Apply(balance: real, t: Tx): real {
    if t.kind == InitialBalance then t.amount else balance + t.amount
  }

  /** The balance obtained by applying the log, oldest entry first, to `start`. */
  function Replay(log: seq<Tx>, start: real): real
    decreases |log|
  {
    if log == [] then start else Apply(Replay(log[..|log| - 1], start), log[|log| - 1])
  }

  lemma ReplayAppend(log: seq<Tx>, t: Tx, start: real)
    ensures Replay(log + [t], start) == Apply(Replay(log, start), t)
  {
    assert (log + [t])[..|log|] == log;
  }

  function SumAmounts(log: seq<Tx>): real
    decreases |log|
  {
    if log == [] then 0.0 else SumAmounts(log[..|log| - 1]) + log[|log| - 1].amount
  }

  /** Without a reset, the balance is the start plus the sum of the stored amounts. */
  lemma {:induction false} ReplayWithoutReset(log: seq<Tx>, start: real)
    requires forall i :: 0 <= i < |log| ==> log[i].kind != InitialBalance
    ensures Replay(log, start) == start + SumAmounts(log)
    decreases |log|
  {
    if log != [] {
      ReplayWithoutReset(log[..|log| - 1], start);
    }
  }

  /** A reset entry makes everything before it irrelevant to the balance. */
  lemma {:induction false} ReplayFromReset(log: seq<Tx>, k: nat, start: real)
    requires k < |log| && log[k].kind == InitialBalance
    ensures Replay(log, start) == Replay(log[k + 1..], log[k].amount)
    decreases |log|
  {
    if k == |log| - 1 {
      assert log[k + 1..] == [];
    } else {
      var init := log[..|log| - 1];
      ReplayFromReset(init, k, start);
      assert init[k + 1..] == log[k + 1..][..|log[k + 1..]| - 1];
    }
  }

  // ---------------------------------------------------------------------------
  // Filters and aggregates, as the SQL `WHERE`, `COUNT(*)` and `SUM(...)` compute them.
  // ---------------------------------------------------------------------------

  /** The entries satisfying `p`, in log order. */
  function Where(txs: seq<Tx>, p: Tx -> bool): (r: seq<Tx>)
    ensures |r| <= |txs|
    ensures forall i :: 0 <= i < |r| ==> p(r[i]) && r[i] in txs
    decreases |txs|
  {
    if txs == [] then []
    else if p(txs[0]) then [txs[0]] + Where(txs[1..], p)
    else Where(txs[1..], p)
  }

  /** `COUNT(*)` over the entries satisfying `p`. */
  function CountWhere(txs: seq<Tx>, p: Tx -> bool): nat {
    |Where(txs, p)|
  }

  /** `SUM(f)` over the entries satisfying `p`, 0 when none does (`COALESCE`). */
  function SumWhere(txs: seq<Tx>, p: Tx -> bool, f: Tx -> real): real
    decreases |txs|
  {
    if txs == [] then 0.0
    else (if p(txs[0]) then f(txs[0]) else 0.0) + SumWhere(txs[1..], p, f)
  }

  /** Every entry satisfying `p` is kept, and nothing else: membership both ways. */
  lemma {:induction false} WhereKeeps(txs: seq<Tx>, p: Tx -> bool, x: Tx)
    ensures x in Where(txs, p) <==> x in txs && p(x)
    decreases |txs|
  {
    if txs != [] {
      WhereKeeps(txs[1..], p, x);
      assert txs == [txs[0]] + txs[1..];
    }
  }

  lemma {:induction false} WhereAppend(a: seq<Tx>, b: seq<Tx>, p: Tx -> bool)
    ensures Where(a + b, p) == Where(a, p) + Where(b, p)
    decreases |a|
  {
    if a == [] {
      assert a + b == b;
    } else {
      assert (a + b)[0] == a[0] && (a + b)[1..] == a[1..] + b;
      WhereAppend(a[1..], b, p);
    }
  }

  lemma {:induction false} SumWhereAppend(a: seq<Tx>, b: seq<Tx>, p: Tx -> bool, f: Tx -> real)
    ensures SumWhere(a + b, p, f) == SumWhere(a, p, f) + SumWhere(b, p, f)
    decreases |a|
  {
    if a == [] {
      assert a + b == b;
    } else {
      assert (a + b)[0] == a[0] && (a + b)[1..] == a[1..] + b;
      SumWhereAppend(a[1..], b, p, f);
    }
  }

  /** Filters that agree on every entry select the same entries and the same sums. */
  lemma {:induction false} SameFilter(txs: seq<Tx>, p: Tx -> bool, q: Tx -> bool, f: Tx -> real)
    requires forall t :: p(t) == q(t)
    ensures Where(txs, p) == Where(txs, q)
    ensures SumWhere(txs, p, f) == SumWhere(txs, q, f)
    decreases |txs|
  {
    if txs != [] {
      SameFilter(txs[1..], p, q, f);
    }
  }

  /** Every entry lands on exactly one side of a filter. */
  lemma {:induction false} WherePartition(txs: seq<Tx>, p: Tx -> bool, q: Tx -> bool)
    requires forall t :: q(t) == !p(t)
    ensures CountWhere(txs, p) + CountWhere(txs, q) == |txs|
    decreases |txs|
  {
    if txs != [] {
      WherePartition(txs[1..], p, q);
    }
  }

  /** Filtering keeps the relative order of the entries it keeps. */
  lemma {:induction false} WhereKeepsOrder(txs: seq<Tx>, p: Tx -> bool)
    requires IdsIncreasing(txs)
    ensures IdsIncreasing(Where(txs, p))
    decreases |txs|
  {
    if txs != [] {
      WhereKeepsOrder(txs[1..], p);
      var rest := Where(txs[1..], p);
      forall x | x in rest
        ensures txs[0].id < x.id
      {
        var j :| 0 <= j < |txs[1..]| && txs[1..][j] == x;
        assert txs[j + 1] == x;
      }
    }
  }

  /** A weaker filter counts at least as many entries. */
  lemma {:induction false} CountWhereMonotone(txs: seq<Tx>, p: Tx -> bool, q: Tx -> bool)
    requires forall i :: 0 <= i < |txs| && p(txs[i]) ==> q(txs[i])
    ensures CountWhere(txs, p) <= CountWhere(txs, q)
    decreases |txs|
  {
    if txs != [] {
      CountWhereMonotone(txs[1..], p, q);
    }
  }

  /** When every counted entry contributes the walk fee, the sum is the fee times the count. */
  lemma {:induction false} SumWhereFee(txs: seq<Tx>, p: Tx -> bool, f: Tx -> real)
    requires forall i :: 0 <= i < |txs| && p(txs[i]) ==> f(txs[i]) == WalkFee
    ensures SumWhere(txs, p, f) == WalkFee * CountWhere(txs, p) as real
    decreases |txs|
  {
    if txs != [] {
      var rest := txs[1..];
      assert forall i :: 0 <= i < |rest| && p(rest[i]) ==> f(rest[i]) == WalkFee by {
        forall i | 0 <= i < |rest| && p(rest[i]) ensures f(rest[i]) == WalkFee {
          assert rest[i] == txs[i + 1];
        }
      }
      SumWhereFee(rest, p, f);
      if p(txs[0]) {
        assert CountWhere(txs, p) == CountWhere(rest, p) + 1;
      } else {
        assert CountWhere(txs, p) == CountWhere(rest, p);
      }
    }
  }

  lemma {:induction false} SumWhereNonNegative(txs: seq<Tx>, p: Tx -> bool, f: Tx -> real)
    requires forall i :: 0 <= i < |txs| && p(txs[i]) ==> f(txs[i]) >= 0.0
    ensures SumWhere(txs, p, f) >= 0.0
    decreases |txs|
  {
    if txs != [] {
      SumWhereNonNegative(txs[1..], p, f);
    }
  }

  /** Nothing matching gives 0 for the count and for the sum. */
  lemma {:induction false} NoMatchIsZero(txs: seq<Tx>, p: Tx -> bool, f: Tx -> real)
    requires forall i :: 0 <= i < |txs| ==> !p(txs[i])
    ensures CountWhere(txs, p) == 0 && SumWhere(txs, p, f) == 0.0
    decreases |txs|
  {
    if txs != [] {
      NoMatchIsZero(txs[1..], p, f);
    }
  }

  // ---------------------------------------------------------------------------
  // `ORDER BY timestamp DESC` / `ASC`: an insertion sort on the timestamp.
  // ---------------------------------------------------------------------------

  /** `a` may precede `b` in the requested order. */
  predicate Before(a: Tx, b: Tx, newestFirst: bool) {
    if newestFirst then TimestampLe(b.timestamp, a.timestamp) else TimestampLe(a.timestamp, b.timestamp)
  }

  predicate Ordered(txs: seq<Tx>, newestFirst: bool) {
    forall i, j :: 0 <= i < j < |txs| ==> Before(txs[i], txs[j], newestFirst)
  }

  /** Puts `t` in front of the first entry it may precede. */
  function InsertByTime(t: Tx, txs: seq<Tx>, newestFirst: bool): (r: seq<Tx>)
    ensures multiset(r) == multiset(txs) + multiset{t}
    decreases |txs|
  {
    if txs == [] then [t]
    else if Before(t, txs[0], newestFirst) then [t] + txs
    else
      assert txs == [txs[0]] + txs[1..];
      [txs[0]] + InsertByTime(t, txs[1..], newestFirst)
  }

  /** An entry that may precede every entry of an ordered sequence can head it. */
  lemma OrderedCons(a: Tx, rest: seq<Tx>, newestFirst: bool)
    requires Ordered(rest, newestFirst)
    requires forall x :: x in rest ==> Before(a, x, newestFirst)
    ensures Ordered([a] + rest, newestFirst)
  {
    var s := [a] + rest;
    forall i, j | 0 <= i < j < |s|
      ensures Before(s[i], s[j], newestFirst)
    {
      assert s[j] == rest[j - 1];
      if i > 0 {
        assert s[i] == rest[i - 1];
      }
    }
  }

  /** The head of an ordered sequence may precede every entry of it. */
  lemma HeadPrecedes(txs: seq<Tx>, newestFirst: bool)
    requires Ordered(txs, newestFirst) && txs != []
    ensures forall x :: x in txs[1..] ==> Before(txs[0], x, newestFirst)
  {
    forall x | x in txs[1..]
      ensures Before(txs[0], x, newestFirst)
    {
      var k :| 0 <= k < |txs[1..]| && txs[1..][k] == x;
      assert txs[k + 1] == x;
    }
  }

  /** An entry that may precede both `t` and every entry of `txs` may precede the result of inserting `t`. */
  lemma InsertKeepsBound(a: Tx, t: Tx, txs: seq<Tx>, newestFirst: bool)
    requires Before(a, t, newestFirst)
    requires forall x :: x in txs ==> Before(a, x, newestFirst)
    ensures forall x :: x in InsertByTime(t, txs, newestFirst) ==> Before(a, x, newestFirst)
  {
    var r := InsertByTime(t, txs, newestFirst);
    forall x | x in r
      ensures Before(a, x, newestFirst)
    {
      assert x in multiset(r);
      if x != t {
        assert x in multiset(txs);
      }
    }
  }

  /** Inserting into an ordered sequence keeps it ordered. */
  lemma {:induction false} InsertOrdered(t: Tx, txs: seq<Tx>, newestFirst: bool)
    requires Ordered(txs, newestFirst)
    ensures Ordered(InsertByTime(t, txs, newestFirst), newestFirst)
    decreases |txs|
  {
    if txs == [] {
    } else {
      var tail := txs[1..];
      HeadPrecedes(txs, newestFirst);
      assert txs == [txs[0]] + tail;
      assert Ordered(tail, newestFirst) by {
        forall i, j | 0 <= i < j < |tail|
          ensures Before(tail[i], tail[j], newestFirst)
        {
          assert tail[i] == txs[i + 1] && tail[j] == txs[j + 1];
        }
      }
      if Before(t, txs[0], newestFirst) {
        OrderedCons(t, txs, newestFirst);
      } else {
        InsertOrdered(t, tail, newestFirst);
        InsertKeepsBound(txs[0], t, tail, newestFirst);
        OrderedCons(txs[0], InsertByTime(t, tail, newestFirst), newestFirst);
      }
    }
  }

  /** The entries ordered by timestamp, newest first when `newestFirst`, oldest first otherwise. */
  function SortByTime(txs: seq<Tx>, newestFirst: bool): (r: seq<Tx>)
    ensures Ordered(r, newestFirst)
    ensures multiset(r) == multiset(txs)
    decreases |txs|
  {
    if txs == [] then []
    else
      assert txs == [txs[0]] + txs[1..];
      var rest := SortByTime(txs[1..], newestFirst);
      InsertOrdered(txs[0], rest, newestFirst);
      InsertByTime(txs[0], rest, newestFirst)
  }

  lemma {:induction false} InsertKeepsAggregates(t: Tx, txs: seq<Tx>, newestFirst: bool, p: Tx -> bool, f: Tx -> real)
    ensures CountWhere(InsertByTime(t, txs, newestFirst), p) == CountWhere(txs, p) + (if p(t) then 1 else 0)
    ensures SumWhere(InsertByTime(t, txs, newestFirst), p, f) == SumWhere(txs, p, f) + (if p(t) then f(t) else 0.0)
    decreases |txs|
  {
    if txs != [] && !Before(t, txs[0], newestFirst) {
      InsertKeepsAggregates(t, txs[1..], newestFirst, p, f);
    }
  }

  /** Reordering the log changes no count and no sum. */
  lemma {:induction false} SortKeepsAggregates(txs: seq<Tx>, newestFirst: bool, p: Tx -> bool, f: Tx -> real)
    ensures CountWhere(SortByTime(txs, newestFirst), p) == CountWhere(txs, p)
    ensures SumWhere(SortByTime(txs, newestFirst), p, f) == SumWhere(txs, p, f)
    decreases |txs|
  {
    if txs != [] {
      SortKeepsAggregates(txs[1..], newestFirst, p, f);
      InsertKeepsAggregates(txs[0], SortByTime(txs[1..], newestFirst), newestFirst, p, f);
    }
  }

  // ---------------------------------------------------------------------------
  // Read queries.
  // ---------------------------------------------------------------------------

  function Abs(x: real): real {
    if x < 0.0 then -x else x
  }

  predicate IsWalk(t: Tx) {
    t.kind == Walk
  }

  predicate IsPaymentOrCredit(t: Tx) {
    t.kind == Payment || t.kind == CreditGiven
  }

  /** Every walk entry carries the walk fee; `add_walk` is the only writer of walks. */
  predicate WalksEarnFee(txs: seq<Tx>) {
    forall i :: 0 <= i < |txs| && txs[i].kind == Walk ==> txs[i].amount == WalkFee
  }

  datatype WeeklyReport = WeeklyReport(walkCount: nat, walkTotal: real, paymentTotal: real)

  /** `date(timestamp) >= date('now', '-7 days')`. */
  predicate InLastWeek(t: Tx, today: Date)
    requires IsCalendarDate(today)
  {
    DateLe(SubDays(today, 7), t.timestamp.date)
  }

  /** `get_weekly_report_data`: walks and money received on or after the day a week before today. */
  function WeeklyReportData(log: seq<Tx>, today: Date): WeeklyReport
    requires IsCalendarDate(today)
  {
    var walk := (t: Tx) => IsWalk(t) && InLastWeek(t, today);
    var paid := (t: Tx) => IsPaymentOrCredit(t) && InLastWeek(t, today);
    WeeklyReport(CountWhere(log, walk), SumWhere(log, walk, (t: Tx) => t.amount), SumWhere(log, paid, (t: Tx) => Abs(t.amount)))
  }

  /** The money received is never negative, and every walk of the week earns the fee. */
  lemma WeeklyReportTotals(log: seq<Tx>, today: Date)
    requires IsCalendarDate(today) && WalksEarnFee(log)
    ensures WeeklyReportData(log, today).paymentTotal >= 0.0
    ensures WeeklyReportData(log, today).walkTotal == WalkFee * WeeklyReportData(log, today).walkCount as real
  {
    var walk := (t: Tx) => IsWalk(t) && InLastWeek(t, today);
    var paid := (t: Tx) => IsPaymentOrCredit(t) && InLastWeek(t, today);
    SumWhereNonNegative(log, paid, (t: Tx) => Abs(t.amount));
    SumWhereFee(log, walk, (t: Tx) => t.amount);
  }

  /** A week without walks, or without money received, reports zero for them. */
  lemma WeeklyReportEmpty(log: seq<Tx>, today: Date)
    requires IsCalendarDate(today)
    ensures (forall i :: 0 <= i < |log| ==> !(IsWalk(log[i]) && InLastWeek(log[i], today)))
            ==> WeeklyReportData(log, today).walkCount == 0 && WeeklyReportData(log, today).walkTotal == 0.0
    ensures (forall i :: 0 <= i < |log| ==> !(IsPaymentOrCredit(log[i]) && InLastWeek(log[i], today)))
            ==> WeeklyReportData(log, today).paymentTotal == 0.0
  {
    var walk := (t: Tx) => IsWalk(t) && InLastWeek(t, today);
    var paid := (t: Tx) => IsPaymentOrCredit(t) && InLastWeek(t, today);
    if forall i :: 0 <= i < |log| ==> !walk(log[i]) {
      NoMatchIsZero(log, walk, (t: Tx) => t.amount);
    }
    if forall i :: 0 <= i < |log| ==> !paid(log[i]) {
      NoMatchIsZero(log, paid, (t: Tx) => Abs(t.amount));
    }
  }

  /** A walk recorded today is in this week's report. */
  lemma WalkTodayCountsThisWeek(log: seq<Tx>, t: Tx, today: Date)
    requires IsCalendarDate(today) && t.kind == Walk && t.timestamp.date == today
    ensures WeeklyReportData(log + [t], today).walkCount == WeeklyReportData(log, today).walkCount + 1
  {
    var walk := (t: Tx) => IsWalk(t) && InLastWeek(t, today);
    WhereAppend(log, [t], walk);
  }

  /** `get_all_transactions_for_report`: every entry, `ORDER BY timestamp DESC`. */
  function AllTransactionsForReport(log: seq<Tx>): (r: seq<Tx>)
    ensures Ordered(r, true) && multiset(r) == multiset(log)
  {
    SortByTime(log, true)
  }

  datatype StatsSummary = StatsSummary(totalWalks: nat, totalEarned: real, walksToday: nat)

  /** `get_stats_summary`. */
  function GetStatsSummary(log: seq<Tx>, today: Date): StatsSummary {
    StatsSummary(
      CountWhere(log, IsWalk),
      SumWhere(log, IsWalk, (t: Tx) => t.amount),
      CountWhere(log, (t: Tx) => IsWalk(t) && t.timestamp.date == today))
  }

  lemma StatsSummaryFacts(log: seq<Tx>, today: Date)
    ensures GetStatsSummary(log, today).walksToday <= GetStatsSummary(log, today).totalWalks
    ensures WalksEarnFee(log) ==> GetStatsSummary(log, today).totalEarned == WalkFee * GetStatsSummary(log, today).totalWalks as real
  {
    CountWhereMonotone(log, (t: Tx) => IsWalk(t) && t.timestamp.date == today, IsWalk);
    if WalksEarnFee(log) {
      SumWhereFee(log, IsWalk, (t: Tx) => t.amount);
    }
  }

  // ---------------------------------------------------------------------------
  // The store.
  // ---------------------------------------------------------------------------

  /** `UPDATE balance SET current_balance = current_balance + delta WHERE id = 1`: no row, no change. */
  function AddToCell(cell: Option<real>, delta: real): Option<real> {
    match cell
    case Some(b) => Some(b + delta)
    case None => None
  }

  /** `UPDATE balance SET current_balance = amount WHERE id = 1`. */
  function SetCell(cell: Option<real>, amount: real): Option<real> {
    match cell
    case Some(_) => Some(amount)
    case None => None
  }

  /** Ids are assigned in increasing order and never reused (`AUTOINCREMENT`). */
  predicate IdsIncreasing(log: seq<Tx>) {
    forall i, j :: 0 <= i < j < |log| ==> log[i].id < log[j].id
  }

  class Store {
    /** The `transactions` table, in insertion order. */
    var log: seq<Tx>
    /** The row `id = 1` of the `balance` table, absent before `init_db`. */
    var balanceRow: Option<real>
    /** The id the next inserted row receives. */
    var nextId: nat

    ghost predicate Valid()
      reads this
    {
      0 < nextId && IdsIncreasing(log)
      && (forall i :: 0 <= i < |log| ==> 0 < log[i].id < nextId)
      && WalksEarnFee(log)
    }

    /** The balance cell holds the fold of the log from a zero start. */
    predicate InSync()
      reads this
    {
      balanceRow == Some(Replay(log, 0.0))
    }

    /** A database file with no rows yet. */
    constructor ()
      ensures Valid()
      ensures log == [] && balanceRow == None && nextId == 1
    {
      log := [];
      balanceRow := None;
      nextId := 1;
    }

    /** `init_db`: inserts the 0.0 balance row only when there is none. */
    method InitDb()
      requires Valid()
      modifies this
      ensures Valid()
      ensures log == old(log) && nextId == old(nextId)
      ensures balanceRow == if old(balanceRow).None? then Some(0.0) else old(balanceRow)
      ensures old(balanceRow).None? && log == [] ==> InSync()
      ensures old(InSync()) ==> InSync()
    {
      if balanceRow.None? {
        balanceRow := Some(0.0);
      }
    }

    /** `get_current_balance`: the cell, or 0.0 when the row is missing. */
    function CurrentBalance(): (b: real)
      reads this
      ensures InSync() ==> b == Replay(log, 0.0)
      ensures balanceRow.None? ==> b == 0.0
    {
      match balanceRow
      case Some(v) => v
      case None => 0.0
    }

    /** The `INSERT INTO transactions` every mutator starts with. */
    method Insert(now: Timestamp, amount: real, kind: Kind, note: Note)
      requires Valid() && (kind == Walk ==> amount == WalkFee)
      modifies this
      ensures Valid()
      ensures log == old(log) + [Tx(old(nextId), now, amount, kind, note)]
      ensures nextId == old(nextId) + 1 && balanceRow == old(balanceRow)
    {
      log := log + [Tx(nextId, now, amount, kind, note)];
      nextId := nextId + 1;
    }

    /** `add_walk`. */
    method AddWalk(now: Timestamp)
      requires Valid()
      modifies this
      ensures Valid()
      ensures log == old(log) + [Tx(old(nextId), now, WalkFee, Walk, Plain("Dog walk"))]
      ensures nextId == old(nextId) + 1
      ensures balanceRow == AddToCell(old(balanceRow), WalkFee)
      ensures old(balanceRow).Some? ==> CurrentBalance() == old(CurrentBalance()) + WalkFee
      ensures old(InSync()) ==> InSync()
    {
      Insert(now, WalkFee, Walk, Plain("Dog walk"));
      balanceRow := AddToCell(balanceRow, WalkFee);
      ReplayAppend(old(log), log[|log| - 1], 0.0);
    }

    /** `set_initial_balance`: logs the target value and sets the cell to it. */
    method SetInitialBalance(now: Timestamp, amount: real)
      requires Valid()
      modifies this
      ensures Valid()
      ensures log == old(log) + [Tx(old(nextId), now, amount, InitialBalance,
                                    AboutAmount("Initial balance set to ", amount, " MDL"))]
      ensures nextId == old(nextId) + 1
      ensures balanceRow == SetCell(old(balanceRow), amount)
      ensures old(balanceRow).Some? ==> CurrentBalance() == amount
      ensures old(InSync()) ==> InSync()
    {
      Insert(now, amount, InitialBalance, AboutAmount("Initial balance set to ", amount, " MDL"));
      balanceRow := SetCell(balanceRow, amount);
      ReplayAppend(old(log), log[|log| - 1], 0.0);
    }

    /** `record_payment`: logs `-amount` and takes `amount` off the cell. */
    method RecordPayment(now: Timestamp, amount: real, note: Note)
      requires Valid()
      modifies this
      ensures Valid()
      ensures log == old(log) + [Tx(old(nextId), now, -amount, Payment, note)]
      ensures nextId == old(nextId) + 1
      ensures balanceRow == AddToCell(old(balanceRow), -amount)
      ensures old(balanceRow).Some? ==> CurrentBalance() == old(CurrentBalance()) - amount
      ensures old(InSync()) ==> InSync()
    {
      Insert(now, -amount, Payment, note);
      balanceRow := AddToCell(balanceRow, -amount);
      ReplayAppend(old(log), log[|log| - 1], 0.0);
    }

    /** `record_credit_given`: logs `-amount` and takes `amount` off the cell. */
    method RecordCreditGiven(now: Timestamp, amount: real, note: Note)
      requires Valid()
      modifies this
      ensures Valid()
      ensures log == old(log) + [Tx(old(nextId), now, -amount, CreditGiven, note)]
      ensures nextId == old(nextId) + 1
      ensures balanceRow == AddToCell(old(balanceRow), -amount)
      ensures old(balanceRow).Some? ==> CurrentBalance() == old(CurrentBalance()) - amount
      ensures old(InSync()) ==> InSync()
    {
      Insert(now, -amount, CreditGiven, note);
      balanceRow := AddToCell(balanceRow, -amount);
      ReplayAppend(old(log), log[|log| - 1], 0.0);
    }
  }

  /** A walk, a payment of 30, then a reset to 0, on a freshly initialised store. */
  method ScenarioWalkPaymentReset(t1: Timestamp, t2: Timestamp, t3: Timestamp)
  {
    var store := new Store();
    store.InitDb();
    store.AddWalk(t1);
    store.RecordPayment(t2, 30.0, Plain("Full settlement"));
    assert store.CurrentBalance() == 45.0;
    store.SetInitialBalance(t3, 0.0);
    assert store.CurrentBalance() == 0.0;
    assert |store.log| == 3 && store.log[2].kind == InitialBalance && store.log[2].amount == 0.0;
    assert store.InSync();
  }
}
