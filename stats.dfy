/**
 * `BotStatsManager`: the running bot's activity counter and the statistics snapshot
 * the display shows.  The clock is a parameter: `now` for the moments the manager
 * records, and the uptime in seconds that `get_stats` reports.
 */
module BotStats {
  import opened Calendar
  import opened Ledger

  /** The snapshot `get_stats` returns. */
  datatype Stats = Stats(
    botRunning: bool,
    uptime: real,
    currentBalance: real,
    totalWalks: nat,
    walksToday: nat,
    totalEarned: real,
    messageCount: nat,
    lastActivity: Timestamp)

  /** The three ledger figures of the snapshot: walks, walks made today, and their earnings. */
  datatype Totals = Totals(totalWalks: nat, walksToday: nat, totalEarned: real)

  /** The aggregation `get_stats` runs over the listed transactions. */
  function TotalsOf(transactions: seq<Tx>, today: Date): (t: Totals)
    ensures t.walksToday <= t.totalWalks
  {
    CountWhereMonotone(transactions, (t: Tx) => IsWalk(t) && t.timestamp.date == today, IsWalk);
    Totals(
      CountWhere(transactions, IsWalk),
      CountWhere(transactions, (t: Tx) => IsWalk(t) && t.timestamp.date == today),
      SumWhere(transactions, IsWalk, (t: Tx) => t.amount))
  }

  /**
   * Counting over the newest-first listing gives the same figures as the store's own
   * summary query, and every walk earns the fee.
   */
  lemma TotalsAgreeWithSummary(log: seq<Tx>, today: Date)
    ensures var t := TotalsOf(AllTransactionsForReport(log), today);
      var s := GetStatsSummary(log, today);
      t.totalWalks == s.totalWalks && t.walksToday == s.walksToday && t.totalEarned == s.totalEarned
    ensures WalksEarnFee(log) ==>
      TotalsOf(AllTransactionsForReport(log), today).totalEarned
        == WalkFee * TotalsOf(AllTransactionsForReport(log), today).totalWalks as real
  {
    var today' := (t: Tx) => IsWalk(t) && t.timestamp.date == today;
    var amount := (t: Tx) => t.amount;
    SortKeepsAggregates(log, true, IsWalk, amount);
    SortKeepsAggregates(log, true, today', amount);
    StatsSummaryFacts(log, today);
  }

  class StatsManager {
    var startTime: Timestamp
    var botRunning: bool
    var lastActivity: Timestamp
    var messageCount: nat

    /** `__init__`: not running yet and no message seen. */
    constructor (now: Timestamp)
      ensures startTime == now && lastActivity == now
      ensures !botRunning && messageCount == 0
    {
      startTime := now;
      botRunning := false;
      lastActivity := now;
      messageCount := 0;
    }

    /** `record_activity`: one more message, seen at `now`. */
    method RecordActivity(now: Timestamp)
      modifies this
      ensures messageCount == old(messageCount) + 1 && lastActivity == now
      ensures startTime == old(startTime) && botRunning == old(botRunning)
    {
      lastActivity := now;
      messageCount := messageCount + 1;
    }

    /**
     * `get_stats`: the manager's own fields, the stored balance cell as it is (not a
     * recomputation from the ledger), and the totals over all transactions.
     */
    function GetStats(store: Store, today: Date, uptime: real): (s: Stats)
      reads this, store
      ensures s.botRunning == botRunning && s.messageCount == messageCount
      ensures s.lastActivity == lastActivity && s.uptime == uptime
      ensures s.currentBalance == store.CurrentBalance()
      ensures s.walksToday <= s.totalWalks
      ensures s.totalWalks == GetStatsSummary(store.log, today).totalWalks
      ensures s.walksToday == GetStatsSummary(store.log, today).walksToday
      ensures s.totalEarned == GetStatsSummary(store.log, today).totalEarned
    {
      TotalsAgreeWithSummary(store.log, today);
      var t := TotalsOf(AllTransactionsForReport(store.log), today);
      Stats(botRunning, uptime, store.CurrentBalance(), t.totalWalks, t.walksToday,
            t.totalEarned, messageCount, lastActivity)
    }
  }

  /** Three messages counted from a fresh manager. */
  method ScenarioThreeMessages(t0: Timestamp, t1: Timestamp, t2: Timestamp, t3: Timestamp)
  {
    var stats := new StatsManager(t0);
    stats.RecordActivity(t1);
    stats.RecordActivity(t2);
    stats.RecordActivity(t3);
    assert stats.messageCount == 3 && stats.lastActivity == t3 && !stats.botRunning;
  }
}
