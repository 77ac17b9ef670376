/**
 * Range cleanup of the detailed report: `validate_date`, `clean_detailed_report`,
 * `get_report_entries` and `get_total_transactions_count`.
 *
 * Date texts are checked the way `datetime.strptime(text, "%Y-%m-%d")` checks them:
 * four digits for the year, a one- or two-digit month, a day that may also be
 * written with one digit or a leading space, nothing left over, and a date that
 * exists in years 1 to 9999.  Failures of the database itself enter as the
 * parameter `dbError`.
 */
module ReportCleanup {
  import opened Wrappers
  import opened Calendar
  import opened Ledger

  // ---------------------------------------------------------------------------
  // strptime with "%Y-%m-%d"

  /** An ASCII decimal digit. */
  predicate IsDigit(c: char) {
    '0' <= c <= '9'
  }

  function DigitValue(c: char): (n: int)
    requires IsDigit(c)
    ensures 0 <= n <= 9
  {
    c as int - '0' as int
  }

  /** The year written by the first four characters, all digits. */
  function YearValue(s: string): (y: int)
    requires |s| >= 4 && IsDigit(s[0]) && IsDigit(s[1]) && IsDigit(s[2]) && IsDigit(s[3])
    ensures 0 <= y <= 9999
  {
    1000 * DigitValue(s[0]) + 100 * DigitValue(s[1]) + 10 * DigitValue(s[2]) + DigitValue(s[3])
  }

  /**
   * `%m` followed by `-`: the month pattern `1[0-2]|0[1-9]|[1-9]`.  Which alternative
   * applies is fixed by where the dash is.  Yields the month and the text after the dash.
   */
  function MatchMonthDash(s: string): (r: Option<(int, string)>)
    ensures r.Some? ==> 1 <= r.value.0 <= 12
  {
    if |s| >= 3 && s[0] == '1' && '0' <= s[1] <= '2' && s[2] == '-' then
      Some((10 + DigitValue(s[1]), s[3..]))
    else if |s| >= 3 && s[0] == '0' && '1' <= s[1] <= '9' && s[2] == '-' then
      Some((DigitValue(s[1]), s[3..]))
    else if |s| >= 2 && '1' <= s[0] <= '9' && s[1] == '-' then
      Some((DigitValue(s[0]), s[2..]))
    else
      None
  }

  /**
   * `%d`: the first alternative of `3[01]|[12]\d|0[1-9]|[1-9]| [1-9]` that matches at
   * the start of `s`.  Yields the day and the text after it.
   */
  function MatchDay(s: string): (r: Option<(int, string)>)
    ensures r.Some? ==> 1 <= r.value.0 <= 31
  {
    if |s| >= 2 && s[0] == '3' && (s[1] == '0' || s[1] == '1') then
      Some((30 + DigitValue(s[1]), s[2..]))
    else if |s| >= 2 && (s[0] == '1' || s[0] == '2') && IsDigit(s[1]) then
      Some((10 * DigitValue(s[0]) + DigitValue(s[1]), s[2..]))
    else if |s| >= 2 && s[0] == '0' && '1' <= s[1] <= '9' then
      Some((DigitValue(s[1]), s[2..]))
    else if |s| >= 1 && '1' <= s[0] <= '9' then
      Some((DigitValue(s[0]), s[1..]))
    else if |s| >= 2 && s[0] == ' ' && '1' <= s[1] <= '9' then
      Some((DigitValue(s[1]), s[2..]))
    else
      None
  }

  /** The `%Y-%m-%d` pattern over the whole text; `None` also when text is left over. */
  function MatchIsoPattern(text: string): (r: Option<Date>)
    ensures r.Some? ==> 0 <= r.value.year <= 9999 && 1 <= r.value.month <= 12 && 1 <= r.value.day <= 31
  {
    if |text| < 5 || !IsDigit(text[0]) || !IsDigit(text[1]) || !IsDigit(text[2])
       || !IsDigit(text[3]) || text[4] != '-' then
      None
    else
      match MatchMonthDash(text[5..])
      case None => None
      case Some(md) =>
        match MatchDay(md.1)
        case None => None
        case Some(dd) => if dd.1 != [] then None else Some(Date(YearValue(text), md.0, dd.0))
  }

  function DateFormatError(text: string): string {
    "Incorrect date format for '" + text + "', should be YYYY-MM-DD"
  }

  // ---------------------------------------------------------------------------
  // The texts `%Y-%m-%d` accepts, described by their shape

  /** A month as `%m` reads it: two digits, or one digit for January to September. */
  predicate SpellsMonth(s: string, m: int) {
    1 <= m <= 12 && (s == Pad2(m) || (m <= 9 && s == [DigitChar(m)]))
  }

  /** A day as `%d` reads it: two digits, or for the first nine days one digit, alone or after a space. */
  predicate SpellsDay(s: string, d: int) {
    1 <= d <= 31 && (s == Pad2(d) || (d <= 9 && (s == [DigitChar(d)] || s == [' ', DigitChar(d)])))
  }

  /**
   * `text` writes `d` as its four year digits, a dash, the month, a dash and the day,
   * with nothing after the day.
   */
  predicate Spells(text: string, d: Date) {
    0 <= d.year <= 9999 && |text| >= 5 && text[..4] == Pad4(d.year) && text[4] == '-'
    && exists k :: 5 < k < |text| && text[k] == '-' && SpellsMonth(text[5..k], d.month) && SpellsDay(text[k + 1..], d.day)
  }

  lemma DigitCharValue(n: int)
    requires 0 <= n <= 9
    ensures IsDigit(DigitChar(n)) && DigitValue(DigitChar(n)) == n
  {
  }

  lemma DigitValueChar(c: char)
    requires IsDigit(c)
    ensures DigitChar(DigitValue(c)) == c
  {
  }

  lemma Pad4Value(y: int)
    requires 0 <= y <= 9999
    ensures YearValue(Pad4(y)) == y
  {
    var s := Pad4(y);
    var a, b := y / 100, y % 100;
    DigitCharValue(a / 10);
    DigitCharValue(a % 10);
    DigitCharValue(b / 10);
    DigitCharValue(b % 10);
    assert s == [DigitChar(a / 10), DigitChar(a % 10), DigitChar(b / 10), DigitChar(b % 10)];
    assert y == 100 * a + b && a == 10 * (a / 10) + a % 10 && b == 10 * (b / 10) + b % 10;
  }

  /** Four digits are the zero-padded year they denote. */
  lemma YearDigits(text: string)
    requires |text| >= 4 && IsDigit(text[0]) && IsDigit(text[1]) && IsDigit(text[2]) && IsDigit(text[3])
    ensures Pad4(YearValue(text)) == text[..4]
  {
    var y := YearValue(text);
    var a, b, c, e := DigitValue(text[0]), DigitValue(text[1]), DigitValue(text[2]), DigitValue(text[3]);
    assert y / 100 == 10 * a + b && y % 100 == 10 * c + e;
    assert (10 * a + b) / 10 == a && (10 * a + b) % 10 == b;
    assert (10 * c + e) / 10 == c && (10 * c + e) % 10 == e;
    DigitValueChar(text[0]);
    DigitValueChar(text[1]);
    DigitValueChar(text[2]);
    DigitValueChar(text[3]);
    assert Pad4(y) == [text[0], text[1], text[2], text[3]];
  }

  /** What `%m-` matches is a month spelling, then the dash at `j`. */
  lemma MonthDashSpelled(s: string) returns (j: nat)
    requires MatchMonthDash(s).Some?
    ensures 0 < j < |s| && s[j] == '-'
    ensures SpellsMonth(s[..j], MatchMonthDash(s).value.0) && MatchMonthDash(s).value.1 == s[j + 1..]
  {
    if |s| >= 3 && s[0] == '1' && '0' <= s[1] <= '2' && s[2] == '-' {
      j := 2;
      DigitValueChar(s[1]);
      assert (10 + DigitValue(s[1])) % 10 == DigitValue(s[1]);
      assert s[..2] == [s[0], s[1]];
    } else if |s| >= 3 && s[0] == '0' && '1' <= s[1] <= '9' && s[2] == '-' {
      j := 2;
      DigitValueChar(s[1]);
      assert s[..2] == [s[0], s[1]];
    } else {
      j := 1;
      DigitValueChar(s[0]);
      assert s[..1] == [s[0]];
    }
  }

  /** What `%d` matches with nothing left over is a day spelling. */
  lemma DaySpelled(s: string)
    requires MatchDay(s).Some? && MatchDay(s).value.1 == []
    ensures SpellsDay(s, MatchDay(s).value.0)
  {
    var d := MatchDay(s).value.0;
    if |s| >= 2 && s[0] == '3' && (s[1] == '0' || s[1] == '1') {
      assert |s[2..]| == 0;
      DigitValueChar(s[1]);
      assert d / 10 == 3 && d % 10 == DigitValue(s[1]);
      assert s == [s[0], s[1]];
    } else if |s| >= 2 && (s[0] == '1' || s[0] == '2') && IsDigit(s[1]) {
      assert |s[2..]| == 0;
      DigitValueChar(s[0]);
      DigitValueChar(s[1]);
      assert d / 10 == DigitValue(s[0]) && d % 10 == DigitValue(s[1]);
      assert s == [s[0], s[1]];
    } else if |s| >= 2 && s[0] == '0' && '1' <= s[1] <= '9' {
      assert |s[2..]| == 0;
      DigitValueChar(s[1]);
      assert s == [s[0], s[1]];
    } else if |s| >= 1 && '1' <= s[0] <= '9' {
      assert |s[1..]| == 0;
      DigitValueChar(s[0]);
      assert s == [s[0]];
    } else {
      assert |s[2..]| == 0;
      DigitValueChar(s[1]);
      assert s == [s[0], s[1]];
    }
  }

  /** The `%Y-%m-%d` pattern matches only texts that spell the date it yields. */
  lemma MatchIsoPatternSpells(text: string)
    ensures MatchIsoPattern(text).Some? ==> Spells(text, MatchIsoPattern(text).value)
  {
    if MatchIsoPattern(text).Some? {
      var d := MatchIsoPattern(text).value;
      YearDigits(text);
      var s := text[5..];
      var j := MonthDashSpelled(s);
      var rest := s[j + 1..];
      DaySpelled(rest);
      var k := 5 + j;
      assert text[k] == '-' && text[5..k] == s[..j] && text[k + 1..] == rest;
    }
  }

  /**
   * `validate_date`: the date the text denotes, or the one message for every kind of
   * failure.  An accepted text spells the real date it yields.
   */
  function ValidateDate(text: string): (r: Result<Date, string>)
    ensures r.Ok? ==> IsRealDate(r.value) && InIsoRange(r.value) && Spells(text, r.value)
    ensures r.Err? ==> r.error == DateFormatError(text)
  {
    MatchIsoPatternSpells(text);
    match MatchIsoPattern(text)
    case None => Err(DateFormatError(text))
    case Some(d) => if IsRealDate(d) then Ok(d) else Err(DateFormatError(text))
  }

  /** A month spelling followed by a dash matches `%m-`, whatever follows. */
  lemma MonthDashOfSpelling(ms: string, m: int, rest: string)
    requires SpellsMonth(ms, m)
    ensures MatchMonthDash(ms + "-" + rest) == Some((m, rest))
  {
    var s := ms + "-" + rest;
    DigitCharValue(m / 10);
    DigitCharValue(m % 10);
    if ms == Pad2(m) {
      assert s[0] == DigitChar(m / 10) && s[1] == DigitChar(m % 10) && s[2] == '-';
      assert s[3..] == rest;
    } else {
      DigitCharValue(m);
      assert s[0] == DigitChar(m) && s[1] == '-';
      assert s[2..] == rest;
    }
  }

  /** A day spelling matches `%d` and leaves nothing over. */
  lemma DayOfSpelling(ds: string, d: int)
    requires SpellsDay(ds, d)
    ensures MatchDay(ds) == Some((d, []))
  {
    DigitCharValue(d / 10);
    DigitCharValue(d % 10);
    if ds == Pad2(d) {
      assert ds[2..] == [];
    } else if ds == [DigitChar(d)] {
      DigitCharValue(d);
      assert ds[1..] == [];
    } else {
      DigitCharValue(d);
      assert ds[2..] == [];
    }
  }

  /** A text starting with a zero-padded year starts with four digits denoting it. */
  lemma YearOfSpelling(text: string, y: int)
    requires 0 <= y <= 9999 && |text| >= 4 && text[..4] == Pad4(y)
    ensures IsDigit(text[0]) && IsDigit(text[1]) && IsDigit(text[2]) && IsDigit(text[3])
    ensures YearValue(text) == y
  {
    var p := Pad4(y);
    Pad4Value(y);
    DigitCharValue(y / 100 / 10);
    DigitCharValue(y / 100 % 10);
    DigitCharValue(y % 100 / 10);
    DigitCharValue(y % 100 % 10);
    assert p == [DigitChar(y / 100 / 10), DigitChar(y / 100 % 10), DigitChar(y % 100 / 10), DigitChar(y % 100 % 10)];
    assert text[0] == p[0] && text[1] == p[1] && text[2] == p[2] && text[3] == p[3] by {
      assert text[..4][0] == text[0] && text[..4][1] == text[1] && text[..4][2] == text[2] && text[..4][3] == text[3];
    }
  }

  /** After the year's dash, a month spelling, the dash at `k` and a day spelling match `%m-%d` exactly. */
  lemma MonthDayOfSpelling(text: string, k: int, m: int, d: int)
    requires 5 < k < |text| && text[k] == '-' && SpellsMonth(text[5..k], m) && SpellsDay(text[k + 1..], d)
    ensures MatchMonthDash(text[5..]) == Some((m, text[k + 1..]))
    ensures MatchDay(text[k + 1..]) == Some((d, []))
  {
    assert text[5..] == text[5..k] + "-" + text[k + 1..];
    MonthDashOfSpelling(text[5..k], m, text[k + 1..]);
    DayOfSpelling(text[k + 1..], d);
  }

  /** Every text that spells a real date is accepted as that date. */
  lemma ValidateDateComplete(text: string, d: Date)
    requires IsRealDate(d) && Spells(text, d)
    ensures ValidateDate(text) == Ok(d)
  {
    var k :| 5 < k < |text| && text[k] == '-' && SpellsMonth(text[5..k], d.month) && SpellsDay(text[k + 1..], d.day);
    YearOfSpelling(text, d.year);
    MonthDayOfSpelling(text, k, d.month, d.day);
  }

  /** `validate_date` accepts a text as a date exactly when the text spells that real date. */
  lemma ValidateDateExact(text: string, d: Date)
    ensures ValidateDate(text) == Ok(d) <==> IsRealDate(d) && Spells(text, d)
  {
    if IsRealDate(d) && Spells(text, d) {
      ValidateDateComplete(text, d);
    }
  }

  /** Every real date written zero-padded, as the ledger's timestamps write it, is accepted as itself. */
  lemma ValidateIsoDate(d: Date)
    requires IsRealDate(d)
    ensures ValidateDate(IsoDate(d)) == Ok(d)
  {
    var text := IsoDate(d);
    assert text == Pad4(d.year) + "-" + Pad2(d.month) + "-" + Pad2(d.day);
    assert text[..4] == Pad4(d.year);
    assert text[5..7] == Pad2(d.month) && text[8..] == Pad2(d.day);
    assert Spells(text, d);
    ValidateDateComplete(text, d);
  }

  /** A text that is not a real date, or has text left over, is rejected with the text in the message. */
  lemma ValidateRejectsNonDate()
    ensures ValidateDate("2023-02-29") == Err(DateFormatError("2023-02-29"))
    ensures ValidateDate("2024-01-5 ").Err?
  {
    assert MatchIsoPattern("2023-02-29") == Some(Date(2023, 2, 29));
    var t := "2024-01-5 ";
    assert MatchMonthDash(t[5..]) == Some((1, "5 "));
    assert MatchDay("5 ") == Some((5, " "));
  }

  /** A leap day of a leap year is accepted, and so are months and days of one digit. */
  lemma ValidateAcceptsExamples()
    ensures ValidateDate("2024-02-29") == Ok(Date(2024, 2, 29))
    ensures ValidateDate("2024-1-5") == Ok(Date(2024, 1, 5))
  {
    assert MatchIsoPattern("2024-02-29") == Some(Date(2024, 2, 29));
    assert MatchIsoPattern("2024-1-5") == Some(Date(2024, 1, 5));
  }

  // ---------------------------------------------------------------------------
  // clean_detailed_report

  datatype CleanupResult = CleanupResult(success: bool, deletedCount: nat, error: Option<string>)

  const RangeOrderError: string := "from_date must be before or equal to to_date"

  /** The validated range, or the message the first failing check raises. */
  function CheckRange(fromText: string, toText: string): (r: Result<(Date, Date), string>)
    ensures r.Ok? <==> ValidateDate(fromText).Ok? && ValidateDate(toText).Ok?
                       && DateLe(ValidateDate(fromText).value, ValidateDate(toText).value)
    ensures r.Ok? ==> r.value == (ValidateDate(fromText).value, ValidateDate(toText).value)
    ensures ValidateDate(fromText).Err? ==> r == Err(DateFormatError(fromText))
    ensures ValidateDate(fromText).Ok? && ValidateDate(toText).Err? ==> r == Err(DateFormatError(toText))
    ensures (ValidateDate(fromText).Ok? && ValidateDate(toText).Ok?
             && DateLt(ValidateDate(toText).value, ValidateDate(fromText).value)) ==> r == Err(RangeOrderError)
  {
    match ValidateDate(fromText)
    case Err(e) => Err(e)
    case Ok(from) =>
      match ValidateDate(toText)
      case Err(e) => Err(e)
      case Ok(to) => if DateLt(to, from) then Err(RangeOrderError) else Ok((from, to))
  }

  /** The entry was made on a day from `from` to `to`, both included. */
  predicate InRange(t: Tx, from: Date, to: Date) {
    DateLe(from, t.timestamp.date) && DateLe(t.timestamp.date, to)
  }

  function CountInRange(log: seq<Tx>, from: Date, to: Date): nat {
    CountWhere(log, (t: Tx) => InRange(t, from, to))
  }

  /** What the delete leaves: the entries outside the range, in their order. */
  function Survivors(log: seq<Tx>, from: Date, to: Date): seq<Tx> {
    Where(log, (t: Tx) => !InRange(t, from, to))
  }

  /** The `SELECT COUNT(*)` over the range: one pass over the ledger. */
  method CountRange(log: seq<Tx>, from: Date, to: Date) returns (count: nat)
    ensures count == CountInRange(log, from, to)
  {
    var inRange := (t: Tx) => InRange(t, from, to);
    count := 0;
    var i := 0;
    while i < |log|
      invariant 0 <= i <= |log|
      invariant count == CountWhere(log[..i], inRange)
    {
      assert log[..i + 1] == log[..i] + [log[i]];
      WhereAppend(log[..i], [log[i]], inRange);
      if InRange(log[i], from, to) {
        count := count + 1;
      }
      i := i + 1;
    }
    assert log[..|log|] == log;
  }

  /** The `DELETE` over the range: one pass keeping the entries outside it. */
  method DeleteRange(log: seq<Tx>, from: Date, to: Date) returns (kept: seq<Tx>)
    ensures kept == Survivors(log, from, to)
  {
    var outside := (t: Tx) => !InRange(t, from, to);
    kept := [];
    var i := 0;
    while i < |log|
      invariant 0 <= i <= |log|
      invariant kept == Where(log[..i], outside)
    {
      assert log[..i + 1] == log[..i] + [log[i]];
      WhereAppend(log[..i], [log[i]], outside);
      if !InRange(log[i], from, to) {
        kept := kept + [log[i]];
      }
      i := i + 1;
    }
    assert log[..|log|] == log;
  }

  /**
   * `clean_detailed_report`: validates both dates and their order, counts the entries
   * in the range and deletes them.  Any failure leaves the ledger as it was and reports
   * `success = false`, a count of 0 and the message.  The balance row is not touched.
   */
  method CleanDetailedReport(store: Store, fromText: string, toText: string, dbError: Option<string>)
    returns (result: CleanupResult)
    requires store.Valid()
    modifies store
    ensures store.Valid()
    ensures store.balanceRow == old(store.balanceRow) && store.nextId == old(store.nextId)
    ensures result.success <==> CheckRange(fromText, toText).Ok? && dbError.None?
    ensures !result.success ==> result.deletedCount == 0 && store.log == old(store.log)
    ensures CheckRange(fromText, toText).Err? ==> result.error == Some(CheckRange(fromText, toText).error)
    ensures CheckRange(fromText, toText).Ok? && dbError.Some? ==> result.error == dbError
    ensures result.success ==>
      var (from, to) := CheckRange(fromText, toText).value;
      result.error.None?
      && result.deletedCount == CountInRange(old(store.log), from, to)
      && store.log == Survivors(old(store.log), from, to)
  {
    result := CleanupResult(false, 0, None);
    var range := CheckRange(fromText, toText);
    if range.Err? {
      result := result.(error := Some(range.error));
      return;
    }
    if dbError.Some? {
      result := result.(error := dbError);
      return;
    }
    var (from, to) := range.value;
    var count := CountRange(store.log, from, to);
    var kept := DeleteRange(store.log, from, to);
    WhereKeepsOrder(store.log, (t: Tx) => !InRange(t, from, to));
    store.log := kept;
    result := CleanupResult(true, count, None);
  }
  /**
   * The delete splits the ledger: the count it reports plus what remains is what there
   * was, nothing in the range remains, and every entry outside it remains.
   */
  lemma CleanupPartition(log: seq<Tx>, from: Date, to: Date)
    ensures CountInRange(log, from, to) + |Survivors(log, from, to)| == |log|
    ensures forall t :: t in Survivors(log, from, to) ==> t in log && !InRange(t, from, to)
    ensures forall t :: t in log && !InRange(t, from, to) ==> t in Survivors(log, from, to)
  {
    WherePartition(log, (t: Tx) => InRange(t, from, to), (t: Tx) => !InRange(t, from, to));
    forall t | t in log
      ensures t in Survivors(log, from, to) <==> !InRange(t, from, to)
    {
      WhereKeeps(log, (t: Tx) => !InRange(t, from, to), t);
    }
  }

  /**
   * Deleting entries does not adjust the stored balance: on a fresh store, a walk is
   * recorded and its day is cleaned; the cleanup succeeds and removes the walk, while the
   * balance cell still counts its fee, so the cell no longer agrees with the ledger.
   */
  method CleanupLeavesBalanceStale(now: Timestamp) returns (result: CleanupResult, store: Store)
    requires IsRealDate(now.date)
    ensures result.success && result.deletedCount == 1
    ensures store.log == [] && store.balanceRow == Some(WalkFee) && !store.InSync()
  {
    store := new Store();
    store.InitDb();
    store.AddWalk(now);
    var day := IsoDate(now.date);
    ValidateIsoDate(now.date);
    assert InRange(store.log[0], now.date, now.date);
    assert store.log[1..] == [];
    result := CleanDetailedReport(store, day, day, None);
    assert Replay([], 0.0) == 0.0;
  }

  // ---------------------------------------------------------------------------
  // get_report_entries and get_total_transactions_count

  /** `get_report_entries`: the entries of the range, oldest first, or none when the query fails. */
  function GetReportEntries(log: seq<Tx>, from: Date, to: Date, dbError: Option<string>): (r: seq<Tx>)
    ensures dbError.Some? ==> r == []
    ensures Ordered(r, false)
  {
    if dbError.Some? then [] else SortByTime(Where(log, (t: Tx) => InRange(t, from, to)), false)
  }

  /** The report holds exactly the ledger's entries of the range, each as often as the ledger does. */
  lemma ReportEntriesExact(log: seq<Tx>, from: Date, to: Date)
    ensures var r := GetReportEntries(log, from, to, None);
      multiset(r) == multiset(Where(log, (t: Tx) => InRange(t, from, to)))
      && |r| == CountInRange(log, from, to)
      && forall t :: t in r <==> t in log && InRange(t, from, to)
  {
    var p := (t: Tx) => InRange(t, from, to);
    var r := GetReportEntries(log, from, to, None);
    assert multiset(r) == multiset(Where(log, p));
    assert |r| == |multiset(r)| == |multiset(Where(log, p))| == |Where(log, p)|;
    forall t
      ensures t in r <==> t in log && InRange(t, from, to)
    {
      assert t in r <==> t in multiset(r);
      assert t in Where(log, p) <==> t in multiset(Where(log, p));
      WhereKeeps(log, p, t);
    }
  }

  /** `get_total_transactions_count`: the number of ledger entries, or 0 when the query fails. */
  function GetTotalTransactionsCount(log: seq<Tx>, dbError: Option<string>): (n: nat)
    ensures dbError.Some? ==> n == 0
    ensures dbError.None? ==> n == |log|
  {
    if dbError.Some? then 0 else |log|
  }

  /** After a successful cleanup the total count has dropped by exactly the reported count. */
  lemma TotalAfterCleanup(log: seq<Tx>, from: Date, to: Date)
    ensures GetTotalTransactionsCount(Survivors(log, from, to), None)
         == GetTotalTransactionsCount(log, None) - CountInRange(log, from, to)
    ensures CountInRange(log, from, to) <= GetTotalTransactionsCount(log, None)
  {
    CleanupPartition(log, from, to);
  }

  // ---------------------------------------------------------------------------
  // The statements as written

  /** The columns `init_db` gives the `transactions` table. */
  const LedgerColumns: set<string> := {"id", "timestamp", "amount", "transaction_type", "description"}

  /** The columns the cleanup's COUNT and DELETE statements name. */
  const CleanupColumns: set<string> := {"date"}

  /** The columns the report-entries query names. */
  const ReportEntryColumns: set<string> := {"date", "amount", "type", "description"}

  /** SQLite refuses to prepare a statement that names a column the table lacks. */
  function PrepareError(columns: set<string>): Option<string> {
    if columns <= LedgerColumns then None else Some("no such column")
  }

  /** `clean_detailed_report` with its statements as written; returns the result and the new log. */
  function CleanDetailedReportAsWritten(log: seq<Tx>, fromText: string, toText: string,
                                        dbError: Option<string>): (r: (CleanupResult, seq<Tx>))
    ensures r.0.success ==> r.0.error.None?
  {
    match CheckRange(fromText, toText)
    case Err(e) => (CleanupResult(false, 0, Some(e)), log)
    case Ok(range) =>
      if dbError.Some? then (CleanupResult(false, 0, dbError), log)
      else match PrepareError(CleanupColumns)
        case Some(e) => (CleanupResult(false, 0, Some(e)), log)
        case None =>
          (CleanupResult(true, CountInRange(log, range.0, range.1), None), Survivors(log, range.0, range.1))
  }

  /** As written the cleanup never succeeds and never deletes anything, whatever the input. */
  lemma AsWrittenCleanupNeverSucceeds(log: seq<Tx>, fromText: string, toText: string, dbError: Option<string>)
    ensures var r := CleanDetailedReportAsWritten(log, fromText, toText, dbError);
      !r.0.success && r.0.deletedCount == 0 && r.1 == log
  {
    assert "date" !in LedgerColumns;
    assert PrepareError(CleanupColumns).Some?;
  }

  /** `get_report_entries` with its query as written. */
  function GetReportEntriesAsWritten(log: seq<Tx>, from: Date, to: Date, dbError: Option<string>): (r: seq<Tx>)
    ensures dbError.Some? ==> r == []
  {
    if dbError.Some? || PrepareError(ReportEntryColumns).Some? then []
    else SortByTime(Where(log, (t: Tx) => InRange(t, from, to)), false)
  }

  /** As written the report is empty even when the range holds entries. */
  lemma AsWrittenReportAlwaysEmpty(log: seq<Tx>, from: Date, to: Date, dbError: Option<string>)
    ensures GetReportEntriesAsWritten(log, from, to, dbError) == []
  {
    assert "date" !in LedgerColumns;
    assert PrepareError(ReportEntryColumns).Some?;
  }
}
