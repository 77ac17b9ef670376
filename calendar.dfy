/**
 * Calendar dates and timestamps as the ledger stores them.
 *
 * A timestamp is written by `datetime.now().isoformat()`, so it starts with the
 * zero-padded `YYYY-MM-DD` of its date; SQLite's `date(timestamp)` and Python's
 * `.date()` both recover that date.  Dates compare component by component.
 */
module Calendar {

  datatype Date = Date(year: int, month: int, day: int)

  /** A point in time: a date and the microseconds elapsed since its midnight. */
  datatype Timestamp = Timestamp(date: Date, micros: nat)

  predicate IsLeapYear(y: int) {
    y % 4 == 0 && (y % 100 != 0 || y % 400 == 0)
  }

  function DaysInMonth(year: int, month: int): (n: int)
    requires 1 <= month <= 12
    ensures 28 <= n <= 31
    ensures n == 29 <==> month == 2 && IsLeapYear(year)
  {
    if month == 2 then (if IsLeapYear(year) then 29 else 28)
    else if month == 4 || month == 6 || month == 9 || month == 11 then 30
    else 31
  }

  /** Month and day are in range; the year is left free so that day arithmetic is total. */
  predicate IsCalendarDate(d: Date) {
    1 <= d.month <= 12 && 1 <= d.day <= DaysInMonth(d.year, d.month)
  }

  /** A date Python's `datetime` accepts: years MINYEAR = 1 to MAXYEAR = 9999. */
  predicate IsRealDate(d: Date) {
    IsCalendarDate(d) && 1 <= d.year <= 9999
  }

  predicate DateLt(a: Date, b: Date) {
    a.year < b.year
    || (a.year == b.year && (a.month < b.month || (a.month == b.month && a.day < b.day)))
  }

  predicate DateLe(a: Date, b: Date) {
    DateLt(a, b) || a == b
  }

  /** Chronological order of timestamps: by date, then by time of day. */
  predicate TimestampLe(a: Timestamp, b: Timestamp) {
    DateLt(a.date, b.date) || (a.date == b.date && a.micros <= b.micros)
  }

  /** The day before `d`. */
  function PrevDay(d: Date): (p: Date)
    requires IsCalendarDate(d)
    ensures IsCalendarDate(p) && DateLt(p, d)
  {
    if d.day > 1 then Date(d.year, d.month, d.day - 1)
    else if d.month > 1 then Date(d.year, d.month - 1, DaysInMonth(d.year, d.month - 1))
    else Date(d.year - 1, 12, 31)
  }

  /** No calendar date lies strictly between the day before `d` and `d`. */
  lemma PrevDayIsPredecessor(d: Date, e: Date)
    requires IsCalendarDate(d) && IsCalendarDate(e) && DateLt(e, d)
    ensures DateLe(e, PrevDay(d))
  {
  }

  /** SQLite's `date(d, '-n days')`: `n` days before `d`. */
  function SubDays(d: Date, n: nat): (r: Date)
    requires IsCalendarDate(d)
    ensures IsCalendarDate(r) && DateLe(r, d)
    ensures n > 0 ==> DateLt(r, d)
    decreases n
  {
    if n == 0 then d else SubDays(PrevDay(d), n - 1)
  }

  /** Going back fewer days than the day of the month stays within the month. */
  lemma {:induction false} SubDaysWithinMonth(d: Date, n: nat)
    requires IsCalendarDate(d) && n < d.day
    ensures SubDays(d, n) == Date(d.year, d.month, d.day - n)
    decreases n
  {
    if n > 0 {
      SubDaysWithinMonth(PrevDay(d), n - 1);
    }
  }

  // ---------------------------------------------------------------------------
  // The `YYYY-MM-DD` text of a date and SQLite's comparison of TEXT values.
  // ---------------------------------------------------------------------------

  function DigitChar(n: int): (c: char)
    requires 0 <= n <= 9
    ensures '0' <= c <= '9'
  {
    ('0' as int + n) as char
  }

  function Pad2(n: int): (s: string)
    requires 0 <= n <= 99
    ensures |s| == 2
  {
    [DigitChar(n / 10), DigitChar(n % 10)]
  }

  function Pad4(n: int): (s: string)
    requires 0 <= n <= 9999
    ensures |s| == 4
  {
    Pad2(n / 100) + Pad2(n % 100)
  }

  predicate InIsoRange(d: Date) {
    0 <= d.year <= 9999 && 0 <= d.month <= 99 && 0 <= d.day <= 99
  }

  /** The zero-padded `YYYY-MM-DD` text that `date(timestamp)` yields. */
  function IsoDate(d: Date): (s: string)
    requires InIsoRange(d)
    ensures |s| == 10 && s[4] == '-' && s[7] == '-'
  {
    Pad4(d.year) + "-" + Pad2(d.month) + "-" + Pad2(d.day)
  }

  /** SQLite's BINARY collation: character by character, a proper prefix first. */
  predicate TextLt(a: string, b: string) {
    if a == [] then b != []
    else if b == [] then false
    else a[0] < b[0] || (a[0] == b[0] && TextLt(a[1..], b[1..]))
  }

  predicate TextLe(a: string, b: string) {
    a == b || TextLt(a, b)
  }

  lemma {:induction false} TextLtConcat(a1: string, a2: string, b1: string, b2: string)
    requires |a1| == |b1|
    ensures TextLt(a1 + a2, b1 + b2) <==> TextLt(a1, b1) || (a1 == b1 && TextLt(a2, b2))
    decreases |a1|
  {
    if a1 != [] {
      assert (a1 + a2)[0] == a1[0] && (b1 + b2)[0] == b1[0];
      assert (a1 + a2)[1..] == a1[1..] + a2 && (b1 + b2)[1..] == b1[1..] + b2;
      TextLtConcat(a1[1..], a2, b1[1..], b2);
      if a1[0] == b1[0] {
        assert a1 == b1 <==> a1[1..] == b1[1..] by {
          assert a1 == [a1[0]] + a1[1..] && b1 == [b1[0]] + b1[1..];
        }
      }
    } else {
      assert a1 + a2 == a2 && b1 + b2 == b2;
    }
  }

  /** Two texts whose first parts have the same length are equal exactly when both parts are. */
  lemma ConcatEq(a1: string, a2: string, b1: string, b2: string)
    requires |a1| == |b1|
    ensures a1 + a2 == b1 + b2 <==> a1 == b1 && a2 == b2
  {
    if a1 + a2 == b1 + b2 {
      assert (a1 + a2)[..|a1|] == a1 && (b1 + b2)[..|b1|] == b1;
      assert (a1 + a2)[|a1|..] == a2 && (b1 + b2)[|b1|..] == b2;
    }
  }

  /** Splitting a number into a high and a low decimal part preserves its order. */
  lemma DivModOrder(x: int, y: int, k: int)
    requires 0 <= x && 0 <= y && (k == 10 || k == 100)
    ensures x < y <==> x / k < y / k || (x / k == y / k && x % k < y % k)
    ensures x == y <==> x / k == y / k && x % k == y % k
  {
    if k == 10 {
      assert x == 10 * (x / 10) + x % 10 && y == 10 * (y / 10) + y % 10;
    } else {
      assert x == 100 * (x / 100) + x % 100 && y == 100 * (y / 100) + y % 100;
    }
  }

  lemma Pad2Order(x: int, y: int)
    requires 0 <= x <= 99 && 0 <= y <= 99
    ensures TextLt(Pad2(x), Pad2(y)) <==> x < y
    ensures Pad2(x) == Pad2(y) <==> x == y
  {
    DivModOrder(x, y, 10);
    var a, b := Pad2(x), Pad2(y);
    assert a[1..] == [DigitChar(x % 10)] && b[1..] == [DigitChar(y % 10)];
    assert TextLt(a[1..], b[1..]) <==> x % 10 < y % 10 by {
      assert a[1..][1..] == [] && b[1..][1..] == [];
    }
    assert TextLt(a, b) <==> a[0] < b[0] || (a[0] == b[0] && TextLt(a[1..], b[1..]));
    assert a == b <==> a[0] == b[0] && a[1] == b[1] by {
      if a[0] == b[0] && a[1] == b[1] {
        assert a == [a[0], a[1]] && b == [b[0], b[1]];
      }
    }
  }

  lemma Pad4Order(x: int, y: int)
    requires 0 <= x <= 9999 && 0 <= y <= 9999
    ensures TextLt(Pad4(x), Pad4(y)) <==> x < y
    ensures Pad4(x) == Pad4(y) <==> x == y
  {
    DivModOrder(x, y, 100);
    Pad2Order(x / 100, y / 100);
    Pad2Order(x % 100, y % 100);
    TextLtConcat(Pad2(x / 100), Pad2(x % 100), Pad2(y / 100), Pad2(y % 100));
    if Pad4(x) == Pad4(y) {
      assert Pad4(x)[..2] == Pad2(x / 100) && Pad4(y)[..2] == Pad2(y / 100);
      assert Pad4(x)[2..] == Pad2(x % 100) && Pad4(y)[2..] == Pad2(y % 100);
    }
  }

  /** A `-` followed by a two-digit field orders as the field's number. */
  lemma DashPad2Order(x: int, y: int)
    requires 0 <= x <= 99 && 0 <= y <= 99
    ensures TextLt("-" + Pad2(x), "-" + Pad2(y)) <==> x < y
    ensures "-" + Pad2(x) == "-" + Pad2(y) <==> x == y
  {
    Pad2Order(x, y);
    TextLtConcat("-", Pad2(x), "-", Pad2(y));
    ConcatEq("-", Pad2(x), "-", Pad2(y));
  }

  /**
   * For dates that `isoformat` writes, comparing their texts as SQLite does
   * agrees with comparing the dates themselves.
   */
  lemma IsoDateOrder(a: Date, b: Date)
    requires InIsoRange(a) && InIsoRange(b)
    ensures TextLt(IsoDate(a), IsoDate(b)) <==> DateLt(a, b)
    ensures TextLe(IsoDate(a), IsoDate(b)) <==> DateLe(a, b)
  {
    Pad4Order(a.year, b.year);
    DashPad2Order(a.month, b.month);
    DashPad2Order(a.day, b.day);
    var ma, mb := "-" + Pad2(a.month), "-" + Pad2(b.month);
    var da, db := "-" + Pad2(a.day), "-" + Pad2(b.day);
    TextLtConcat(ma, da, mb, db);
    ConcatEq(ma, da, mb, db);
    TextLtConcat(Pad4(a.year), ma + da, Pad4(b.year), mb + db);
    ConcatEq(Pad4(a.year), ma + da, Pad4(b.year), mb + db);
    assert IsoDate(a) == Pad4(a.year) + (ma + da);
    assert IsoDate(b) == Pad4(b.year) + (mb + db);
  }
}
