/** Proleptic Gregorian dates as Python's `datetime.date` numbers them, the Thursday expiry
    arithmetic of the production resolver, and the IST clock shift. */
module Calendar {

  datatype Date = Date(year: int, month: int, day: int)

  predicate IsLeap(y: int)
  {
    y % 4 == 0 && (y % 100 != 0 || y % 400 == 0)
  }

  function DaysInMonth(y: int, m: int): (n: int)
    requires 1 <= m <= 12
    ensures 28 <= n <= 31
  {
    if m == 2 then (if IsLeap(y) then 29 else 28)
    else if m == 4 || m == 6 || m == 9 || m == 11 then 30
    else 31
  }

  predicate ValidDate(d: Date)
  {
    d.year >= 1 && 1 <= d.month <= 12 && 1 <= d.day <= DaysInMonth(d.year, d.month)
  }

  /** Days in the months of year y before month m. */
  function DaysBeforeMonth(y: int, m: int): int
    requires 1 <= m <= 12
  {
    [0, 31, 59, 90, 120, 151, 181, 212, 243, 273, 304, 334][m - 1]
    + (if m > 2 && IsLeap(y) then 1 else 0)
  }

  /** Days in the years before year y, counted from 1 January of year 1. */
  function DaysBeforeYear(y: int): int
    requires y >= 1
  {
    var k := y - 1;
    365 * k + k / 4 - k / 100 + k / 400
  }

  /** `date.toordinal()`: 1 January of year 1 is day 1. */
  function Ordinal(d: Date): int
    requires ValidDate(d)
  {
    DaysBeforeYear(d.year) + DaysBeforeMonth(d.year, d.month) + d.day
  }

  /** `weekday()` of the day with the given ordinal: Monday is 0, Thursday is 3. */
  function WeekdayOf(n: int): (w: int)
    ensures 0 <= w < 7
  {
    (n + 6) % 7
  }

  function Weekday(d: Date): (w: int)
    requires ValidDate(d)
    ensures 0 <= w < 7
  {
    WeekdayOf(Ordinal(d))
  }

  const Thursday: int := 3

  lemma DaysBeforeNextMonth(y: int, m: int)
    requires 1 <= m < 12
    ensures DaysBeforeMonth(y, m + 1) == DaysBeforeMonth(y, m) + DaysInMonth(y, m)
  {
  }

  lemma DaysBeforeNextYear(y: int)
    requires y >= 1
    ensures DaysBeforeYear(y + 1) == DaysBeforeYear(y) + DaysBeforeMonth(y, 12) + 31
  {
    var k := y - 1;
    QuotientSteps(k);
    LeapCount(y);
    assert DaysBeforeMonth(y, 12) == 334 + (if IsLeap(y) then 1 else 0);
  }

  /** The leap rule as the sum of the three divisibility tests. */
  lemma LeapCount(y: int)
    ensures (if IsLeap(y) then 1 else 0)
            == (if y % 4 == 0 then 1 else 0) - (if y % 100 == 0 then 1 else 0) + (if y % 400 == 0 then 1 else 0)
  {
    if y % 400 == 0 {
      assert y == 100 * (4 * (y / 400));
    } else if y % 100 == 0 {
      assert y == 4 * (25 * (y / 100));
    }
  }

  /** Counting one year further: each of the leap-rule quotients steps up exactly when the new
      year is a multiple of its divisor. */
  lemma QuotientSteps(k: int)
    requires k >= 0
    ensures (k + 1) / 4 == k / 4 + (if (k + 1) % 4 == 0 then 1 else 0)
    ensures (k + 1) / 100 == k / 100 + (if (k + 1) % 100 == 0 then 1 else 0)
    ensures (k + 1) / 400 == k / 400 + (if (k + 1) % 400 == 0 then 1 else 0)
  {
  }

  /** The calendar day after d. */
  function NextDay(d: Date): (r: Date)
    requires ValidDate(d)
    ensures ValidDate(r)
    ensures Ordinal(r) == Ordinal(d) + 1
  {
    if d.day < DaysInMonth(d.year, d.month) then
      Date(d.year, d.month, d.day + 1)
    else if d.month < 12 then
      DaysBeforeNextMonth(d.year, d.month);
      Date(d.year, d.month + 1, 1)
    else
      DaysBeforeNextYear(d.year);
      Date(d.year + 1, 1, 1)
  }

  /** `d + timedelta(days=k)`. */
  function AddDays(d: Date, k: nat): (r: Date)
    requires ValidDate(d)
    ensures ValidDate(r)
    ensures Ordinal(r) == Ordinal(d) + k
    decreases k
  {
    if k == 0 then d else AddDays(NextDay(d), k - 1)
  }

  /** Microseconds in a day, and times of day counted in microseconds since midnight. */
  const DayMicros: int := 86_400_000_000
  /** `dt_time(15, 30)`, the market close used as the expiry cut-off. */
  const Cutoff: int := 55_800_000_000
  /** The UTC to IST offset of five and a half hours. */
  const IstOffset: int := 19_800_000_000

  datatype DateTime = DateTime(date: Date, micros: int)

  predicate ValidDateTime(t: DateTime)
  {
    ValidDate(t.date) && 0 <= t.micros < DayMicros
  }

  /** `utcnow() + timedelta(hours=5, minutes=30)`. */
  function ToIst(utc: DateTime): (ist: DateTime)
    requires ValidDateTime(utc)
    ensures ValidDateTime(ist)
    ensures Ordinal(ist.date) * DayMicros + ist.micros
            == Ordinal(utc.date) * DayMicros + utc.micros + IstOffset
  {
    var t := utc.micros + IstOffset;
    if t < DayMicros then DateTime(utc.date, t) else DateTime(NextDay(utc.date), t - DayMicros)
  }

  /** 27 Jan 2026 18:45 UTC is 28 Jan 2026 00:15 IST: the IST date has rolled over. */
  lemma IstRolloverVector()
    ensures ToIst(DateTime(Date(2026, 1, 27), 67_500_000_000))
            == DateTime(Date(2026, 1, 28), 900_000_000)
  {
  }

  /** Moving j days forward moves the weekday j places round the week. */
  lemma WeekdayShift(n: int, j: int)
    ensures WeekdayOf(n + j) == (WeekdayOf(n) + j) % 7
  {
    var q := (n + 6) / 7;
    assert n + 6 == 7 * q + WeekdayOf(n);
    assert n + j + 6 == 7 * q + (WeekdayOf(n) + j);
  }

  /** Days from the day with ordinal o to the weekly expiry: the next Thursday on or after it,
      or the one a week later when o is a Thursday and the market has closed. */
  function DaysToExpiry(o: int, closed: bool): (k: int)
    ensures 0 <= k <= 7
    ensures WeekdayOf(o + k) == Thursday
    ensures k == 0 ==> !closed
    ensures k == 7 ==> WeekdayOf(o) == Thursday && closed
    ensures forall n :: o < n < o + k ==> WeekdayOf(n) != Thursday
  {
    var w := WeekdayOf(o);
    var k := (Thursday - w) % 7;
    assert k == if w <= Thursday then Thursday - w else Thursday + 7 - w;
    var k' := if k == 0 && closed then 7 else k;
    WeekdayShift(o, k');
    forall n | o < n < o + k'
      ensures WeekdayOf(n) != Thursday
    {
      WeekdayShift(o, n - o);
    }
    k'
  }

  /** The weekly option expiry: the next Thursday on or after today, or the Thursday after that
      when today is a Thursday past 15:30. */
  function WeeklyExpiry(today: Date, micros: int): (r: Date)
    requires ValidDate(today)
    ensures ValidDate(r)
    ensures Weekday(r) == Thursday
    ensures Ordinal(today) <= Ordinal(r) <= Ordinal(today) + 7
    ensures Ordinal(r) == Ordinal(today) ==> micros <= Cutoff
    ensures forall n :: Ordinal(today) < n < Ordinal(r) ==> WeekdayOf(n) != Thursday
    ensures Ordinal(r) == Ordinal(today) + 7 ==> Weekday(today) == Thursday && micros > Cutoff
  {
    AddDays(today, DaysToExpiry(Ordinal(today), micros > Cutoff))
  }

  /** The last Thursday of month m of year y. */
  function LastThursday(y: int, m: int): (r: Date)
    requires y >= 1 && 1 <= m <= 12
    ensures ValidDate(r) && r.year == y && r.month == m
    ensures Weekday(r) == Thursday
    ensures r.day + 7 > DaysInMonth(y, m)
  {
    var last := Date(y, m, DaysInMonth(y, m));
    var w := Weekday(last);
    var back := (w - Thursday) % 7;
    var r := Date(y, m, DaysInMonth(y, m) - back);
    SameMonthOrdinals(r, last);
    StepBackToThursday(Ordinal(last), back);
    r
  }

  /** Stepping back (weekday − Thursday) mod 7 days lands on a Thursday. */
  lemma StepBackToThursday(o: int, back: int)
    requires back == (WeekdayOf(o) - Thursday) % 7
    ensures 0 <= back < 7 && WeekdayOf(o - back) == Thursday
  {
    WeekdayShift(o - back, back);
  }

  /** Within one month, ordinals differ by the difference of the days. */
  lemma SameMonthOrdinals(a: Date, b: Date)
    requires ValidDate(a) && ValidDate(b) && a.year == b.year && a.month == b.month
    ensures Ordinal(b) - Ordinal(a) == b.day - a.day
  {
  }

  /** The first of the next month follows the last day of this month. */
  lemma MonthRollover(y: int, m: int)
    requires y >= 1 && 1 <= m <= 12
    ensures var first := if m < 12 then Date(y, m + 1, 1) else Date(y + 1, 1, 1);
            ValidDate(first) && Ordinal(first) == Ordinal(Date(y, m, DaysInMonth(y, m))) + 1
  {
    assert NextDay(Date(y, m, DaysInMonth(y, m))) == if m < 12 then Date(y, m + 1, 1) else Date(y + 1, 1, 1);
  }

  /** A Thursday in the last seven days of its month: the last Thursday of that month. */
  predicate MonthEndThursday(d: Date)
  {
    ValidDate(d) && Weekday(d) == Thursday && d.day + 7 > DaysInMonth(d.year, d.month)
  }

  /** An expiry on day d has not passed at `micros` past midnight of today: it is later, or it
      is today and the market has not closed. */
  predicate StillOpen(d: Date, today: Date, micros: int)
    requires ValidDate(d) && ValidDate(today)
  {
    Ordinal(d) > Ordinal(today) || (d == today && micros <= Cutoff)
  }

  /** Months counted from year 0, to compare the months of two dates. */
  function MonthIndex(d: Date): int
  {
    12 * d.year + d.month
  }

  /** A day of a later month has a larger ordinal. */
  lemma {:induction false} MonthOrder(a: Date, b: Date)
    requires ValidDate(a) && ValidDate(b) && MonthIndex(a) < MonthIndex(b)
    ensures Ordinal(a) < Ordinal(b)
    decreases MonthIndex(b) - MonthIndex(a)
  {
    var end := Date(a.year, a.month, DaysInMonth(a.year, a.month));
    var first := if a.month < 12 then Date(a.year, a.month + 1, 1) else Date(a.year + 1, 1, 1);
    SameMonthOrdinals(a, end);
    MonthRollover(a.year, a.month);
    if MonthIndex(b) == MonthIndex(first) {
      SameMonthOrdinals(first, b);
    } else {
      MonthOrder(first, b);
    }
  }

  /** Two days less than a week apart fall on the same weekday only if they are the same day,
      so a month has only one Thursday in its last seven days. */
  lemma SameWeekdayWithinWeek(o1: int, o2: int)
    requires WeekdayOf(o1) == WeekdayOf(o2) && -7 < o2 - o1 < 7
    ensures o1 == o2
  {
    WeekdayShift(o1, o2 - o1);
  }

  /** The monthly expiry is the nearest last Thursday of a month that is still open. */
  lemma MonthlyExpiryIsNearest(today: Date, micros: int, d: Date)
    requires ValidDate(today) && MonthEndThursday(d) && StillOpen(d, today, micros)
    ensures Ordinal(MonthlyExpiry(today, micros)) <= Ordinal(d)
  {
    var r := MonthlyExpiry(today, micros);
    var m := LastThursday(today.year, today.month);
    if MonthIndex(d) < MonthIndex(today) {
      MonthOrder(d, today);
    } else if MonthIndex(d) == MonthIndex(today) {
      SameMonthOrdinals(d, m);
      SameWeekdayWithinWeek(Ordinal(d), Ordinal(m));
    } else if r == m {
      MonthOrder(m, d);
    } else if MonthIndex(d) == MonthIndex(r) {
      SameMonthOrdinals(d, r);
      SameWeekdayWithinWeek(Ordinal(d), Ordinal(r));
    } else {
      MonthOrder(r, d);
    }
  }

  /** The monthly future expiry: this month's last Thursday, rolled to next month's (December
      rolls to January of the next year) when it has passed or is today after 15:30. */
  function MonthlyExpiry(today: Date, micros: int): (r: Date)
    requires ValidDate(today)
    ensures MonthEndThursday(r) && StillOpen(r, today, micros)
    ensures r == LastThursday(today.year, today.month) <==> StillOpen(LastThursday(today.year, today.month), today, micros)
    ensures r != LastThursday(today.year, today.month) ==> r == NextMonthExpiry(today)
    ensures (r.year, r.month) == (today.year, today.month)
            || (today.month < 12 && (r.year, r.month) == (today.year, today.month + 1))
            || (today.month == 12 && (r.year, r.month) == (today.year + 1, 1))
  {
    var m := LastThursday(today.year, today.month);
    SameMonthOrdinals(today, m);
    if Ordinal(m) < Ordinal(today) || (m == today && micros > Cutoff) then NextMonthExpiry(today)
    else m
  }

  /** The last Thursday of the month after today's, which is later than today. */
  function NextMonthExpiry(today: Date): (r: Date)
    requires ValidDate(today)
    ensures ValidDate(r) && Weekday(r) == Thursday
    ensures r.day + 7 > DaysInMonth(r.year, r.month)
    ensures Ordinal(today) < Ordinal(r)
    ensures (today.month < 12 && (r.year, r.month) == (today.year, today.month + 1))
            || (today.month == 12 && (r.year, r.month) == (today.year + 1, 1))
  {
    var nm := if today.month < 12 then today.month + 1 else 1;
    var ny := if today.month < 12 then today.year else today.year + 1;
    var endOfMonth := Date(today.year, today.month, DaysInMonth(today.year, today.month));
    SameMonthOrdinals(today, endOfMonth);
    MonthRollover(today.year, today.month);
    var r := LastThursday(ny, nm);
    SameMonthOrdinals(Date(ny, nm, 1), r);
    r
  }

  /** In January 2026 the last Thursday is the 29th; from the 30th the future rolls to 26 Feb. */
  lemma MonthlyExpiryVector()
    ensures MonthlyExpiry(Date(2026, 1, 27), 0) == Date(2026, 1, 29)
    ensures MonthlyExpiry(Date(2026, 1, 30), 0) == Date(2026, 2, 26)
  {
    assert DaysBeforeYear(2026) == 739616;
    assert Ordinal(Date(2026, 1, 31)) == 739647;
    assert Weekday(Date(2026, 1, 31)) == 5;
    assert LastThursday(2026, 1) == Date(2026, 1, 29);
    assert Ordinal(Date(2026, 2, 28)) == 739675;
    assert LastThursday(2026, 2) == Date(2026, 2, 26);
  }

  /** Tuesday 27 Jan 2026: the weekly expiry is Thursday the 29th. */
  lemma WeeklyExpiryVector()
    ensures WeeklyExpiry(Date(2026, 1, 27), 0) == Date(2026, 1, 29)
  {
    assert DaysBeforeYear(2026) == 739616;
    assert Weekday(Date(2026, 1, 27)) == 1;
    assert DaysToExpiry(Ordinal(Date(2026, 1, 27)), false) == 2;
  }
}
