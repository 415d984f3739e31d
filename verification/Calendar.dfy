/** The calendar arithmetic behind paid periods: backend/src/services/billingPolicy.js, lines 4-16.

    A month is identified by `12 * year + month` with months counted from zero, so
    adding `n` months is adding `n`. Everything is UTC and proleptic Gregorian. */
module Calendar {

  datatype Cycle = Monthly | Quarterly | Yearly

  function Months(cycle: Cycle): int {
    match cycle
    case Monthly => 1
    case Quarterly => 3
    case Yearly => 12
  }

  predicate Leap(year: int) {
    year % 4 == 0 && (year % 100 != 0 || year % 400 == 0)
  }

  function MonthDays(month: int): int {
    var m := month % 12;
    if m == 1 then (if Leap(month / 12) then 29 else 28)
    else if m == 3 || m == 5 || m == 8 || m == 10 then 30
    else 31
  }

  /** Days before 1 January of `year`, counted from 1 January of year 0. */
  function YearStart(year: int): int {
    365 * year + (year + 3) / 4 - (year + 99) / 100 + (year + 399) / 400
  }

  /** Days before the `m`-th month of a year. */
  function DaysBefore(m: int, leap: bool): int
    requires 0 <= m < 12
  {
    [0, 31, 59, 90, 120, 151, 181, 212, 243, 273, 304, 334][m] + if m > 1 && leap then 1 else 0
  }

  function MonthStart(month: int): int {
    YearStart(month / 12) + DaysBefore(month % 12, Leap(month / 12))
  }

  datatype Date = Date(month: int, day: int) {
    predicate Valid() { 1 <= day <= MonthDays(month) }

    /** The serial number of the day, counted from 1 January of year 0. */
    function Serial(): int { MonthStart(month) + day - 1 }
  }

  function Min(a: int, b: int): int { if a <= b then a else b }

  /** The same day of the month `n` months later, or that month's last day if it is shorter. */
  function AddMonths(start: Date, n: int): Date {
    Date(start.month + n, Min(start.day, MonthDays(start.month + n)))
  }

  /** `n` renewals of one month each. */
  function Chain(start: Date, n: nat): Date {
    if n == 0 then start else AddMonths(Chain(start, n - 1), 1)
  }

  lemma YearStartStep(year: int)
    ensures YearStart(year + 1) == YearStart(year) + if Leap(year) then 366 else 365
  {
    DivStep(year, 4);
    DivStep(year, 100);
    DivStep(year, 400);
    LeapDivisors(year);
  }

  lemma DivStep(year: int, k: int)
    requires k == 4 || k == 100 || k == 400
    ensures (year + k) / k == (year + k - 1) / k + if year % k == 0 then 1 else 0
  {
  }

  lemma LeapDivisors(year: int)
    ensures year % 400 == 0 ==> year % 100 == 0
    ensures year % 100 == 0 ==> year % 4 == 0
  {
  }

  /** Months are laid end to end, across year boundaries too. */
  lemma MonthStartStep(month: int)
    ensures MonthStart(month + 1) == MonthStart(month) + MonthDays(month)
  {
    var year := month / 12;
    if month % 12 == 11 {
      assert (month + 1) / 12 == year + 1 && (month + 1) % 12 == 0;
      YearStartStep(year);
    } else {
      assert (month + 1) / 12 == year && (month + 1) % 12 == month % 12 + 1;
    }
  }

  lemma {:induction false} MonthStartMonotone(a: int, b: int)
    requires a <= b
    ensures MonthStart(a) + 28 * (b - a) <= MonthStart(b)
    decreases b - a
  {
    if a < b {
      MonthStartMonotone(a, b - 1);
      MonthStartStep(b - 1);
    }
  }

  /** Serial numbers order valid dates by month first. */
  lemma SerialOrder(a: Date, b: Date)
    requires a.Valid() && b.Valid() && a.month < b.month
    ensures a.Serial() < b.Serial()
  {
    MonthStartStep(a.month);
    MonthStartMonotone(a.month + 1, b.month);
  }

  /** Lines 8-15: move to the first of the month, add the months, clamp to the last day there.
      The last day is found as the code finds it, one day before the next month begins. */
  method PeriodEnd(start: Date, cycle: Cycle) returns (date: Date)
    requires start.Valid()
    ensures date == AddMonths(start, Months(cycle)) && date.Valid()
    ensures start.Serial() < date.Serial()
  {
    date := start;
    var day := date.day;
    date := date.(day := 1);
    date := date.(month := date.month + Months(cycle));
    var last := MonthStart(date.month + 1) - MonthStart(date.month);
    MonthStartStep(date.month);
    date := date.(day := Min(day, last));
    SerialOrder(start, date);
  }

  lemma ThreeMonths(month: int)
    ensures MonthStart(month + 3) == MonthStart(month) + MonthDays(month) + MonthDays(month + 1) + MonthDays(month + 2)
  {
    MonthStartStep(month);
    MonthStartStep(month + 1);
    MonthStartStep(month + 2);
  }

  /** A year of months from `month` is 366 days exactly when it runs over a 29 February. */
  lemma TwelveMonths(month: int)
    ensures MonthStart(month + 12) - MonthStart(month) ==
            if Leap(if month % 12 <= 1 then month / 12 else month / 12 + 1) then 366 else 365
  {
    assert (month + 12) / 12 == month / 12 + 1 && (month + 12) % 12 == month % 12;
    YearStartStep(month / 12);
  }

  lemma MonthLength(start: Date)
    requires start.Valid()
    ensures 28 <= AddMonths(start, 1).Serial() - start.Serial() <= 31
  {
    MonthStartStep(start.month);
    hide MonthStart;
  }

  /** How long a paid period is: 28-31, 89-92 or 365-366 days. */
  lemma PeriodLength(start: Date, cycle: Cycle)
    requires start.Valid()
    ensures var days := AddMonths(start, Months(cycle)).Serial() - start.Serial();
            match cycle
            case Monthly => 28 <= days <= 31
            case Quarterly => 89 <= days <= 92
            case Yearly => 365 <= days <= 366
  {
    hide MonthStart, MonthDays, AddMonths;
    match cycle
    case Monthly => MonthLength(start);
    case Quarterly => QuarterLength(start);
    case Yearly => YearLength(start);
  }

  lemma YearLength(start: Date)
    requires start.Valid()
    ensures 365 <= AddMonths(start, 12).Serial() - start.Serial() <= 366
  {
    var m := start.month;
    TwelveMonths(m);
    assert (m + 12) / 12 == m / 12 + 1 && (m + 12) % 12 == m % 12;
    LeapApart(m / 12);
  }

  lemma LeapApart(year: int)
    ensures !(Leap(year) && Leap(year + 1))
  {
    if Leap(year) {
      assert (year + 1) % 4 == 1;
    }
  }

  lemma NextMonth(month: int)
    ensures month % 12 < 11 ==> (month + 1) % 12 == month % 12 + 1 && (month + 1) / 12 == month / 12
    ensures month % 12 == 11 ==> (month + 1) % 12 == 0 && (month + 1) / 12 == month / 12 + 1
  {
  }

  lemma QuarterDays(month: int)
    ensures 89 <= MonthDays(month) + MonthDays(month + 1) + MonthDays(month + 2) <= 92
  {
    NextMonth(month);
    NextMonth(month + 1);
  }

  lemma QuarterLength(start: Date)
    requires start.Valid()
    ensures 89 <= AddMonths(start, 3).Serial() - start.Serial() <= 92
  {
    ThreeMonths(start.month);
    QuarterDays(start.month);
    QuarterDays(start.month + 1);
  }

  lemma AddMonthsValid(start: Date, n: int)
    requires start.Valid()
    ensures AddMonths(start, n).Valid()
  {
  }

  /** A later start never ends earlier. */
  lemma PeriodEndMonotone(a: Date, b: Date, n: int)
    requires a.Valid() && b.Valid() && a.Serial() <= b.Serial()
    ensures AddMonths(a, n).Serial() <= AddMonths(b, n).Serial()
  {
    hide MonthStart, MonthDays;
    AddMonthsValid(a, n);
    AddMonthsValid(b, n);
    if a.month > b.month {
      SerialOrder(b, a);
    } else if a.month < b.month {
      SerialOrder(AddMonths(a, n), AddMonths(b, n));
    }
  }

  /** `n` monthly renewals land in the month one `n`-month period lands in, never on a
      later day and never more than three days before. */
  lemma {:induction false} ChainedRenewals(start: Date, n: nat)
    requires start.Valid()
    ensures var chained, single := Chain(start, n), AddMonths(start, n);
            && chained.Valid() && chained.month == single.month
            && single.day - 3 <= chained.day <= single.day
    ensures Chain(start, n).day >= Min(start.day, 28)
    ensures AddMonths(start, n).Serial() - 3 <= Chain(start, n).Serial() <= AddMonths(start, n).Serial()
  {
    if n > 0 {
      ChainedRenewals(start, n - 1);
    }
  }

  /** Three monthly renewals against one quarter, twelve against one year. */
  lemma RenewalsAgainstLongCycles(start: Date, cycle: Cycle)
    requires start.Valid()
    ensures var chained, single := Chain(start, Months(cycle)), AddMonths(start, Months(cycle));
            && chained.month == single.month
            && single.Serial() - 3 <= chained.Serial() <= single.Serial()
  {
    ChainedRenewals(start, Months(cycle));
  }

  // Instants: milliseconds since the serial day 0.

  const DAY := 86400000

  function NextDay(d: Date): (e: Date)
    requires d.Valid()
    ensures e.Valid() && e.Serial() == d.Serial() + 1
  {
    MonthStartStep(d.month);
    if d.day < MonthDays(d.month) then d.(day := d.day + 1) else Date(d.month + 1, 1)
  }

  function PreviousDay(d: Date): (e: Date)
    requires d.Valid()
    ensures e.Valid() && e.Serial() == d.Serial() - 1
  {
    MonthStartStep(d.month - 1);
    if d.day > 1 then d.(day := d.day - 1) else Date(d.month - 1, MonthDays(d.month - 1))
  }

  /** The calendar, day by day from 1 January of year 0. */
  function DateOf(serial: int): (d: Date)
    ensures d.Valid() && d.Serial() == serial
    decreases if serial < 0 then -serial else serial
  {
    if serial == 0 then Date(0, 1)
    else if serial > 0 then NextDay(DateOf(serial - 1))
    else PreviousDay(DateOf(serial + 1))
  }

  /** The end of the period that begins at instant `t`: same time of day. */
  function PeriodEndAt(t: int, cycle: Cycle): (end: int)
    ensures t < end
  {
    var start := DateOf(t / DAY);
    PeriodLength(start, cycle);
    AddMonths(start, Months(cycle)).Serial() * DAY + t % DAY
  }

  lemma SerialIsInjective(a: Date, b: Date)
    requires a.Valid() && b.Valid() && a.Serial() == b.Serial()
    ensures a == b
  {
    if a.month < b.month {
      SerialOrder(a, b);
    } else if b.month < a.month {
      SerialOrder(b, a);
    }
  }

  lemma SplitInstant(serial: int, time: int)
    requires 0 <= time < DAY
    ensures (serial * DAY + time) / DAY == serial && (serial * DAY + time) % DAY == time
  {
  }

  /** On instants, `AddMonths` moves the date and keeps the time of day. */
  lemma PeriodEndAtDate(d: Date, serial: int, time: int, cycle: Cycle)
    requires d.Valid() && serial == d.Serial() && 0 <= time < DAY
    ensures PeriodEndAt(serial * DAY + time, cycle) == AddMonths(d, Months(cycle)).Serial() * DAY + time
  {
    SplitInstant(serial, time);
    SerialIsInjective(DateOf(serial), d);
  }
}
