/**
  Instants on the proleptic Gregorian calendar, in UTC, and the calendar addition the
  billing code relies on. An instant is a number of nanoseconds; instant 0 is the zero
  value of a Go time, midnight of 1 January of year 1. Years of either sign are covered.
 */
module Calendar {

  const DAY: int := 86_400_000_000_000

  predicate IsLeap(year: int) {
    year % 4 == 0 && (year % 100 != 0 || year % 400 == 0)
  }

  /** Months are numbered through: month `12 * year + m`, with January as 0, is month `m` of `year`. */
  function MonthLength(month: int): (days: int)
    ensures 28 <= days <= 31
  {
    match month % 12
    case 1 => if IsLeap(month / 12) then 29 else 28
    case 3 => 30
    case 5 => 30
    case 8 => 30
    case 10 => 30
    case _ => 31
  }

  /** The number of days from 1 January of year 1 to the first day of a month, before or after it. */
  function MonthStart(month: int): int
    decreases if month >= 12 then month - 12 else 12 - month
  {
    if month == 12 then 0
    else if month > 12 then MonthStart(month - 1) + MonthLength(month - 1)
    else MonthStart(month + 1) - MonthLength(month)
  }

  /** The total length of `count` consecutive months. */
  function MonthsLength(month: int, count: nat): (days: int)
    ensures 28 * count <= days <= 31 * count
    decreases count
  {
    if count == 0 then 0 else MonthLength(month) + MonthsLength(month + 1, count - 1)
  }

  lemma MonthStep(month: int)
    ensures MonthStart(month + 1) == MonthStart(month) + MonthLength(month)
  {
  }

  /** Month starts telescope into the sum of the month lengths between them. */
  lemma {:induction false} MonthStartAfter(month: int, count: nat)
    ensures MonthStart(month + count) == MonthStart(month) + MonthsLength(month, count)
    decreases count
  {
    hide MonthLength;
    if count > 0 {
      MonthStep(month);
      MonthStartAfter(month + 1, count - 1);
    }
  }

  /** The month a day falls in, searched for from month `from`. */
  function MonthOf(dayNumber: int, from: int): (month: int)
    ensures MonthStart(month) <= dayNumber < MonthStart(month) + MonthLength(month)
    decreases if dayNumber < MonthStart(from) then MonthStart(from) - dayNumber + 31 else dayNumber - MonthStart(from)
  {
    MonthStep(from);
    MonthStep(from - 1);
    if dayNumber < MonthStart(from) then MonthOf(dayNumber, from - 1)
    else if dayNumber >= MonthStart(from + 1) then MonthOf(dayNumber, from + 1)
    else from
  }

  /** A calendar date: through-numbered month, day of the month from 1, time of day. */
  datatype Date = Date(month: int, day: int, clock: int)

  predicate IsDate(d: Date) {
    1 <= d.day <= MonthLength(d.month) && 0 <= d.clock < DAY
  }

  /** The instant of a date; a day past the end of its month runs on into the next. */
  function Instant(d: Date): int {
    DAY * (MonthStart(d.month) + d.day - 1) + d.clock
  }

  /** The date of an instant: every instant has a valid date, which gives the instant back. */
  function DateOf(t: int): (d: Date)
    ensures IsDate(d) && Instant(d) == t
  {
    var month := MonthOf(t / DAY, 12);
    Date(month, t / DAY - MonthStart(month) + 1, t % DAY)
  }

  /** Different months do not share a day. */
  lemma MonthsDisjoint(a: int, b: int)
    requires a < b
    ensures MonthStart(a) + MonthLength(a) <= MonthStart(b)
  {
    hide MonthStart, MonthLength;
    MonthStep(a);
    MonthStartAfter(a + 1, b - a - 1);
  }

  /** Every valid date is the date of its instant, so `DateOf` and `Instant` are inverses. */
  lemma InstantRoundTrip(d: Date)
    requires IsDate(d)
    ensures DateOf(Instant(d)) == d
  {
    hide MonthStart, MonthLength, DateOf;
    var e := DateOf(Instant(d));
    assert MonthStart(d.month) + d.day == MonthStart(e.month) + e.day && d.clock == e.clock;
    if d.month < e.month {
      MonthsDisjoint(d.month, e.month);
    } else if e.month < d.month {
      MonthsDisjoint(e.month, d.month);
    }
  }

  /** A day past the end of the month lands in the next month. */
  lemma OverflowingDay(d: Date)
    requires MonthLength(d.month) < d.day <= MonthLength(d.month) + 28 && 0 <= d.clock < DAY
    ensures DateOf(Instant(d)) == Date(d.month + 1, d.day - MonthLength(d.month), d.clock)
  {
    hide MonthStart, MonthLength, DateOf;
    MonthStep(d.month);
    InstantRoundTrip(Date(d.month + 1, d.day - MonthLength(d.month), d.clock));
  }

  /** Calendar addition: the fields are added, the time of day is kept, and the result normalised. */
  function AddDate(t: int, years: int, months: int, days: int): int {
    var d := DateOf(t);
    Instant(Date(d.month + 12 * years + months, d.day + days, d.clock))
  }

  /** Adding days is exact. */
  lemma AddDays(t: int, days: int)
    ensures AddDate(t, 0, 0, days) == t + DAY * days
  {
    hide MonthStart, DateOf;
  }

  /**
    Adding months moves an instant by exactly the lengths of that many consecutive months,
    counted from the month it is in, whatever its day of the month.
   */
  lemma AddMonthsLength(t: int, months: nat)
    ensures AddDate(t, 0, months, 0) - t == DAY * MonthsLength(DateOf(t).month, months)
    ensures 28 * months * DAY <= AddDate(t, 0, months, 0) - t <= 31 * months * DAY
  {
    hide MonthStart, DateOf;
    MonthStartAfter(DateOf(t).month, months);
  }

  /** `n` years are `12 * n` months. */
  lemma AddYearsAsMonths(t: int, years: int)
    ensures AddDate(t, years, 0, 0) == AddDate(t, 0, 12 * years, 0)
  {
    hide Instant, DateOf;
  }

  /** 31 January plus one month: 3 March in a common year, 2 March in a leap year. */
  lemma EndOfJanuary(year: int, clock: int)
    requires 0 <= clock < DAY
    ensures DateOf(AddDate(Instant(Date(12 * year, 31, clock)), 0, 1, 0))
         == Date(12 * year + 2, if IsLeap(year) then 2 else 3, clock)
  {
    hide Instant, DateOf, IsLeap;
    assert (12 * year) / 12 == year && (12 * year) % 12 == 0;
    assert (12 * year + 1) / 12 == year && (12 * year + 1) % 12 == 1;
    InstantRoundTrip(Date(12 * year, 31, clock));
    OverflowingDay(Date(12 * year + 1, 31, clock));
  }
}
