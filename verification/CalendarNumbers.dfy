/** The calendar in numbers: where months and years begin, by the Gregorian rule written out. */
module CalendarNumbers {
  import opened Calendar
  import opened Pricing

  /** The days of a common year before each of its months. */
  const DAYS_BEFORE: seq<int> := [0, 31, 59, 90, 120, 151, 181, 212, 243, 273, 304, 334]

  lemma MonthOfYear(year: int, m: nat)
    requires m < 12
    ensures (12 * year + m) / 12 == year && (12 * year + m) % 12 == m
  {
  }

  /** The first half of the year, and the second. */
  lemma FirstHalf(year: int)
    ensures var leap := if year % 4 == 0 && (year % 100 != 0 || year % 400 == 0) then 1 else 0;
            && MonthStart(12 * year + 1) == MonthStart(12 * year) + 31
            && MonthStart(12 * year + 2) == MonthStart(12 * year) + 59 + leap
            && MonthStart(12 * year + 3) == MonthStart(12 * year) + 90 + leap
            && MonthStart(12 * year + 4) == MonthStart(12 * year) + 120 + leap
            && MonthStart(12 * year + 5) == MonthStart(12 * year) + 151 + leap
            && MonthStart(12 * year + 6) == MonthStart(12 * year) + 181 + leap
  {
    hide MonthStart;
    var first := 12 * year;
    MonthOfYear(year, 0);
    MonthStep(first);
    MonthOfYear(year, 1);
    MonthStep(first + 1);
    MonthOfYear(year, 2);
    MonthStep(first + 2);
    MonthOfYear(year, 3);
    MonthStep(first + 3);
    MonthOfYear(year, 4);
    MonthStep(first + 4);
    MonthOfYear(year, 5);
    MonthStep(first + 5);
  }

  lemma SecondHalf(year: int)
    ensures MonthStart(12 * year + 7) == MonthStart(12 * year + 6) + 31
    ensures MonthStart(12 * year + 8) == MonthStart(12 * year + 6) + 62
    ensures MonthStart(12 * year + 9) == MonthStart(12 * year + 6) + 92
    ensures MonthStart(12 * year + 10) == MonthStart(12 * year + 6) + 123
    ensures MonthStart(12 * year + 11) == MonthStart(12 * year + 6) + 153
    ensures MonthStart(12 * year + 12) == MonthStart(12 * year + 6) + 184
  {
    hide MonthStart;
    var first := 12 * year;
    MonthOfYear(year, 6);
    MonthStep(first + 6);
    MonthOfYear(year, 7);
    MonthStep(first + 7);
    MonthOfYear(year, 8);
    MonthStep(first + 8);
    MonthOfYear(year, 9);
    MonthStep(first + 9);
    MonthOfYear(year, 10);
    MonthStep(first + 10);
    MonthOfYear(year, 11);
    MonthStep(first + 11);
  }

  /** Every month of every year begins so many days into it, one more from March on in a leap year. */
  lemma MonthOffset(year: int, m: nat)
    requires m < 12
    ensures MonthStart(12 * year + m) - MonthStart(12 * year)
         == DAYS_BEFORE[m]
            + (if m >= 2 && year % 4 == 0 && (year % 100 != 0 || year % 400 == 0) then 1 else 0)
  {
    hide MonthStart;
    FirstHalf(year);
    SecondHalf(year);
  }

  lemma YearStep(year: int)
    ensures MonthStart(12 * (year + 1)) - MonthStart(12 * year)
         == 365 + (if year % 4 == 0 && (year % 100 != 0 || year % 400 == 0) then 1 else 0)
  {
    hide MonthStart;
    FirstHalf(year);
    SecondHalf(year);
    assert 12 * (year + 1) == 12 * year + 12;
  }

  /** The multiples of a number among the years before this one, as far as year 0. */
  function Multiples(n: int, year: int): int
    requires n > 0
  {
    (year - 1) / n
  }

  /** The days before the year: one more every fourth, less every hundredth, and again every four-hundredth. */
  function DaysBeforeYear(year: int): int {
    365 * (year - 1) + Multiples(4, year) - Multiples(100, year) + Multiples(400, year)
  }

  lemma Fourths(year: int)
    ensures Multiples(4, year + 1) - Multiples(4, year) == if year % 4 == 0 then 1 else 0
  {
  }

  lemma Hundredths(year: int)
    ensures Multiples(100, year + 1) - Multiples(100, year) == if year % 100 == 0 then 1 else 0
    ensures year % 100 == 0 ==> year % 4 == 0
  {
  }

  lemma FourHundredths(year: int)
    ensures Multiples(400, year + 1) - Multiples(400, year) == if year % 400 == 0 then 1 else 0
    ensures year % 400 == 0 ==> year % 100 == 0
  {
  }

  lemma LeapRule(year: int)
    ensures DaysBeforeYear(year + 1) - DaysBeforeYear(year)
         == 365 + (if year % 4 == 0 && (year % 100 != 0 || year % 400 == 0) then 1 else 0)
  {
    hide Multiples;
    Fourths(year);
    Hundredths(year);
    FourHundredths(year);
  }

  /** Where every year begins, counted from 1 January of year 1. */
  lemma {:induction false} YearStart(year: int)
    ensures MonthStart(12 * year) == DaysBeforeYear(year)
    decreases if year >= 1 then year - 1 else 1 - year
  {
    hide MonthStart, DaysBeforeYear;
    if year == 1 {
      assert MonthStart(12) == 0 by { FirstDay(); }
      assert DaysBeforeYear(1) == 0 by { FirstDay(); }
    } else if year > 1 {
      YearStart(year - 1);
      YearStep(year - 1);
      LeapRule(year - 1);
    } else {
      YearStart(year + 1);
      YearStep(year);
      LeapRule(year);
    }
  }

  lemma FirstDay()
    ensures MonthStart(12) == 0 && DaysBeforeYear(1) == 0
  {
  }

  /** Every civil date in numbers, with no reference to the calendar but the Gregorian rule. */
  lemma CivilInstant(year: int, m: nat, day: int, clock: int)
    requires m < 12
    ensures Instant(Date(12 * year + m, day, clock))
         == 86_400_000_000_000
            * (365 * (year - 1) + (year - 1) / 4 - (year - 1) / 100 + (year - 1) / 400 + DAYS_BEFORE[m]
               + (if m >= 2 && year % 4 == 0 && (year % 100 != 0 || year % 400 == 0) then 1 else 0) + day - 1)
            + clock
  {
    hide MonthStart;
    YearStart(year);
    MonthOffset(year, m);
  }

  /** Four hundred years are 146097 days, and 1 January 1970 is day 719162. */
  lemma CivilLandmarks(year: int)
    ensures MonthStart(12 * (year + 400)) - MonthStart(12 * year) == 146_097
    ensures MonthStart(12 * 1970) == 719_162
  {
    hide MonthStart;
    YearStart(year);
    YearStart(year + 400);
    YearStart(1970);
    assert (year + 399) / 4 == (year - 1) / 4 + 100;
    assert (year + 399) / 100 == (year - 1) / 100 + 4;
    assert (year + 399) / 400 == (year - 1) / 400 + 1;
  }

  /** What each interval adds, in numbers: exact days and weeks, or months added to the date. */
  lemma NextBillingInNumbers(p: Price, from: int)
    ensures p.interval.Day? ==> NextBillingDate(p, from) == from + 86_400_000_000_000 * p.count
    ensures p.interval.Week? ==> NextBillingDate(p, from) == from + 604_800_000_000_000 * p.count
    ensures var d := DateOf(from);
            && (p.interval.Month? || p.interval.Other? ==>
                  NextBillingDate(p, from) == Instant(Date(d.month + p.count, d.day, d.clock)))
            && (p.interval.Year? ==>
                  NextBillingDate(p, from) == Instant(Date(d.month + 12 * p.count, d.day, d.clock)))
  {
    hide DateOf, MonthStart;
    AddDays(from, p.count);
    AddDays(from, 7 * p.count);
  }

  /** The first of a month, billed monthly, is followed by the first of the next. */
  lemma FirstToFirst(p: Price, year: int, m: nat, clock: int)
    requires p.interval.Month? && p.count == 1 && m < 11 && 0 <= clock < DAY
    ensures NextBillingDate(p, Instant(Date(12 * year + m, 1, clock))) - Instant(Date(12 * year + m, 1, clock))
         == 86_400_000_000_000
            * (DAYS_BEFORE[m + 1] - DAYS_BEFORE[m]
               + (if m == 1 && year % 4 == 0 && (year % 100 != 0 || year % 400 == 0) then 1 else 0))
  {
    hide MonthStart, DateOf, NextBillingDate, Instant;
    var d := Date(12 * year + m, 1, clock);
    InstantRoundTrip(d);
    NextBillingInNumbers(p, Instant(d));
    CivilInstant(year, m, 1, clock);
    CivilInstant(year, m + 1, 1, clock);
  }
}
