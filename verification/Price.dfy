/** Prices and the billing dates they imply. */
module Pricing {
  import opened Calendar

  /** The interval is free text in the source; any other text is billed like a month. */
  datatype BillingInterval = Day | Week | Month | Year | Other(text: string)

  datatype Price = Price(id: nat, amount: int, interval: BillingInterval, count: int, active: bool)

  /** A new price always has an interval count of at least one. */
  function NewPrice(id: nat, amount: int, interval: BillingInterval, count: int): (p: Price)
    ensures p.count >= 1 && (count >= 1 ==> p.count == count)
    ensures p.active && p.amount == amount && p.interval == interval
  {
    Price(id, amount, interval, if count <= 0 then 1 else count, true)
  }

  function NextBillingDate(p: Price, from: int): int {
    match p.interval
    case Day => AddDate(from, 0, 0, p.count)
    case Week => AddDate(from, 0, 0, 7 * p.count)
    case Month => AddDate(from, 0, p.count, 0)
    case Year => AddDate(from, p.count, 0, 0)
    case Other(_) => AddDate(from, 0, p.count, 0)
  }

  predicate FixedLength(p: Price) {
    p.interval.Day? || p.interval.Week?
  }

  function DaysPerPeriod(p: Price): int
    requires FixedLength(p)
  {
    if p.interval.Day? then p.count else 7 * p.count
  }

  function MonthsPerPeriod(p: Price): int
    requires !FixedLength(p)
  {
    if p.interval.Year? then 12 * p.count else p.count
  }

  /** The least and the greatest length a billing period of a price can have. */
  function LeastPeriod(p: Price): int {
    if FixedLength(p) then DAY * DaysPerPeriod(p) else DAY * (28 * MonthsPerPeriod(p))
  }

  function GreatestPeriod(p: Price): int {
    if FixedLength(p) then DAY * DaysPerPeriod(p) else DAY * (31 * MonthsPerPeriod(p))
  }

  /**
    The exact length of a billing period: a fixed number of days, or else the lengths of
    consecutive calendar months from the one it starts in, whatever the day of the month.
   */
  lemma PeriodLength(p: Price, from: int)
    requires p.count >= 1
    ensures FixedLength(p) ==> NextBillingDate(p, from) - from == DAY * DaysPerPeriod(p)
    ensures !FixedLength(p) ==>
              NextBillingDate(p, from) - from == DAY * MonthsLength(DateOf(from).month, MonthsPerPeriod(p))
    ensures 0 < LeastPeriod(p) <= NextBillingDate(p, from) - from <= GreatestPeriod(p)
  {
    hide AddDate, DateOf;
    match p.interval {
      case Day => AddDays(from, p.count);
      case Week => AddDays(from, 7 * p.count);
      case Month => AddMonthsLength(from, p.count);
      case Year =>
        AddYearsAsMonths(from, p.count);
        AddMonthsLength(from, 12 * p.count);
      case Other(_) => AddMonthsLength(from, p.count);
    }
  }

  /** Periods of one price differ by less than the shortest of them. */
  lemma PeriodSpread(p: Price)
    requires p.count >= 1
    ensures 0 <= GreatestPeriod(p) - LeastPeriod(p) < LeastPeriod(p)
    ensures FixedLength(p) ==> GreatestPeriod(p) == LeastPeriod(p)
  {
  }

  /** The billing date reached from `from` after `k` periods, one after the other. */
  function BillingDateAfter(p: Price, from: int, k: nat): int
    decreases k
  {
    if k == 0 then from else BillingDateAfter(p, NextBillingDate(p, from), k - 1)
  }

  lemma {:induction false} BillingDateAfterSplit(p: Price, from: int, j: nat, k: nat)
    ensures BillingDateAfter(p, from, j + k) == BillingDateAfter(p, BillingDateAfter(p, from, j), k)
    decreases j
  {
    hide NextBillingDate;
    if j > 0 {
      BillingDateAfterSplit(p, NextBillingDate(p, from), j - 1, k);
    }
  }

  lemma NextBillingInMonths(p: Price, from: int)
    requires !FixedLength(p)
    ensures NextBillingDate(p, from) == AddDate(from, 0, MonthsPerPeriod(p), 0)
  {
    hide AddDate;
    if p.interval.Year? {
      AddYearsAsMonths(from, p.count);
    }
  }

  /** From the 28th or earlier, adding months changes the month and nothing else. */
  lemma AddMonthsKeepsEarlyDay(t: int, months: int)
    requires DateOf(t).day <= 28
    ensures var d := DateOf(t); DateOf(AddDate(t, 0, months, 0)) == Date(d.month + months, d.day, d.clock)
  {
    hide DateOf, Instant;
    InstantRoundTrip(Date(DateOf(t).month + months, DateOf(t).day, DateOf(t).clock));
  }

  /** From any day, adding months keeps the day of the month or overflows to the 1st, 2nd or 3rd. */
  lemma AddMonthsKeepsDayOrOverflows(t: int, months: int)
    ensures var day := DateOf(AddDate(t, 0, months, 0)).day; day == DateOf(t).day || 1 <= day <= 3
  {
    hide DateOf, Instant;
    var d := Date(DateOf(t).month + months, DateOf(t).day, DateOf(t).clock);
    if d.day <= MonthLength(d.month) {
      InstantRoundTrip(d);
    } else {
      OverflowingDay(d);
    }
  }

  /**
    The anchor day is kept up to the 28th: `k` periods one after the other are the same as
    one calendar addition of all their months.
   */
  lemma {:induction false} AnchorKept(p: Price, from: int, k: nat)
    requires !FixedLength(p) && DateOf(from).day <= 28
    ensures BillingDateAfter(p, from, k) == AddDate(from, 0, k * MonthsPerPeriod(p), 0)
    ensures DateOf(BillingDateAfter(p, from, k)).day == DateOf(from).day
    decreases k
  {
    hide DateOf, Instant, NextBillingDate;
    if k > 0 {
      var n := MonthsPerPeriod(p);
      NextBillingInMonths(p, from);
      AddMonthsKeepsEarlyDay(from, n);
      AnchorKept(p, NextBillingDate(p, from), k - 1);
      assert n + (k - 1) * n == k * n;
    }
  }

  /**
    From any start day, the day of the month changes at most once over an unbounded run of
    successive periods, and then is 1, 2 or 3 for good.
   */
  lemma AnchorChangesAtMostOnce(p: Price, from: int, i: nat, j: nat)
    requires !FixedLength(p) && i <= j
    requires DateOf(BillingDateAfter(p, from, i)).day != DateOf(from).day
    ensures 1 <= DateOf(BillingDateAfter(p, from, i)).day <= 3
    ensures DateOf(BillingDateAfter(p, from, j)).day == DateOf(BillingDateAfter(p, from, i)).day
  {
    hide DateOf, NextBillingDate;
    AnchorOrOverflow(p, from, i);
    BillingDateAfterSplit(p, from, i, j - i);
    AnchorKept(p, BillingDateAfter(p, from, i), j - i);
  }

  lemma {:induction false} AnchorOrOverflow(p: Price, from: int, k: nat)
    requires !FixedLength(p)
    ensures var day := DateOf(BillingDateAfter(p, from, k)).day; day == DateOf(from).day || 1 <= day <= 3
  {
    hide DateOf, NextBillingDate;
    if k > 0 {
      var last := BillingDateAfter(p, from, k - 1);
      AnchorOrOverflow(p, from, k - 1);
      BillingDateAfterSplit(p, from, k - 1, 1);
      assert BillingDateAfter(p, NextBillingDate(p, last), 0) == NextBillingDate(p, last);
      NextBillingInMonths(p, last);
      AddMonthsKeepsDayOrOverflows(last, MonthsPerPeriod(p));
      if DateOf(last).day <= 3 {
        AddMonthsKeepsEarlyDay(last, MonthsPerPeriod(p));
      }
    }
  }
}
