/** How a renewal moves the billing period, and what that means over many renewals. */
module Periods {
  import opened Calendar
  import opened Pricing

  datatype Period = Period(start: int, end: int)

  /** The period ends on the billing date its price gives: what creation sets up and renewal keeps. */
  predicate OnSchedule(p: Price, cur: Period) {
    cur.end == NextBillingDate(p, cur.start)
  }

  /** Whole periods that went by since the current one ended, measured by its own length. */
  function Missed(cur: Period, now: int): int
    requires cur.start < cur.end
  {
    if now > cur.end then (now - cur.end) / (cur.end - cur.start) else 0
  }

  /** The period a renewal at `now` moves to: past every missed period in one division. */
  function CatchUp(p: Price, cur: Period, now: int): Period
    requires cur.start < cur.end
  {
    var start := cur.end + (cur.end - cur.start) * Missed(cur, now);
    Period(start, NextBillingDate(p, start))
  }

  /** The period a renewal invoice bills: the one after the subscription's current period. */
  function BilledPeriod(p: Price, cur: Period): Period {
    Period(cur.end, NextBillingDate(p, cur.end))
  }

  lemma OnScheduleBounds(p: Price, cur: Period)
    requires p.count >= 1 && OnSchedule(p, cur)
    ensures 0 < LeastPeriod(p) <= cur.end - cur.start <= GreatestPeriod(p)
  {
    PeriodLength(p, cur.start);
  }

  lemma MissedDivides(cur: Period, now: int)
    requires cur.start < cur.end <= now
    ensures var len := cur.end - cur.start;
            0 <= Missed(cur, now) && 0 <= now - cur.end - len * Missed(cur, now) < len
  {
  }

  /** A renewal keeps the schedule and moves the start at or past the old end, and the end strictly on. */
  lemma CatchUpAdvances(p: Price, cur: Period, now: int)
    requires p.count >= 1 && cur.start < cur.end
    ensures var next := CatchUp(p, cur, now);
            OnSchedule(p, next) && cur.end <= next.start < next.end
            && (cur.end <= now ==> next.start <= now < next.start + (cur.end - cur.start))
  {
    hide NextBillingDate, LeastPeriod, GreatestPeriod;
    var len := cur.end - cur.start;
    PeriodLength(p, CatchUp(p, cur, now).start);
    if cur.end <= now {
      MissedDivides(cur, now);
      assert len * Missed(cur, now) >= 0;
    }
  }

  /** Moving one period at a time until its end is past `now`: what catching up means. */
  function CatchUpByLoop(p: Price, cur: Period, now: int): Period
    requires p.count >= 1
    decreases if cur.end <= now then now - cur.end + 1 else 0
  {
    PeriodLength(p, cur.end);
    var next := BilledPeriod(p, cur);
    if next.end > now then next else CatchUpByLoop(p, next, now)
  }

  lemma {:induction false} BillingDatesIncrease(p: Price, from: int, j: nat)
    requires p.count >= 1
    ensures BillingDateAfter(p, from, j) < BillingDateAfter(p, from, j + 1)
    decreases j
  {
    hide NextBillingDate;
    if j > 0 {
      BillingDatesIncrease(p, NextBillingDate(p, from), j - 1);
    } else {
      PeriodLength(p, from);
      assert BillingDateAfter(p, NextBillingDate(p, from), 0) == NextBillingDate(p, from);
    }
  }

  lemma {:induction false} BillingDatesOrdered(p: Price, from: int, i: nat, j: nat)
    requires p.count >= 1 && i < j
    ensures BillingDateAfter(p, from, i) < BillingDateAfter(p, from, j)
    decreases j - i
  {
    hide BillingDateAfter;
    BillingDatesIncrease(p, from, i);
    if i + 1 < j {
      BillingDatesOrdered(p, from, i + 1, j);
    }
  }

  /** The loop stops at the first billing date past `now`, counted from the old end. */
  lemma {:induction false} LoopStopsAt(p: Price, cur: Period, now: int) returns (j: nat)
    requires p.count >= 1
    ensures CatchUpByLoop(p, cur, now) == Period(BillingDateAfter(p, cur.end, j), BillingDateAfter(p, cur.end, j + 1))
    ensures BillingDateAfter(p, cur.end, j + 1) > now && (j > 0 ==> BillingDateAfter(p, cur.end, j) <= now)
    decreases if cur.end <= now then now - cur.end + 1 else 0
  {
    hide NextBillingDate;
    PeriodLength(p, cur.end);
    var next := BilledPeriod(p, cur);
    assert BillingDateAfter(p, cur.end, 1) == BillingDateAfter(p, next.end, 0) == next.end;
    if next.end > now {
      j := 0;
    } else {
      var k := LoopStopsAt(p, next, now);
      j := k + 1;
    }
  }

  /**
    Exactly when the division does what the loop does, for every price: it starts on one of the
    price's billing dates and the period it arrives at is not over.
   */
  lemma DivisionAgreesIff(p: Price, cur: Period, now: int)
    requires p.count >= 1 && cur.start < cur.end
    ensures CatchUp(p, cur, now) == CatchUpByLoop(p, cur, now)
       <==> CatchUp(p, cur, now).end > now
            && exists j: nat :: CatchUp(p, cur, now).start == BillingDateAfter(p, cur.end, j)
  {
    hide NextBillingDate, CatchUp, CatchUpByLoop, BillingDateAfter;
    var next := CatchUp(p, cur, now);
    var j := LoopStopsAt(p, cur, now);
    CatchUpStartsBy(p, cur, now);
    if next.end > now {
      if k: nat :| next.start == BillingDateAfter(p, cur.end, k) {
        BillingDateAfterNext(p, cur.end, k);
        if j + 1 <= k {
          NoLaterThan(p, cur.end, j + 1, k);
          BillingDatesOrdered(p, cur.end, 0, k);
          assert BillingDateAfter(p, cur.end, 0) == cur.end by { FirstBillingDate(p, cur.end); }
        } else if k < j {
          NoLaterThan(p, cur.end, k + 1, j);
        }
      }
    }
  }

  lemma NoLaterThan(p: Price, from: int, i: nat, j: nat)
    requires p.count >= 1 && i <= j
    ensures BillingDateAfter(p, from, i) <= BillingDateAfter(p, from, j)
  {
    hide BillingDateAfter;
    if i < j {
      BillingDatesOrdered(p, from, i, j);
    }
  }

  lemma FirstBillingDate(p: Price, from: int)
    ensures BillingDateAfter(p, from, 0) == from
  {
  }

  lemma BillingDateAfterNext(p: Price, from: int, k: nat)
    ensures BillingDateAfter(p, from, k + 1) == NextBillingDate(p, BillingDateAfter(p, from, k))
  {
    hide NextBillingDate;
    BillingDateAfterSplit(p, from, k, 1);
    var last := BillingDateAfter(p, from, k);
    assert BillingDateAfter(p, last, 1) == BillingDateAfter(p, NextBillingDate(p, last), 0);
  }

  /** The new period has not begun later than `now`, except the first one after a period still running. */
  lemma CatchUpStartsBy(p: Price, cur: Period, now: int)
    requires p.count >= 1 && cur.start < cur.end
    ensures var next := CatchUp(p, cur, now);
            && next.end == NextBillingDate(p, next.start)
            && (next.start <= now || (now < cur.end && next.start == cur.end))
  {
    hide NextBillingDate;
    CatchUpAdvances(p, cur, now);
  }

  lemma {:induction false} FixedBillingDates(p: Price, from: int, k: nat)
    requires p.count >= 1 && FixedLength(p)
    ensures BillingDateAfter(p, from, k) == from + DAY * DaysPerPeriod(p) * k
    decreases k
  {
    hide NextBillingDate, DaysPerPeriod;
    if k > 0 {
      PeriodLength(p, from);
      FixedBillingDates(p, NextBillingDate(p, from), k - 1);
      MultipleStep(DAY * DaysPerPeriod(p), k);
    }
  }

  lemma MultipleStep(n: int, k: int)
    ensures n * k == n + n * (k - 1)
  {
  }

  /** For day and week prices the one division gives exactly the period of the loop, for any arrears. */
  lemma DivisionRefinesLoop(p: Price, cur: Period, now: int)
    requires p.count >= 1 && FixedLength(p) && OnSchedule(p, cur) && cur.start < cur.end
    ensures CatchUp(p, cur, now) == CatchUpByLoop(p, cur, now)
    ensures CatchUp(p, cur, now).end > now
  {
    hide NextBillingDate, BillingDateAfter, CatchUpByLoop, DaysPerPeriod, Missed;
    PeriodLength(p, cur.start);
    CatchUpAdvances(p, cur, now);
    PeriodLength(p, CatchUp(p, cur, now).start);
    MissedNotNegative(cur, now);
    FixedBillingDates(p, cur.end, Missed(cur, now));
    DivisionAgreesIff(p, cur, now);
  }

  lemma MissedNotNegative(cur: Period, now: int)
    requires cur.start < cur.end
    ensures Missed(cur, now) >= 0
  {
    if cur.end <= now {
      MissedDivides(cur, now);
    }
  }

  /**
    Exactly when one renewal catches up, for every price: the period it arrives at is longer than
    what the division leaves over.
   */
  lemma OneRenewalCatchesUpIff(p: Price, cur: Period, now: int)
    requires p.count >= 1 && cur.start < cur.end <= now
    ensures var len := cur.end - cur.start;
            var start := cur.end + len * ((now - cur.end) / len);
            CatchUp(p, cur, now).end > now <==> (now - cur.end) % len < NextBillingDate(p, start) - start
  {
    hide NextBillingDate;
    var len := cur.end - cur.start;
    assert now == cur.end ==> (now - cur.end) / len == 0;
    assert now - cur.end == len * ((now - cur.end) / len) + (now - cur.end) % len;
  }

  /** One renewal catches up unless the new period is shorter than what is left over. */
  lemma CatchUpLeavesLess(p: Price, cur: Period, now: int)
    requires p.count >= 1 && OnSchedule(p, cur) && cur.start < cur.end <= now
    ensures now - CatchUp(p, cur, now).end < GreatestPeriod(p) - LeastPeriod(p)
  {
    hide NextBillingDate, LeastPeriod, GreatestPeriod;
    OnScheduleBounds(p, cur);
    CatchUpAdvances(p, cur, now);
    OnScheduleBounds(p, CatchUp(p, cur, now));
  }

  /** Two renewals at the same instant always catch up; for day and week prices one does. */
  lemma TwoRenewalsCatchUp(p: Price, cur: Period, now: int)
    requires p.count >= 1 && OnSchedule(p, cur) && cur.start < cur.end <= now
    ensures var once := CatchUp(p, cur, now);
            (FixedLength(p) ==> once.end > now)
            && once.start < once.end
            && CatchUp(p, once, now).end > now
  {
    hide NextBillingDate, LeastPeriod, GreatestPeriod;
    var once := CatchUp(p, cur, now);
    CatchUpAdvances(p, cur, now);
    CatchUpLeavesLess(p, cur, now);
    PeriodSpread(p);
    CatchUpAdvances(p, once, now);
    OnScheduleBounds(p, CatchUp(p, once, now));
  }

  /**
    The periods billed by two renewals in a row never overlap, and they touch exactly when
    no period was missed in between.
   */
  lemma BilledPeriodsDisjoint(p: Price, cur: Period, now: int)
    requires p.count >= 1 && OnSchedule(p, cur) && cur.start < cur.end <= now
    ensures var next := CatchUp(p, cur, now);
            BilledPeriod(p, cur).end <= BilledPeriod(p, next).start
            && (BilledPeriod(p, cur).end == BilledPeriod(p, next).start <==> Missed(cur, now) == 0)
  {
    hide NextBillingDate, LeastPeriod, GreatestPeriod, Missed;
    var next := CatchUp(p, cur, now);
    OnScheduleBounds(p, cur);
    OnScheduleBounds(p, next);
    PeriodLength(p, cur.end);
    PeriodSpread(p);
    MissedMoves(cur, now);
  }

  lemma MissedMoves(cur: Period, now: int)
    requires cur.start < cur.end <= now
    ensures var len := cur.end - cur.start;
            if Missed(cur, now) == 0 then len * Missed(cur, now) == 0
            else Missed(cur, now) > 0 && len * Missed(cur, now) >= len
  {
    MissedDivides(cur, now);
    var len, k := cur.end - cur.start, Missed(cur, now);
    assert k >= 1 ==> len * k >= len;
  }

  /** Renewing at each of the given instants in turn. */
  function CatchUpAll(p: Price, cur: Period, nows: seq<int>): (last: Period)
    requires p.count >= 1 && cur.start < cur.end
    ensures last.start < last.end
    decreases |nows|
  {
    if nows == [] then cur
    else
      CatchUpAdvances(p, cur, nows[0]);
      CatchUpAll(p, CatchUp(p, cur, nows[0]), nows[1..])
  }

  /** Every one of the renewals happens when a period has just ended, none being missed. */
  predicate NeverMissed(p: Price, cur: Period, nows: seq<int>)
    requires p.count >= 1 && cur.start < cur.end
    decreases |nows|
  {
    nows != [] ==>
      && cur.end <= nows[0] && Missed(cur, nows[0]) == 0
      && (CatchUpAdvances(p, cur, nows[0]); NeverMissed(p, CatchUp(p, cur, nows[0]), nows[1..]))
  }

  /** A run of renewals that misses nothing walks the billing dates of the price one by one. */
  lemma {:induction false} UnmissedRun(p: Price, cur: Period, nows: seq<int>)
    requires p.count >= 1 && cur.start < cur.end && NeverMissed(p, cur, nows)
    ensures CatchUpAll(p, cur, nows).end == BillingDateAfter(p, cur.end, |nows|)
    decreases |nows|
  {
    hide NextBillingDate;
    if nows != [] {
      CatchUpAdvances(p, cur, nows[0]);
      UnmissedRun(p, CatchUp(p, cur, nows[0]), nows[1..]);
    }
  }

  /**
    Up to the 28th, renewals that miss nothing amount to a single calendar addition of all their
    months: the billing day does not drift.
   */
  lemma UnmissedRunKeepsAnchor(p: Price, cur: Period, nows: seq<int>)
    requires p.count >= 1 && cur.start < cur.end && NeverMissed(p, cur, nows)
    requires !FixedLength(p) && DateOf(cur.end).day <= 28
    ensures CatchUpAll(p, cur, nows).end == AddDate(cur.end, 0, |nows| * MonthsPerPeriod(p), 0)
    ensures DateOf(CatchUpAll(p, cur, nows).end).day == DateOf(cur.end).day
  {
    hide DateOf, AddDate, NextBillingDate, NeverMissed;
    UnmissedRun(p, cur, nows);
    AnchorKept(p, cur.end, |nows|);
  }

  /**
    The bound of two is met: a monthly period of January, renewed on 1 March, moves to
    February, which is over by then.
   */
  lemma OneRenewalCanFallShort(p: Price)
    requires p.interval == Month && p.count == 1
    ensures var cur, now := Period(0, 31 * DAY), 59 * DAY;
            OnSchedule(p, cur) && CatchUp(p, cur, now).end <= now
  {
    hide NextBillingDate;
    MonthlyDates(p);
  }

  /** The division drifts off the calendar for months: renewed on 15 March it starts on 4 March, not 1 March. */
  lemma DivisionDriftsForMonths(p: Price)
    requires p.interval == Month && p.count == 1
    ensures var cur, now := Period(0, 31 * DAY), 73 * DAY;
            OnSchedule(p, cur) && CatchUp(p, cur, now).start == 62 * DAY
            && CatchUpByLoop(p, cur, now) == Period(59 * DAY, 90 * DAY)
  {
    hide NextBillingDate;
    MonthlyDates(p);
    assert Missed(Period(0, 31 * DAY), 73 * DAY) == 1;
    assert CatchUpByLoop(p, Period(31 * DAY, 59 * DAY), 73 * DAY) == Period(59 * DAY, 90 * DAY);
  }

  /** The first days of February to April of year 1. */
  lemma MonthlyDates(p: Price)
    requires p.interval == Month && p.count == 1
    ensures NextBillingDate(p, 0) == 31 * DAY
    ensures NextBillingDate(p, 31 * DAY) == 59 * DAY
    ensures NextBillingDate(p, 59 * DAY) == 90 * DAY
  {
    hide DateOf;
    assert MonthStart(13) == 31;
    assert MonthStart(14) == 59;
    assert MonthStart(15) == 90;
    InstantRoundTrip(Date(12, 1, 0));
    InstantRoundTrip(Date(13, 1, 0));
    InstantRoundTrip(Date(14, 1, 0));
  }
}
