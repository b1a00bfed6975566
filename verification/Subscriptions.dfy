/**
 Subscription periods (internal/service/subscription.go).  A time is a calendar day and a
 time of day, in UTC; `AddDate` moves the day only.
 */
module Subscriptions {
  import opened Wrappers
  import opened Calendar

  datatype Interval = Daily | Weekly | Monthly | Yearly | Unrecognised

  datatype Status = Active | PastDue | Cancelled | Unpaid | Trialing

  datatype Time = Time(date: Date, clock: nat)

  function Day(t: Time): int {
    DayNumber(t.date)
  }

  predicate Precedes(a: Time, b: Time) {
    Day(a) < Day(b) || (Day(a) == Day(b) && a.clock < b.clock)
  }

  /** `calculatePeriodEnd`; an unrecognised interval counts months. */
  function PeriodEnd(start: Time, interval: Interval, count: int): Time {
    var date := match interval
      case Daily => AddDate(start.date, 0, 0, count)
      case Weekly => AddDate(start.date, 0, 0, 7 * count)
      case Monthly => AddDate(start.date, 0, count, 0)
      case Yearly => AddDate(start.date, count, 0, 0)
      case Unrecognised => AddDate(start.date, 0, count, 0);
    start.(date := date)
  }

  // ------------------------------------------------------- one period

  predicate ByMonth(interval: Interval) {
    interval.Monthly? || interval.Yearly? || interval.Unrecognised?
  }

  /** The months in one period of a plan that is counted in months. */
  function MonthsOf(interval: Interval, count: int): int {
    if interval == Yearly then 12 * count else count
  }

  /** The days in one period of a plan that is counted in days. */
  function DaysOf(interval: Interval, count: int): int {
    if interval == Weekly then 7 * count else count
  }

  lemma PeriodEndByMonth(start: Time, interval: Interval, count: int)
    requires ByMonth(interval)
    ensures PeriodEnd(start, interval, count).date == AddDate(start.date, 0, MonthsOf(interval, count), 0)
    ensures Day(PeriodEnd(start, interval, count)) - Day(start)
         == MonthStart(start.date.month + MonthsOf(interval, count)) - MonthStart(start.date.month)
  {
    AddMonthsLandsOn(start.date, MonthsOf(interval, count));
  }

  lemma PeriodEndByDay(start: Time, interval: Interval, count: int)
    requires !ByMonth(interval)
    ensures Day(PeriodEnd(start, interval, count)) == Day(start) + DaysOf(interval, count)
  {
    AddDays(start.date, DaysOf(interval, count));
  }

  /**
   A billing period moves time forward exactly when the count is at least 1; the create
   handler enforces that, an update does not.
   */
  lemma PeriodAdvancesIffCountPositive(start: Time, interval: Interval, count: int)
    ensures Precedes(start, PeriodEnd(start, interval, count)) <==> count >= 1
    ensures count == 0 ==> PeriodEnd(start, interval, count) == start
  {
    if ByMonth(interval) {
      PeriodEndByMonth(start, interval, count);
      var m, n := start.date.month, MonthsOf(interval, count);
      MonthStartMonotone(m, m + n);
      MonthStartMonotone(m + n, m);
    } else {
      PeriodEndByDay(start, interval, count);
    }
  }

  /**
   A period of c months lasts exactly the c calendar months from its start month on, that is
   28c to 31c days; c years last 365c to 366c days; days and weeks are what they say.
   */
  lemma PeriodLength(start: Time, interval: Interval, count: nat)
    ensures var days := Day(PeriodEnd(start, interval, count)) - Day(start);
            match interval
            case Daily => days == count
            case Weekly => days == 7 * count
            case Yearly => 365 * count <= days <= 366 * count
            case _ => days == SumOfLengths(start.date.month, count) && 28 * count <= days <= 31 * count
    ensures PeriodEnd(start, interval, count).clock == start.clock
  {
    if ByMonth(interval) {
      PeriodEndByMonth(start, interval, count);
      MonthStartIsSum(start.date.month, count);
      YearsLast(start.date.month, count);
    } else {
      PeriodEndByDay(start, interval, count);
    }
  }

  // ------------------------------------------------- unboundedly many renewals

  /** The end after k periods of one plan. */
  function NthEnd(start: Time, interval: Interval, count: int, k: nat): Time {
    if k == 0 then start else PeriodEnd(NthEnd(start, interval, count, k - 1), interval, count)
  }

  lemma OneMore(k: nat, c: int)
    ensures (k + 1) * c == k * c + c
  {
  }

  lemma {:induction false} WeeksAndDaysAddUp(start: Time, interval: Interval, count: int, k: nat)
    requires !ByMonth(interval)
    ensures Day(NthEnd(start, interval, count, k)) == Day(start) + k * DaysOf(interval, count)
  {
    if k > 0 {
      WeeksAndDaysAddUp(start, interval, count, k - 1);
      OneMore(k - 1, DaysOf(interval, count));
      PeriodEndByDay(NthEnd(start, interval, count, k - 1), interval, count);
    }
  }

  /** The date k periods of c months after a given date, by months and days alone. */
  function NthDate(from: Date, c: int, k: nat): Date {
    if k == 0 then from
    else var before := NthDate(from, c, k - 1); Landed(before.month + c, before.day)
  }

  lemma OnePeriodLandsOn(before: Time, interval: Interval, count: int)
    requires ByMonth(interval)
    ensures PeriodEnd(before, interval, count).date
         == Landed(before.date.month + MonthsOf(interval, count), before.date.day)
  {
    PeriodEndByMonth(before, interval, count);
    AddMonthsLandsOn(before.date, MonthsOf(interval, count));
  }

  lemma {:induction false} NthEndIsNthDate(start: Time, interval: Interval, count: int, k: nat)
    requires ByMonth(interval)
    ensures NthEnd(start, interval, count, k).date == NthDate(start.date, MonthsOf(interval, count), k)
  {
    if k > 0 {
      NthEndIsNthDate(start, interval, count, k - 1);
      OnePeriodLandsOn(NthEnd(start, interval, count, k - 1), interval, count);
    }
  }

  /** The month that period k of a plan of c months aims at. */
  function Target(from: Date, c: int, k: nat): int {
    from.month + k * c
  }

  lemma NextTarget(from: Date, c: int, k: nat)
    ensures Target(from, c, k + 1) == Target(from, c, k) + c
  {
    OneMore(k, c);
  }

  /** Period k's target month has the plan's original day. */
  predicate Fits(from: Date, c: int, k: nat) {
    from.day <= MonthLen(Target(from, c, k))
  }

  ghost predicate FitsThrough(from: Date, c: int, k: nat) {
    forall j: nat :: 1 <= j <= k ==> Fits(from, c, j)
  }

  /** The first period whose target month is too short for the original day. */
  ghost predicate FirstOverflow(from: Date, c: int, j: nat) {
    j >= 1 && !Fits(from, c, j) && FitsThrough(from, c, j - 1)
  }

  lemma {:induction false} DatesWithoutOverflow(from: Date, c: int, k: nat)
    requires FitsThrough(from, c, k)
    ensures NthDate(from, c, k).month == Target(from, c, k) && NthDate(from, c, k).day == from.day
  {
    if k > 0 {
      DatesWithoutOverflow(from, c, k - 1);
      NextTarget(from, c, k - 1);
      assert Fits(from, c, k);
    }
  }

  lemma OverflowSpills(from: Date, c: int, j: nat)
    requires FirstOverflow(from, c, j)
    ensures NthDate(from, c, j).month == Target(from, c, j) + 1
    ensures NthDate(from, c, j).day == from.day - MonthLen(Target(from, c, j))
    ensures 1 <= NthDate(from, c, j).day <= 3
  {
    DatesWithoutOverflow(from, c, j - 1);
    NextTarget(from, c, j - 1);
  }

  lemma SmallDaysStay(from: Date, c: int, k: nat)
    requires NthDate(from, c, k).day <= 28
    ensures NthDate(from, c, k + 1).month == NthDate(from, c, k).month + c
    ensures NthDate(from, c, k + 1).day == NthDate(from, c, k).day
  {
  }

  /** Once a date has spilled over, it stays on that small day, one month past every target. */
  lemma {:induction false} DatesAfterOverflow(from: Date, c: int, j: nat, k: nat)
    requires FirstOverflow(from, c, j) && j <= k
    ensures NthDate(from, c, k).month == Target(from, c, k) + 1
    ensures NthDate(from, c, k).day == from.day - MonthLen(Target(from, c, j))
    ensures 1 <= NthDate(from, c, k).day <= 3
    decreases k
  {
    if k == j {
      OverflowSpills(from, c, j);
    } else {
      DatesAfterOverflow(from, c, j, k - 1);
      SmallDaysStay(from, c, k - 1);
      NextTarget(from, c, k - 1);
    }
  }

  lemma {:induction false} FindFirstOverflow(from: Date, c: int, k: nat) returns (j: nat)
    ensures FitsThrough(from, c, k) || (j <= k && FirstOverflow(from, c, j))
  {
    j := 0;
    if k > 0 {
      j := FindFirstOverflow(from, c, k - 1);
      if FitsThrough(from, c, k - 1) && !Fits(from, c, k) {
        j := k;
      }
    }
  }

  lemma OneFirstOverflow(from: Date, c: int, i: nat, j: nat)
    requires FirstOverflow(from, c, i) && FirstOverflow(from, c, j)
    ensures i == j
  {
    assert !Fits(from, c, i) && !Fits(from, c, j);
  }

  /**
   Over any number of renewals of a plan counted in months, the day of month is the
   original one, or, after a single overflow, a day from 1 to 3 that never changes again.
   */
  lemma DayOverflowsAtMostOnce(start: Time, interval: Interval, count: int, k: nat, n: nat)
    requires ByMonth(interval) && k <= n
    ensures var a, b := NthEnd(start, interval, count, k).date.day, NthEnd(start, interval, count, n).date.day;
            && (a == start.date.day || 1 <= a <= 3)
            && (a != start.date.day ==> b == a)
  {
    var c, from := MonthsOf(interval, count), start.date;
    NthEndIsNthDate(start, interval, count, k);
    NthEndIsNthDate(start, interval, count, n);
    var j := FindFirstOverflow(from, c, k);
    if FitsThrough(from, c, k) {
      DatesWithoutOverflow(from, c, k);
    } else {
      DatesAfterOverflow(from, c, j, k);
      DatesAfterOverflow(from, c, j, n);
    }
  }

  /** No period overflows, or the first that does meets a month as long as the last target. */
  ghost predicate OverflowsAlike(from: Date, c: int, n: nat) {
    forall j: nat :: j <= n && FirstOverflow(from, c, j) ==>
      MonthLen(Target(from, c, j)) == MonthLen(Target(from, c, n))
  }

  /**
   When n renewals equal one addition of n times the months: exactly when no period
   overflows, or the month of the first overflow is as long as the last target.
   */
  lemma RenewalsEqualOneAddition(start: Time, interval: Interval, count: int, n: nat)
    requires ByMonth(interval)
    ensures var c, from := MonthsOf(interval, count), start.date;
            NthEnd(start, interval, count, n).date == AddDate(from, 0, n * c, 0) <==> OverflowsAlike(from, c, n)
  {
    var c, from := MonthsOf(interval, count), start.date;
    NthEndIsNthDate(start, interval, count, n);
    AddMonthsLandsOn(from, n * c);
    DatesEqualOneLanding(from, c, n);
  }

  lemma DatesEqualOneLanding(from: Date, c: int, n: nat)
    ensures NthDate(from, c, n) == Landed(Target(from, c, n), from.day) <==> OverflowsAlike(from, c, n)
  {
    var j := FindFirstOverflow(from, c, n);
    if FitsThrough(from, c, n) {
      DatesWithoutOverflow(from, c, n);
      assert n > 0 ==> Fits(from, c, n);
    } else {
      DatesAfterOverflow(from, c, j, n);
      forall i: nat | i <= n && FirstOverflow(from, c, i) ensures i == j {
        OneFirstOverflow(from, c, i, j);
      }
    }
  }

  /** Plans that start on day 28 or earlier never drift. */
  lemma {:induction false} EarlyStartsNeverDrift(start: Time, interval: Interval, count: int, n: nat)
    requires ByMonth(interval) && start.date.day <= 28
    ensures NthEnd(start, interval, count, n).date == AddDate(start.date, 0, n * MonthsOf(interval, count), 0)
    ensures NthEnd(start, interval, count, n).date.day == start.date.day
  {
    RenewalsEqualOneAddition(start, interval, count, n);
    NthEndIsNthDate(start, interval, count, n);
    DatesWithoutOverflow(start.date, MonthsOf(interval, count), n);
  }

  /** 31 January 2023, renewed monthly, comes to 3 March, and never to 31 March. */
  lemma JanuaryThirtyFirstDrifts()
    ensures var m := 12 * 2023; var start := Time(Date(m, 31), 0);
            && NthEnd(start, Monthly, 1, 1).date == Date(m + 2, 3)
            && NthEnd(start, Monthly, 1, 2).date != AddDate(start.date, 0, 2, 0) == Date(m + 2, 31)
  {
    var m := 12 * 2023;
    var start := Time(Date(m, 31), 0);
    assert MonthLen(m + 1) == 28 && MonthLen(m + 2) == 31;
    assert Target(start.date, 1, 1) == m + 1 && Target(start.date, 1, 2) == m + 2;
    assert FirstOverflow(start.date, 1, 1);
    NthEndIsNthDate(start, Monthly, 1, 1);
    DatesAfterOverflow(start.date, 1, 1, 1);
    RenewalsEqualOneAddition(start, Monthly, 1, 2);
    AddMonthsLandsOn(start.date, 2);
  }

  // -------------------------------------------------- a subscription's life

  datatype Period = Period(start: Time, end: Time, interval: Interval, count: int)

  /** A table row.  `periods` is history: every billing period the row has had. */
  datatype Subscription = Subscription(
    status: Status, amount: int, interval: Interval, count: int,
    periodStart: Time, periodEnd: Time, cancelledAt: Option<Time>, periods: seq<Period>)

  /** The operations that reach the table; a failed one leaves the row alone. */
  datatype Op =
    | Update(amount: Option<int>, interval: Option<Interval>, count: Option<int>)
    | Cancel(at: Time)
    | Renew

  function Created(now: Time, amount: int, interval: Interval, count: int): Subscription {
    var end := PeriodEnd(now, interval, count);
    Subscription(Active, amount, interval, count, now, end, None, [Period(now, end, interval, count)])
  }

  function Renewed(sub: Subscription): Subscription {
    var end := PeriodEnd(sub.periodEnd, sub.interval, sub.count);
    sub.(
      periodStart := sub.periodEnd,
      periodEnd := end,
      periods := sub.periods + [Period(sub.periodEnd, end, sub.interval, sub.count)])
  }

  function ApplyOp(sub: Subscription, op: Op): Subscription {
    match op
    case Update(amount, interval, count) =>
      sub.(amount := amount.GetOr(sub.amount), interval := interval.GetOr(sub.interval), count := count.GetOr(sub.count))
    case Cancel(at) => sub.(status := Cancelled, cancelledAt := Some(at))
    case Renew => if sub.status == Active then Renewed(sub) else sub
  }

  function ApplyAll(sub: Subscription, ops: seq<Op>): Subscription
    decreases |ops|
  {
    if ops == [] then sub else ApplyAll(ApplyOp(sub, ops[0]), ops[1..])
  }

  /** Each period has the length its plan gives it and starts where the one before ends. */
  ghost predicate Tiled(periods: seq<Period>) {
    && periods != []
    && (forall i :: 0 <= i < |periods| ==>
          periods[i].end == PeriodEnd(periods[i].start, periods[i].interval, periods[i].count))
    && (forall i :: 0 < i < |periods| ==> periods[i].start == periods[i - 1].end)
  }

  ghost predicate Consistent(sub: Subscription) {
    && Tiled(sub.periods)
    && sub.periodStart == sub.periods[|sub.periods| - 1].start
    && sub.periodEnd == sub.periods[|sub.periods| - 1].end
  }

  lemma {:induction false} OpsKeepConsistent(sub: Subscription, ops: seq<Op>)
    requires Consistent(sub)
    ensures Consistent(ApplyAll(sub, ops)) && sub.periods <= ApplyAll(sub, ops).periods
    decreases |ops|
  {
    if ops != [] {
      OpsKeepConsistent(ApplyOp(sub, ops[0]), ops[1..]);
    }
  }

  /**
   Whatever updates, cancellations and renewals a subscription sees, its billing periods
   start at its creation and follow each other with no gap or overlap, and each advances
   exactly when the count in force at its renewal was at least 1.
   */
  lemma PeriodsTile(now: Time, amount: int, interval: Interval, count: int, ops: seq<Op>, i: nat)
    requires i < |ApplyAll(Created(now, amount, interval, count), ops).periods|
    ensures var sub := ApplyAll(Created(now, amount, interval, count), ops); var p := sub.periods[i];
            && sub.periods[0].start == now
            && (i > 0 ==> p.start == sub.periods[i - 1].end)
            && (i == |sub.periods| - 1 ==> p.start == sub.periodStart && p.end == sub.periodEnd)
            && (Precedes(p.start, p.end) <==> p.count >= 1)
  {
    var first := Created(now, amount, interval, count);
    OpsKeepConsistent(first, ops);
    var sub := ApplyAll(first, ops);
    assert sub.periods[0] == first.periods[0];
    PeriodAdvancesIffCountPositive(sub.periods[i].start, sub.periods[i].interval, sub.periods[i].count);
  }

  predicate Within(t: Time, p: Period) {
    !Precedes(t, p.start) && Precedes(t, p.end)
  }

  /** Periods that each advance and follow each other without a gap. */
  ghost predicate Chained(periods: seq<Period>) {
    && periods != []
    && (forall i :: 0 <= i < |periods| ==> Precedes(periods[i].start, periods[i].end))
    && (forall i :: 0 < i < |periods| ==> periods[i].start == periods[i - 1].end)
  }

  lemma {:induction false} ChainedStartsAscend(periods: seq<Period>, i: nat, j: nat)
    requires Chained(periods) && i < j < |periods|
    ensures !Precedes(periods[j].start, periods[i].end)
    decreases j
  {
    if i < j - 1 {
      ChainedStartsAscend(periods, i, j - 1);
    }
  }

  lemma {:induction false} FindPeriod(periods: seq<Period>, n: nat, t: Time) returns (i: nat)
    requires Chained(periods) && n < |periods|
    requires !Precedes(t, periods[0].start) && Precedes(t, periods[n].end)
    ensures i <= n && Within(t, periods[i])
  {
    if n == 0 || !Precedes(t, periods[n].start) {
      i := n;
    } else {
      i := FindPeriod(periods, n - 1, t);
    }
  }

  /**
   While every update keeps the count at 1 or more, each instant from the creation to the
   current period's end lies in exactly one billing period.
   */
  lemma EveryInstantBilledOnce(now: Time, amount: int, interval: Interval, count: int, ops: seq<Op>, t: Time)
    requires var sub := ApplyAll(Created(now, amount, interval, count), ops);
             && (forall i :: 0 <= i < |sub.periods| ==> sub.periods[i].count >= 1)
             && !Precedes(t, now) && Precedes(t, sub.periodEnd)
    ensures var periods := ApplyAll(Created(now, amount, interval, count), ops).periods;
            && (exists i :: 0 <= i < |periods| && Within(t, periods[i]))
            && (forall i, j :: 0 <= i < j < |periods| ==> !(Within(t, periods[i]) && Within(t, periods[j])))
  {
    var first := Created(now, amount, interval, count);
    var sub := ApplyAll(first, ops);
    OpsKeepConsistent(first, ops);
    var periods := sub.periods;
    assert periods[0] == first.periods[0];
    forall i | 0 <= i < |periods| ensures Precedes(periods[i].start, periods[i].end) {
      PeriodAdvancesIffCountPositive(periods[i].start, periods[i].interval, periods[i].count);
    }
    var k := FindPeriod(periods, |periods| - 1, t);
    forall i, j | 0 <= i < j < |periods| ensures !(Within(t, periods[i]) && Within(t, periods[j])) {
      ChainedStartsAscend(periods, i, j);
    }
  }

  /** A cancelled subscription is never renewed again: no operation makes it active. */
  lemma {:induction false} CancellationIsFinal(sub: Subscription, ops: seq<Op>)
    requires sub.status == Cancelled
    ensures ApplyAll(sub, ops).status == Cancelled && ApplyAll(sub, ops).periods == sub.periods
    ensures ApplyAll(sub, ops).periodStart == sub.periodStart && ApplyAll(sub, ops).periodEnd == sub.periodEnd
    ensures (forall op :: op in ops ==> !op.Cancel?) ==> ApplyAll(sub, ops).cancelledAt == sub.cancelledAt
    decreases |ops|
  {
    if ops != [] {
      assert ops[0] in ops;
      CancellationIsFinal(ApplyOp(sub, ops[0]), ops[1..]);
    }
  }

  lemma {:induction false} ApplyAllOfConcat(sub: Subscription, a: seq<Op>, b: seq<Op>)
    ensures ApplyAll(sub, a + b) == ApplyAll(ApplyAll(sub, a), b)
    decreases |a|
  {
    if a == [] {
      assert a + b == b;
    } else {
      assert (a + b)[1..] == a[1..] + b;
      ApplyAllOfConcat(ApplyOp(sub, a[0]), a[1..], b);
    }
  }

  /** Cancelling at any point of any history ends it: no later operation adds a period or reactivates the row. */
  lemma CancellingEndsRenewals(sub: Subscription, before: seq<Op>, at: Time, later: seq<Op>)
    ensures var was, last := ApplyAll(sub, before), ApplyAll(sub, before + [Cancel(at)] + later);
            && last.status == Cancelled && last.periods == was.periods
            && last.periodStart == was.periodStart && last.periodEnd == was.periodEnd
            && ((forall op :: op in later ==> !op.Cancel?) ==> last.cancelledAt == Some(at))
  {
    ApplyAllOfConcat(sub, before + [Cancel(at)], later);
    ApplyAllOfConcat(sub, before, [Cancel(at)]);
    assert [Cancel(at)][1..] == [];
    CancellationIsFinal(ApplyAll(sub, before + [Cancel(at)]), later);
  }

  /** Over any operations a status changes only by a cancellation, and one of them is enough. */
  lemma {:induction false} CancelledExactlyByCancel(sub: Subscription, ops: seq<Op>)
    ensures ApplyAll(sub, ops).status == if exists op :: op in ops && op.Cancel? then Cancelled else sub.status
    decreases |ops|
  {
    if ops != [] {
      assert forall op :: op in ops <==> op == ops[0] || op in ops[1..];
      CancelledExactlyByCancel(ApplyOp(sub, ops[0]), ops[1..]);
    }
  }

  function Renewals(n: nat): seq<Op> {
    if n == 0 then [] else [Renew] + Renewals(n - 1)
  }

  /** n renewals of an active subscription are n more periods of its plan. */
  lemma {:induction false} RenewalsFollowPlan(sub: Subscription, start: Time, k: nat, n: nat)
    requires sub.status == Active && sub.periodEnd == NthEnd(start, sub.interval, sub.count, k)
    ensures var last := ApplyAll(sub, Renewals(n));
            && last.periodEnd == NthEnd(start, sub.interval, sub.count, k + n)
            && |last.periods| == |sub.periods| + n
            && last.status == Active && last.interval == sub.interval && last.count == sub.count
    decreases n
  {
    if n > 0 {
      RenewalsFollowPlan(Renewed(sub), start, k + 1, n - 1);
      assert Renewals(n)[1..] == Renewals(n - 1);
    }
  }

  /** After n renewals a w-week plan ends 7w(n+1) days after its start. */
  lemma WeeklyPlanEnd(now: Time, amount: int, w: int, n: nat)
    ensures Day(ApplyAll(Created(now, amount, Weekly, w), Renewals(n)).periodEnd) == Day(now) + (n + 1) * (7 * w)
  {
    assert NthEnd(now, Weekly, w, 0) == now && NthEnd(now, Weekly, w, 1) == PeriodEnd(now, Weekly, w);
    RenewalsFollowPlan(Created(now, amount, Weekly, w), now, 1, n);
    WeeksAndDaysAddUp(now, Weekly, w, n + 1);
  }

  /** An update may set the count to 0; the next renewal then bills an empty period. */
  lemma UpdateCanStallRenewal(now: Time, amount: int, interval: Interval, count: int)
    ensures var sub := ApplyAll(Created(now, amount, interval, count), [Update(None, None, Some(0)), Renew]);
            sub.periodStart == sub.periodEnd == PeriodEnd(now, interval, count)
  {
    var ops := [Update(None, None, Some(0)), Renew];
    assert ops[1..] == [Renew] && [Renew][1..] == [];
    var first := ApplyOp(Created(now, amount, interval, count), ops[0]);
    assert ApplyAll(first, [Renew]) == ApplyAll(Renewed(first), []) == Renewed(first);
    PeriodAdvancesIffCountPositive(first.periodEnd, interval, 0);
  }

  // -------------------------------------------------------------- service

  datatype Result = Ok(sub: Subscription) | BadInterval | NotFound | NotActive | StoreError

  /** `stored` parameters say whether the table took the write; a refused one is an error. */
  class SubscriptionService {
    var subs: map<nat, Subscription>

    constructor ()
      ensures subs == map[]
    {
      subs := map[];
    }

    method CreateSubscription(id: nat, now: Time, amount: int, interval: Interval, count: int, stored: bool)
      returns (result: Result)
      requires id !in subs
      modifies this
      ensures var sub := Created(now, amount, interval, count);
              && (stored ==> result == Ok(sub) && subs == old(subs)[id := sub])
              && (!stored ==> result == StoreError && subs == old(subs))
      ensures stored ==>
                && id in subs && subs[id].status == Active && subs[id].amount == amount
                && subs[id].interval == interval && subs[id].count == count && subs[id].cancelledAt == None
                && subs[id].periodStart == now && subs[id].periodEnd == PeriodEnd(now, interval, count)
    {
      var end := PeriodEnd(now, interval, count);
      var sub := Subscription(Active, amount, interval, count, now, end, None, [Period(now, end, interval, count)]);
      if !stored {
        return StoreError;
      }
      subs := subs[id := sub];
      return Ok(sub);
    }

    /** The create handler: it clamps the count and admits the four known intervals only. */
    method HandleCreate(id: nat, now: Time, amount: int, interval: Interval, count: int, stored: bool)
      returns (result: Result)
      requires id !in subs
      modifies this
      ensures interval.Unrecognised? ==> result == BadInterval && subs == old(subs)
      ensures !interval.Unrecognised? ==> (result.Ok? <==> stored) && (!stored ==> subs == old(subs))
      ensures result.Ok? ==> subs == old(subs)[id := result.sub] && Consistent(result.sub)
                             && Precedes(result.sub.periodStart, result.sub.periodEnd)
                             && result.sub.count == (if count >= 1 then count else 1)
                             && result.sub.amount == amount && result.sub.interval == interval
                             && result.sub.status == Active && result.sub.periodStart == now
                             && result.sub.periodEnd == PeriodEnd(now, interval, if count >= 1 then count else 1)
    {
      var clamped := count;
      if clamped <= 0 {
        clamped := 1;
      }
      if interval.Unrecognised? {
        return BadInterval;
      }
      PeriodAdvancesIffCountPositive(now, interval, clamped);
      result := CreateSubscription(id, now, amount, interval, clamped, stored);
    }

    method UpdateSubscription(
      id: nat, amount: Option<int>, interval: Option<Interval>, count: Option<int>, stored: bool)
      returns (result: Result)
      modifies this
      ensures id !in old(subs) ==> result == NotFound && subs == old(subs)
      ensures id in old(subs) && !stored ==> result == StoreError && subs == old(subs)
      ensures id in old(subs) && stored ==>
                subs == old(subs)[id := ApplyOp(old(subs)[id], Update(amount, interval, count))] && result == Ok(subs[id])
      ensures id in old(subs) && stored ==>
                var was, sub := old(subs)[id], subs[id];
                && sub.amount == (if amount.Some? then amount.value else was.amount)
                && sub.interval == (if interval.Some? then interval.value else was.interval)
                && sub.count == (if count.Some? then count.value else was.count)
                && sub.status == was.status && sub.cancelledAt == was.cancelledAt
                && sub.periodStart == was.periodStart && sub.periodEnd == was.periodEnd
    {
      if id !in subs {
        return NotFound;
      }
      var sub := subs[id];
      if amount.Some? { sub := sub.(amount := amount.value); }
      if interval.Some? { sub := sub.(interval := interval.value); }
      if count.Some? { sub := sub.(count := count.value); }
      if !stored {
        return StoreError;
      }
      subs := subs[id := sub];
      return Ok(sub);
    }

    method CancelSubscription(id: nat, now: Time, stored: bool) returns (result: Result)
      modifies this
      ensures id !in old(subs) ==> result == NotFound && subs == old(subs)
      ensures id in old(subs) && !stored ==> result == StoreError && subs == old(subs)
      ensures id in old(subs) && stored ==>
                subs == old(subs)[id := ApplyOp(old(subs)[id], Cancel(now))] && result == Ok(subs[id])
      ensures id in old(subs) && stored ==>
                var was, sub := old(subs)[id], subs[id];
                && sub.status == Cancelled && sub.cancelledAt == Some(now)
                && sub.amount == was.amount && sub.interval == was.interval && sub.count == was.count
                && sub.periodStart == was.periodStart && sub.periodEnd == was.periodEnd && sub.periods == was.periods
    {
      if id !in subs {
        return NotFound;
      }
      var sub := subs[id].(status := Cancelled, cancelledAt := Some(now));
      if !stored {
        return StoreError;
      }
      subs := subs[id := sub];
      return Ok(sub);
    }

    method ProcessRenewal(id: nat, stored: bool) returns (result: Result)
      modifies this
      ensures id !in old(subs) ==> result == NotFound && subs == old(subs)
      ensures id in old(subs) && old(subs)[id].status != Active ==> result == NotActive && subs == old(subs)
      ensures id in old(subs) && old(subs)[id].status == Active ==>
                if stored then subs == old(subs)[id := ApplyOp(old(subs)[id], Renew)] && result == Ok(subs[id])
                else result == StoreError && subs == old(subs)
      ensures id in old(subs) && old(subs)[id].status == Active && stored ==>
                var was, sub := old(subs)[id], subs[id];
                && sub.periodStart == was.periodEnd
                && sub.periodEnd == PeriodEnd(was.periodEnd, was.interval, was.count)
                && sub.status == Active && sub.cancelledAt == was.cancelledAt
                && sub.amount == was.amount && sub.interval == was.interval && sub.count == was.count
      ensures result.Ok? ==> result.sub.periodStart == old(subs)[id].periodEnd
                             && (Precedes(result.sub.periodStart, result.sub.periodEnd) <==> result.sub.count >= 1)
    {
      if id !in subs {
        return NotFound;
      }
      var sub := subs[id];
      if sub.status != Active {
        return NotActive;
      }
      var end := PeriodEnd(sub.periodEnd, sub.interval, sub.count);
      PeriodAdvancesIffCountPositive(sub.periodEnd, sub.interval, sub.count);
      sub := sub.(periodStart := sub.periodEnd, periodEnd := end,
                  periods := sub.periods + [Period(sub.periodEnd, end, sub.interval, sub.count)]);
      if !stored {
        return StoreError;
      }
      subs := subs[id := sub];
      return Ok(sub);
    }
  }
}
