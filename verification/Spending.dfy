/** CostRepository.sum_estimated and what its text windows add up. */
module Spending {
  import opened Prelude
  import opened Records
  import opened Calendar
  import opened Timestamps

  function SumWhere(costs: seq<Cost>, p: Cost -> bool): int {
    if costs == [] then 0 else
      SumWhere(costs[..|costs| - 1], p) + if p(costs[|costs| - 1]) then costs[|costs| - 1].usd else 0
  }

  /** The WHERE clause of sum_estimated, on stored text. */
  predicate Selected(c: Cost, t: Option<string>, since: Option<string>, before: Option<string>) {
    && (t.Some? ==> c.taskId == t.value)
    && (since.Some? ==> !TextLess(c.createdAt, since.value))
    && (before.Some? ==> TextLess(c.createdAt, before.value))
  }

  function SumEstimated(costs: seq<Cost>, t: Option<string>, since: Option<string>, before: Option<string>): int {
    SumWhere(costs, c => Selected(c, t, since, before))
  }

  function TaskSpend(costs: seq<Cost>, t: string): int {
    SumEstimated(costs, Some(t), None, None)
  }

  function DailySpend(costs: seq<Cost>, now: DateTime): int
    requires HasWindows(now) && IsDateTime(DayStart(now)) && IsDateTime(NextDay(now))
  {
    SumEstimated(costs, None, Some(Iso(DayStart(now))), Some(Iso(NextDay(now))))
  }

  function MonthlySpend(costs: seq<Cost>, now: DateTime): int
    requires HasWindows(now) && IsDateTime(MonthStart(now)) && IsDateTime(NextMonth(now))
  {
    SumEstimated(costs, None, Some(Iso(MonthStart(now))), Some(Iso(NextMonth(now))))
  }

  // ---- rows as times

  ghost predicate Stamp(s: string, t: DateTime) {
    IsDateTime(t) && Iso(t) == s
  }

  /** The time a stored UTC timestamp stands for. */
  ghost function TimeOf(s: string): DateTime {
    if exists t :: Stamp(s, t) then var t :| Stamp(s, t); t else DateTime(1, 1, 1, 0, 0, 0, 0)
  }

  lemma TimeOfIso(t: DateTime)
    requires IsDateTime(t)
    ensures TimeOf(Iso(t)) == t
  {
    assert Stamp(Iso(t), t);
    IsoInjective(t, TimeOf(Iso(t)));
  }

  /** Every cost row carries a UTC timestamp. */
  ghost predicate Stamped(costs: seq<Cost>) {
    forall i :: 0 <= i < |costs| ==> Stamp(costs[i].createdAt, TimeOf(costs[i].createdAt))
  }

  ghost function OnDay(now: DateTime): Cost -> bool {
    (c: Cost) => SameDay(TimeOf(c.createdAt), now)
  }

  ghost function OfMonth(now: DateTime): Cost -> bool {
    (c: Cost) => SameMonth(TimeOf(c.createdAt), now)
  }

  /** What was spent on now's calendar day, and in its month. */
  ghost function DaySpend(costs: seq<Cost>, now: DateTime): int {
    SumWhere(costs, OnDay(now))
  }

  ghost function MonthSpend(costs: seq<Cost>, now: DateTime): int {
    SumWhere(costs, OfMonth(now))
  }

  lemma {:induction false} SumSame(costs: seq<Cost>, p: Cost -> bool, q: Cost -> bool)
    requires forall i :: 0 <= i < |costs| ==> p(costs[i]) == q(costs[i])
    ensures SumWhere(costs, p) == SumWhere(costs, q)
  {
    if costs != [] {
      SumSame(costs[..|costs| - 1], p, q);
    }
  }

  lemma {:induction false} SumDisjoint(costs: seq<Cost>, p: Cost -> bool, q: Cost -> bool, r: Cost -> bool)
    requires forall c :: r(c) == (p(c) || q(c)) && !(p(c) && q(c))
    ensures SumWhere(costs, r) == SumWhere(costs, p) + SumWhere(costs, q)
  {
    if costs != [] {
      SumDisjoint(costs[..|costs| - 1], p, q, r);
    }
  }

  lemma {:induction false} SumWithin(costs: seq<Cost>, p: Cost -> bool, q: Cost -> bool)
    requires forall i :: 0 <= i < |costs| ==> costs[i].usd >= 0 && (p(costs[i]) ==> q(costs[i]))
    ensures 0 <= SumWhere(costs, p) <= SumWhere(costs, q)
  {
    if costs != [] {
      SumWithin(costs[..|costs| - 1], p, q);
    }
  }

  lemma {:induction false} SumNone(costs: seq<Cost>, p: Cost -> bool)
    requires forall i :: 0 <= i < |costs| ==> !p(costs[i])
    ensures SumWhere(costs, p) == 0
  {
    if costs != [] {
      SumNone(costs[..|costs| - 1], p);
    }
  }

  lemma SumAppend(costs: seq<Cost>, c: Cost, p: Cost -> bool)
    ensures SumWhere(costs + [c], p) == SumWhere(costs, p) + if p(c) then c.usd else 0
  {
    assert (costs + [c])[..|costs|] == costs;
  }

  /**
    The three sums, row by row: a cost counts for its task, for the calendar day and for the calendar
    month of its time stamp, with its whole amount, and for nothing else.
   */
  lemma SpendOfOneMore(costs: seq<Cost>, c: Cost, t: string, now: DateTime)
    ensures TaskSpend([], t) == 0 && DaySpend([], now) == 0 && MonthSpend([], now) == 0
    ensures TaskSpend(costs + [c], t) == TaskSpend(costs, t) + if c.taskId == t then c.usd else 0
    ensures var at := TimeOf(c.createdAt);
            && DaySpend(costs + [c], now) == DaySpend(costs, now)
                 + (if at.year == now.year && at.month == now.month && at.day == now.day then c.usd else 0)
            && MonthSpend(costs + [c], now) == MonthSpend(costs, now)
                 + (if at.year == now.year && at.month == now.month then c.usd else 0)
  {
    SumAppend(costs, c, x => Selected(x, Some(t), None, None));
    SumAppend(costs, c, OnDay(now));
    SumAppend(costs, c, OfMonth(now));
  }

  /** The text window selects exactly the rows of the time window. */
  lemma TextWindow(c: Cost, since: DateTime, before: DateTime)
    requires IsDateTime(since) && IsDateTime(before) && Stamp(c.createdAt, TimeOf(c.createdAt))
    ensures Selected(c, None, Some(Iso(since)), Some(Iso(before))) <==> InWindow(TimeOf(c.createdAt), since, before)
  {
    IsoOrder(TimeOf(c.createdAt), since);
    IsoOrder(TimeOf(c.createdAt), before);
  }

  /** The daily sum BudgetEngine reads is the spend of the calendar day, the monthly one that of the month. */
  lemma WindowsSumTheCalendar(costs: seq<Cost>, now: DateTime)
    requires Stamped(costs) && HasWindows(now)
    ensures IsDateTime(DayStart(now)) && IsDateTime(NextDay(now)) && IsDateTime(MonthStart(now)) && IsDateTime(NextMonth(now))
    ensures DailySpend(costs, now) == DaySpend(costs, now)
    ensures MonthlySpend(costs, now) == MonthSpend(costs, now)
  {
    WindowEnds(now);
    forall i | 0 <= i < |costs|
      ensures Selected(costs[i], None, Some(Iso(DayStart(now))), Some(Iso(NextDay(now)))) == SameDay(TimeOf(costs[i].createdAt), now)
      ensures Selected(costs[i], None, Some(Iso(MonthStart(now))), Some(Iso(NextMonth(now)))) == SameMonth(TimeOf(costs[i].createdAt), now)
    {
      TextWindow(costs[i], DayStart(now), NextDay(now));
      TextWindow(costs[i], MonthStart(now), NextMonth(now));
      DayWindow(TimeOf(costs[i].createdAt), now);
      MonthWindow(TimeOf(costs[i].createdAt), now);
    }
    SumSame(costs, c => Selected(c, None, Some(Iso(DayStart(now))), Some(Iso(NextDay(now)))),
            OnDay(now));
    SumSame(costs, c => Selected(c, None, Some(Iso(MonthStart(now))), Some(Iso(NextMonth(now)))),
            OfMonth(now));
  }

  /** The spend of days 1..n of now's month, day by day. */
  ghost function DaysTotal(costs: seq<Cost>, now: DateTime, n: nat): int {
    if n == 0 then 0 else DaysTotal(costs, now, n - 1) + DaySpend(costs, now.(day := n))
  }

  ghost function FirstDaysOf(now: DateTime, n: nat): Cost -> bool {
    (c: Cost) => SameMonth(TimeOf(c.createdAt), now) && 1 <= TimeOf(c.createdAt).day <= n
  }

  lemma {:induction false} FirstDays(costs: seq<Cost>, now: DateTime, n: nat)
    ensures DaysTotal(costs, now, n) == SumWhere(costs, FirstDaysOf(now, n))
  {
    if n == 0 {
      SumNone(costs, FirstDaysOf(now, n));
    } else {
      FirstDays(costs, now, n - 1);
      SumDisjoint(costs, FirstDaysOf(now, n - 1), OnDay(now.(day := n)), FirstDaysOf(now, n));
    }
  }

  /** The days tile the month: its spend is the sum over its days, and no day exceeds it. */
  lemma MonthIsItsDays(costs: seq<Cost>, now: DateTime)
    requires Stamped(costs)
    ensures MonthSpend(costs, now) == DaysTotal(costs, now, DaysInMonth(now.year, now.month))
    ensures (forall i :: 0 <= i < |costs| ==> costs[i].usd >= 0) ==> 0 <= DaySpend(costs, now) <= MonthSpend(costs, now)
  {
    var n := DaysInMonth(now.year, now.month);
    FirstDays(costs, now, n);
    SumSame(costs, OfMonth(now), FirstDaysOf(now, n));
    if forall i :: 0 <= i < |costs| ==> costs[i].usd >= 0 {
      SumWithin(costs, OnDay(now), OfMonth(now));
    }
  }
}
