/**
  How far spend can overshoot a hard limit. An authorisation only compares what is already recorded
  with the limit, so paid actions that are authorised but not yet recorded are not counted.
 */
module SpendBound {
  import opened Prelude
  import opened Records
  import opened Calendar
  import opened Timestamps
  import opened Spending
  import opened BudgetPolicy
  import Repositories

  /** An authorised paid action whose cost is not recorded yet. */
  datatype Grant = Grant(t: string, usd: int)

  datatype Ledger = Ledger(db: Db, now: DateTime, open: seq<Grant>)

  datatype Step =
    | Tick(now: DateTime)
    | Ask(t: string, channel: Channel, usd: int, id: string)
    | Settle(i: nat, channel: Channel, usd: int)
    | Drop(i: nat)
    | Other(x: Repositories.Txn)

  function Without(s: seq<Grant>, i: nat): seq<Grant>
    requires i < |s|
  {
    s[..i] + s[i + 1..]
  }

  function Next(l: Ledger, limits: Limits, step: Step): Ledger {
    match step
    case Tick(now) => l.(now := now)
    case Ask(t, channel, usd, id) =>
      (match Authorize(l.db, limits, t, channel, usd, l.now, id)
       case Ok(r) => Ledger(r.0, l.now, if Paid(channel.class_) && Permits(r.1.decision) then l.open + [Grant(t, usd)] else l.open)
       case Err(_) => l)
    case Settle(i, channel, usd) =>
      if i >= |l.open| || !IsDateTime(l.now) then l
      else (match RecordCost(l.db, l.open[i].t, None, channel, usd, None, None, l.now)
            case Ok(d) => Ledger(d, l.now, Without(l.open, i))
            case Err(_) => l)
    case Drop(i) => if i < |l.open| then l.(open := Without(l.open, i)) else l
    case Other(x) => l.(db := Repositories.After(l.db, x))
  }

  /**
    What the bound asks of a step: the UTC clock does not run backwards, a paid request is at most
    `most` and finds fewer than `k` others outstanding, a recorded cost is at most its estimate, and
    no other call records a positive cost.
   */
  predicate Regular(l: Ledger, k: nat, most: int, step: Step) {
    match step
    case Tick(now) => HasWindows(now) && IsDateTime(l.now) && Instant(l.now) <= Instant(now)
    case Ask(_, channel, usd, _) => Paid(channel.class_) ==> usd <= most && |l.open| < k
    case Settle(i, _, usd) => i < |l.open| ==> usd <= l.open[i].usd
    case Drop(_) => true
    case Other(x) =>
      && (x.TxRecordCost? ==> x.cost.usd == 0 && IsDateTime(l.now) && x.cost.createdAt == Iso(l.now))
      && (x.TxCreateTask? ==> x.env.hardUsd >= 0)
  }

  function Spend(l: Ledger, limits: Limits, steps: seq<Step>): Ledger {
    if steps == [] then l else Next(Spend(l, limits, steps[..|steps| - 1]), limits, steps[|steps| - 1])
  }

  ghost predicate AllRegular(l: Ledger, limits: Limits, k: nat, most: int, steps: seq<Step>) {
    forall n :: 0 <= n < |steps| ==> Regular(Spend(l, limits, steps[..n]), k, most, steps[n])
  }

  function OpenTotal(open: seq<Grant>): int {
    if open == [] then 0 else OpenTotal(open[..|open| - 1]) + open[|open| - 1].usd
  }

  function OpenFor(open: seq<Grant>, t: string): int {
    if open == [] then 0 else
      OpenFor(open[..|open| - 1], t) + if open[|open| - 1].t == t then open[|open| - 1].usd else 0
  }

  predicate GrantOk(g: Grant, limits: Limits, most: int) {
    0 <= g.usd <= most && g.usd <= limits.dailyHard && g.usd <= limits.monthlyHard
  }

  predicate GrantsOk(open: seq<Grant>, limits: Limits, most: int) {
    forall i :: 0 <= i < |open| ==> GrantOk(open[i], limits, most)
  }

  lemma {:induction false} OpenRemove(open: seq<Grant>, i: nat)
    requires i < |open|
    ensures OpenTotal(Without(open, i)) == OpenTotal(open) - open[i].usd
    ensures forall t :: OpenFor(Without(open, i), t) == OpenFor(open, t) - if open[i].t == t then open[i].usd else 0
  {
    var n := |open| - 1;
    if i < n {
      OpenRemove(open[..n], i);
      assert Without(open, i)[..n - 1] == Without(open[..n], i);
    } else {
      assert Without(open, i) == open[..n];
    }
  }

  lemma OpenAppend(open: seq<Grant>, g: Grant)
    ensures OpenTotal(open + [g]) == OpenTotal(open) + g.usd
    ensures forall t :: OpenFor(open + [g], t) == OpenFor(open, t) + if g.t == t then g.usd else 0
  {
    assert (open + [g])[..|open|] == open;
  }

  /** n * m, by repeated addition. */
  function Times(n: nat, m: int): int {
    if n == 0 then 0 else Times(n - 1, m) + m
  }

  lemma {:induction false} TimesIsProduct(n: nat, m: int)
    ensures Times(n, m) == n * m
  {
    if n > 0 {
      TimesIsProduct(n - 1, m);
    }
  }

  lemma {:induction false} TimesGrows(n: nat, k: nat, m: int)
    requires n <= k && m >= 0
    ensures 0 <= Times(n, m) <= Times(k, m)
  {
    if n < k {
      TimesGrows(n, k - 1, m);
    } else if n > 0 {
      TimesGrows(n - 1, k - 1, m);
    }
  }

  lemma {:induction false} OpenBound(open: seq<Grant>, limits: Limits, most: int)
    requires most >= 0 && GrantsOk(open, limits, most)
    ensures 0 <= OpenTotal(open) <= Times(|open|, most)
    ensures forall t :: 0 <= OpenFor(open, t) <= OpenTotal(open)
    ensures open != [] ==> OpenTotal(open) <= limits.dailyHard + Times(|open| - 1, most)
    ensures open != [] ==> OpenTotal(open) <= limits.monthlyHard + Times(|open| - 1, most)
  {
    if open != [] {
      assert GrantOk(open[|open| - 1], limits, most);
      OpenBound(open[..|open| - 1], limits, most);
    }
  }

  // ---- the invariant

  ghost predicate Rows(l: Ledger) {
    && IsDateTime(l.now) && HasWindows(l.now)
    && (forall i :: 0 <= i < |l.db.costs| ==> RowOk(l, l.db.costs[i]))
    && (forall i :: 0 <= i < |l.open| ==> l.open[i].t in l.db.tasks)
    && (forall t :: t in l.db.tasks ==> l.db.tasks[t].env.hardUsd >= 0)
  }

  ghost predicate RowOk(l: Ledger, c: Cost) {
    && c.usd >= 0 && c.taskId in l.db.tasks && IsDateTime(l.now)
    && Stamp(c.createdAt, TimeOf(c.createdAt)) && Instant(TimeOf(c.createdAt)) <= Instant(l.now)
  }

  ghost predicate TasksBounded(l: Ledger, slack: int) {
    forall t :: t in l.db.tasks ==>
      TaskSpend(l.db.costs, t) + OpenFor(l.open, t) <= l.db.tasks[t].env.hardUsd + slack
  }

  ghost predicate DaysBounded(l: Ledger, limits: Limits, slack: int) {
    && DaySpend(l.db.costs, l.now) + OpenTotal(l.open) <= limits.dailyHard + slack
    && forall d :: DaySpend(l.db.costs, d) <= limits.dailyHard + slack
  }

  ghost predicate MonthsBounded(l: Ledger, limits: Limits, slack: int) {
    && MonthSpend(l.db.costs, l.now) + OpenTotal(l.open) <= limits.monthlyHard + slack
    && forall d :: MonthSpend(l.db.costs, d) <= limits.monthlyHard + slack
  }

  ghost predicate Bounded(l: Ledger, limits: Limits, k: nat, most: int) {
    && k >= 1 && Rows(l) && |l.open| <= k && GrantsOk(l.open, limits, most)
    && TasksBounded(l, Times(k - 1, most))
    && DaysBounded(l, limits, Times(k - 1, most))
    && MonthsBounded(l, limits, Times(k - 1, most))
  }

  predicate Sane(limits: Limits, k: nat, most: int) {
    k >= 1 && most >= 0 && limits.dailyHard >= 0 && limits.monthlyHard >= 0
  }

  lemma SameDaySameSpend(costs: seq<Cost>, a: DateTime, b: DateTime)
    ensures SameDay(a, b) ==> DaySpend(costs, a) == DaySpend(costs, b)
    ensures SameMonth(a, b) ==> MonthSpend(costs, a) == MonthSpend(costs, b)
  {
    if SameDay(a, b) {
      SumSame(costs, OnDay(a), OnDay(b));
    }
    if SameMonth(a, b) {
      SumSame(costs, OfMonth(a), OfMonth(b));
    }
  }

  /** A day or month that contains two times contains everything in between. */
  lemma Between(t: DateTime, n: DateTime, later: DateTime)
    requires IsDateTime(t) && IsDateTime(n) && IsDateTime(later)
    requires Instant(t) <= Instant(n) <= Instant(later)
    ensures SameDay(t, later) ==> SameDay(n, later)
    ensures SameMonth(t, later) ==> SameMonth(n, later)
  {
    EarlierIsSmallerInstant(n, t);
    EarlierIsSmallerInstant(later, n);
  }

  lemma TickRows(l: Ledger, now: DateTime)
    requires Rows(l) && HasWindows(now) && Instant(l.now) <= Instant(now)
    ensures Rows(l.(now := now))
  {
    forall i | 0 <= i < |l.db.costs| ensures RowOk(l.(now := now), l.db.costs[i]) {
      assert RowOk(l, l.db.costs[i]);
    }
  }

  /** Rollover: a day, or month, that has just begun has no spend yet. */
  lemma NewPeriodIsFree(l: Ledger, now: DateTime)
    requires Rows(l) && HasWindows(now) && Instant(l.now) <= Instant(now)
    ensures !SameDay(l.now, now) ==> DaySpend(l.db.costs, now) == 0
    ensures !SameMonth(l.now, now) ==> MonthSpend(l.db.costs, now) == 0
  {
    forall i | 0 <= i < |l.db.costs|
      ensures SameDay(TimeOf(l.db.costs[i].createdAt), now) ==> SameDay(l.now, now)
      ensures SameMonth(TimeOf(l.db.costs[i].createdAt), now) ==> SameMonth(l.now, now)
    {
      assert RowOk(l, l.db.costs[i]);
      Between(TimeOf(l.db.costs[i].createdAt), l.now, now);
    }
    if !SameDay(l.now, now) {
      SumNone(l.db.costs, OnDay(now));
    }
    if !SameMonth(l.now, now) {
      SumNone(l.db.costs, OfMonth(now));
    }
  }

  /** Outstanding grants alone fit under either limit plus the slack. */
  lemma OpenFits(open: seq<Grant>, limits: Limits, k: nat, most: int)
    requires Sane(limits, k, most) && GrantsOk(open, limits, most) && |open| <= k
    ensures 0 <= OpenTotal(open) <= limits.dailyHard + Times(k - 1, most)
    ensures OpenTotal(open) <= limits.monthlyHard + Times(k - 1, most)
  {
    OpenBound(open, limits, most);
    TimesGrows(if open == [] then 0 else |open| - 1, k - 1, most);
  }

  lemma TickBounded(l: Ledger, limits: Limits, k: nat, most: int, now: DateTime)
    requires Sane(limits, k, most) && Bounded(l, limits, k, most) && Regular(l, k, most, Tick(now))
    ensures Bounded(l.(now := now), limits, k, most)
  {
    TickRows(l, now);
    NewPeriodIsFree(l, now);
    OpenFits(l.open, limits, k, most);
    SameDaySameSpend(l.db.costs, l.now, now);
    var m := l.(now := now);
    assert TasksBounded(m, Times(k - 1, most));
    assert DaysBounded(m, limits, Times(k - 1, most));
    assert MonthsBounded(m, limits, Times(k - 1, most));
  }

  lemma GrantBounded(l: Ledger, limits: Limits, k: nat, most: int, t: string, usd: int, db: Db)
    requires Sane(limits, k, most) && Bounded(l, limits, k, most) && |l.open| < k
    requires 0 <= usd <= most && t in l.db.tasks && WithinHardLimits(l.db, limits, t, usd, l.now)
    requires db == l.db.(log := db.log)
    ensures Bounded(Ledger(db, l.now, l.open + [Grant(t, usd)]), limits, k, most)
  {
    var m := Ledger(db, l.now, l.open + [Grant(t, usd)]);
    var slack := Times(k - 1, most);
    OpenAtMost(l.open, limits, k, most);
    RowsKept(l, m);
    NewGrantOk(l, limits, most, t, usd);
    GrantTasks(l, t, usd, slack, m);
    OpenAppend(l.open, Grant(t, usd));
    GrantWindows(l, limits, usd, slack, m);
  }

  lemma OpenAtMost(open: seq<Grant>, limits: Limits, k: nat, most: int)
    requires most >= 0 && GrantsOk(open, limits, most) && |open| < k
    ensures 0 <= OpenTotal(open) <= Times(k - 1, most)
    ensures forall t :: OpenFor(open, t) <= Times(k - 1, most)
  {
    OpenBound(open, limits, most);
    TimesGrows(|open|, k - 1, most);
  }

  lemma NewGrantOk(l: Ledger, limits: Limits, most: int, t: string, usd: int)
    requires Rows(l) && GrantsOk(l.open, limits, most)
    requires 0 <= usd <= most && t in l.db.tasks && WithinHardLimits(l.db, limits, t, usd, l.now)
    ensures GrantsOk(l.open + [Grant(t, usd)], limits, most)
  {
    SpendNotNegative(l);
  }

  lemma GrantTasks(l: Ledger, t: string, usd: int, slack: int, m: Ledger)
    requires TasksBounded(l, slack) && t in l.db.tasks
    requires m.db.tasks == l.db.tasks && m.db.costs == l.db.costs && m.open == l.open + [Grant(t, usd)]
    requires OpenFor(l.open, t) <= slack && TaskSpend(l.db.costs, t) + usd <= l.db.tasks[t].env.hardUsd
    ensures TasksBounded(m, slack)
  {
    OpenAppend(l.open, Grant(t, usd));
  }

  lemma GrantWindows(l: Ledger, limits: Limits, usd: int, slack: int, m: Ledger)
    requires DaysBounded(l, limits, slack) && MonthsBounded(l, limits, slack)
    requires m.now == l.now && m.db.costs == l.db.costs && OpenTotal(m.open) == OpenTotal(l.open) + usd
    requires OpenTotal(l.open) <= slack
    requires DaySpend(l.db.costs, l.now) + usd <= limits.dailyHard
    requires MonthSpend(l.db.costs, l.now) + usd <= limits.monthlyHard
    ensures DaysBounded(m, limits, slack) && MonthsBounded(m, limits, slack)
  {
  }

  lemma RowsKept(l: Ledger, m: Ledger)
    requires Rows(l) && m.now == l.now && m.db.costs == l.db.costs && m.db.tasks == l.db.tasks
    requires forall i :: 0 <= i < |m.open| ==> m.open[i].t in m.db.tasks
    ensures Rows(m)
  {
    forall i | 0 <= i < |m.db.costs| ensures RowOk(m, m.db.costs[i]) {
      assert RowOk(l, l.db.costs[i]);
    }
  }

  lemma SpendNotNegative(l: Ledger)
    requires Rows(l)
    ensures DaySpend(l.db.costs, l.now) >= 0 && MonthSpend(l.db.costs, l.now) >= 0
    ensures forall t :: TaskSpend(l.db.costs, t) >= 0
  {
    assert forall i :: 0 <= i < |l.db.costs| ==> RowOk(l, l.db.costs[i]);
    SumWithin(l.db.costs, OnDay(l.now), OnDay(l.now));
    SumWithin(l.db.costs, OfMonth(l.now), OfMonth(l.now));
    forall t ensures TaskSpend(l.db.costs, t) >= 0 {
      var p := (c: Cost) => Selected(c, Some(t), None, None);
      SumWithin(l.db.costs, p, p);
      SumSame(l.db.costs, p, c => Selected(c, Some(t), None, None));
    }
  }

  /** Nothing about money or time changed between two ledgers. */
  lemma SameMoney(l: Ledger, limits: Limits, k: nat, most: int, db: Db)
    requires Sane(limits, k, most) && Bounded(l, limits, k, most) && db.costs == l.db.costs
    requires forall t :: t in l.db.tasks ==> t in db.tasks && db.tasks[t].env == l.db.tasks[t].env
    requires forall t :: t in db.tasks && t !in l.db.tasks ==> db.tasks[t].env.hardUsd >= 0
    ensures Bounded(l.(db := db), limits, k, most)
  {
    TimesGrows(0, k - 1, most);
    SameRows(l, db);
    SameTasks(l, db, Times(k - 1, most));
    assert DaysBounded(l.(db := db), limits, Times(k - 1, most));
    assert MonthsBounded(l.(db := db), limits, Times(k - 1, most));
  }

  lemma SameRows(l: Ledger, db: Db)
    requires Rows(l) && db.costs == l.db.costs
    requires forall t :: t in l.db.tasks ==> t in db.tasks && db.tasks[t].env == l.db.tasks[t].env
    requires forall t :: t in db.tasks && t !in l.db.tasks ==> db.tasks[t].env.hardUsd >= 0
    ensures Rows(l.(db := db))
  {
    forall i | 0 <= i < |db.costs| ensures RowOk(l.(db := db), db.costs[i]) {
      assert RowOk(l, l.db.costs[i]);
    }
  }

  /** A task that has just been created has neither costs nor grants. */
  lemma SameTasks(l: Ledger, db: Db, slack: int)
    requires Rows(l) && TasksBounded(l, slack) && db.costs == l.db.costs && slack >= 0
    requires forall t :: t in l.db.tasks ==> t in db.tasks && db.tasks[t].env == l.db.tasks[t].env
    requires forall t :: t in db.tasks && t !in l.db.tasks ==> db.tasks[t].env.hardUsd >= 0
    ensures TasksBounded(l.(db := db), slack)
  {
    forall t | t in db.tasks && t !in l.db.tasks
      ensures TaskSpend(db.costs, t) == 0 && OpenFor(l.open, t) == 0
    {
      forall i | 0 <= i < |db.costs| ensures !Selected(db.costs[i], Some(t), None, None) {
        assert RowOk(l, l.db.costs[i]);
      }
      SumNone(db.costs, c => Selected(c, Some(t), None, None));
      NoneFor(l.open, t);
    }
  }

  lemma {:induction false} NoneFor(open: seq<Grant>, t: string)
    requires forall i :: 0 <= i < |open| ==> open[i].t != t
    ensures OpenFor(open, t) == 0
  {
    if open != [] {
      NoneFor(open[..|open| - 1], t);
    }
  }

  lemma DropBounded(l: Ledger, limits: Limits, k: nat, most: int, i: nat)
    requires Sane(limits, k, most) && Bounded(l, limits, k, most) && i < |l.open|
    ensures Bounded(l.(open := Without(l.open, i)), limits, k, most)
  {
    OpenRemove(l.open, i);
    assert GrantOk(l.open[i], limits, most);
    assert forall j :: 0 <= j < i ==> Without(l.open, i)[j] == l.open[j];
    assert forall j :: i <= j < |l.open| - 1 ==> Without(l.open, i)[j] == l.open[j + 1];
  }

  /** Recording a cost at most its grant moves money from outstanding to spent. */
  lemma CostBounded(l: Ledger, limits: Limits, k: nat, most: int, c: Cost, open: seq<Grant>, db: Db)
    requires Sane(limits, k, most) && Bounded(l, limits, k, most)
    requires db == l.db.(costs := l.db.costs + [c], log := db.log)
    requires c.usd >= 0 && c.taskId in l.db.tasks && c.createdAt == Iso(l.now)
    requires |open| <= k && GrantsOk(open, limits, most)
    requires forall i :: 0 <= i < |open| ==> open[i].t in l.db.tasks
    requires OpenTotal(open) + c.usd <= OpenTotal(l.open)
    requires forall t :: OpenFor(open, t) + (if t == c.taskId then c.usd else 0) <= OpenFor(l.open, t)
    ensures Bounded(Ledger(db, l.now, open), limits, k, most)
  {
    var m := Ledger(db, l.now, open);
    CostRows(l, c, m);
    OpenBound(open, limits, most);
    CostTasks(l, c, m, Times(k - 1, most));
    CostWindows(l, limits, c, m, Times(k - 1, most));
  }

  lemma CostRows(l: Ledger, c: Cost, m: Ledger)
    requires Rows(l) && c.usd >= 0 && c.taskId in l.db.tasks && c.createdAt == Iso(l.now)
    requires m.now == l.now && m.db.tasks == l.db.tasks && m.db.costs == l.db.costs + [c]
    requires forall i :: 0 <= i < |m.open| ==> m.open[i].t in l.db.tasks
    ensures Rows(m)
  {
    TimeOfIso(l.now);
    forall i | 0 <= i < |m.db.costs| ensures RowOk(m, m.db.costs[i]) {
      if i < |l.db.costs| { assert RowOk(l, l.db.costs[i]); }
    }
  }

  lemma CostTasks(l: Ledger, c: Cost, m: Ledger, slack: int)
    requires TasksBounded(l, slack) && m.db.tasks == l.db.tasks && m.db.costs == l.db.costs + [c]
    requires forall t :: OpenFor(m.open, t) + (if t == c.taskId then c.usd else 0) <= OpenFor(l.open, t)
    ensures TasksBounded(m, slack)
  {
    forall t ensures TaskSpend(m.db.costs, t) == TaskSpend(l.db.costs, t) + if t == c.taskId then c.usd else 0 {
      SumAppend(l.db.costs, c, x => Selected(x, Some(t), None, None));
    }
  }

  lemma CostWindows(l: Ledger, limits: Limits, c: Cost, m: Ledger, slack: int)
    requires DaysBounded(l, limits, slack) && MonthsBounded(l, limits, slack)
    requires IsDateTime(l.now) && c.createdAt == Iso(l.now)
    requires m.now == l.now && m.db.costs == l.db.costs + [c]
    requires 0 <= OpenTotal(m.open) && OpenTotal(m.open) + c.usd <= OpenTotal(l.open)
    ensures DaysBounded(m, limits, slack) && MonthsBounded(m, limits, slack)
  {
    TimeOfIso(l.now);
    forall d: DateTime
      ensures DaySpend(m.db.costs, d) == DaySpend(l.db.costs, d) + if SameDay(l.now, d) then c.usd else 0
      ensures MonthSpend(m.db.costs, d) == MonthSpend(l.db.costs, d) + if SameMonth(l.now, d) then c.usd else 0
      ensures SameDay(l.now, d) ==> DaySpend(l.db.costs, d) == DaySpend(l.db.costs, l.now)
      ensures SameMonth(l.now, d) ==> MonthSpend(l.db.costs, d) == MonthSpend(l.db.costs, l.now)
    {
      SumAppend(l.db.costs, c, OnDay(d));
      SumAppend(l.db.costs, c, OfMonth(d));
      SameDaySameSpend(l.db.costs, l.now, d);
    }
  }

  lemma SettleBounded(l: Ledger, limits: Limits, k: nat, most: int, i: nat, channel: Channel, usd: int)
    requires Sane(limits, k, most) && Bounded(l, limits, k, most)
    requires i < |l.open| && 0 <= usd <= l.open[i].usd
    ensures Bounded(Next(l, limits, Settle(i, channel, usd)), limits, k, most)
  {
    var c := Cost(l.open[i].t, None, channel.id, channel.billing, None, None, usd, Iso(l.now));
    var open := Without(l.open, i);
    DropBounded(l, limits, k, most, i);
    OpenRemove(l.open, i);
    SettleIsRecord(l, limits, i, channel, usd, c);
    CostBounded(l, limits, k, most, c, open, Repositories.RecordCost(l.db, c).value);
  }

  lemma SettleIsRecord(l: Ledger, limits: Limits, i: nat, channel: Channel, usd: int, c: Cost)
    requires IsDateTime(l.now) && i < |l.open| && usd >= 0 && l.open[i].t in l.db.tasks
    requires c == Cost(l.open[i].t, None, channel.id, channel.billing, None, None, usd, Iso(l.now))
    ensures Repositories.RecordCost(l.db, c).Ok?
    ensures var db := Repositories.RecordCost(l.db, c).value;
            && Next(l, limits, Settle(i, channel, usd)) == Ledger(db, l.now, Without(l.open, i))
            && db == l.db.(costs := l.db.costs + [c], log := db.log)
  {
  }

  lemma OtherBounded(l: Ledger, limits: Limits, k: nat, most: int, x: Repositories.Txn)
    requires Sane(limits, k, most) && Bounded(l, limits, k, most) && Regular(l, k, most, Other(x))
    ensures Bounded(Next(l, limits, Other(x)), limits, k, most)
  {
    if Repositories.Run(l.db, x).Ok? {
      var d := Repositories.After(l.db, x);
      if x.TxRecordCost? {
        CostBounded(l, limits, k, most, x.cost, l.open, d);
      } else {
        EnvelopesKept(l.db, x);
        SameMoney(l, limits, k, most, d);
      }
    }
  }

  lemma CostsKept(db: Db, x: Repositories.Txn)
    requires !x.TxRecordCost?
    ensures Repositories.After(db, x).costs == db.costs
  {
  }

  lemma EnvelopeKept(db: Db, x: Repositories.Txn, t: string)
    ensures var d := Repositories.After(db, x);
            && (t in db.tasks ==> t in d.tasks && d.tasks[t].env == db.tasks[t].env)
            && (t in d.tasks && t !in db.tasks ==> x.TxCreateTask? && d.tasks[t].env == x.env)
  {
  }

  lemma EnvelopesKept(db: Db, x: Repositories.Txn)
    requires !x.TxRecordCost?
    ensures Repositories.After(db, x).costs == db.costs
    ensures forall t :: t in db.tasks ==> t in Repositories.After(db, x).tasks && Repositories.After(db, x).tasks[t].env == db.tasks[t].env
    ensures forall t :: t in Repositories.After(db, x).tasks && t !in db.tasks ==>
                          x.TxCreateTask? && Repositories.After(db, x).tasks[t].env == x.env
  {
    hide Repositories.After;
    CostsKept(db, x);
    forall t { EnvelopeKept(db, x, t); }
  }

  lemma AskBounded(l: Ledger, limits: Limits, k: nat, most: int, step: Step)
    requires Sane(limits, k, most) && Bounded(l, limits, k, most) && step.Ask? && Regular(l, k, most, step)
    ensures Bounded(Next(l, limits, step), limits, k, most)
  {
    var r := Authorize(l.db, limits, step.t, step.channel, step.usd, l.now, step.id);
    if r.Ok? {
      assert forall i :: 0 <= i < |l.db.costs| ==> RowOk(l, l.db.costs[i]);
      if Paid(step.channel.class_) && Permits(r.value.1.decision) {
        AuthorizeMeaning(l.db, limits, step.t, step.channel, step.usd, l.now, step.id);
        AuthorizeEffects(l.db, limits, step.t, step.channel, step.usd, l.now, step.id);
        GrantBounded(l, limits, k, most, step.t, step.usd, r.value.0);
      } else {
        AskKeepsMoney(l.db, limits, step, l.now);
        SameMoney(l, limits, k, most, r.value.0);
      }
    }
  }

  lemma AskKeepsMoney(db: Db, limits: Limits, step: Step, now: DateTime)
    requires step.Ask? && Authorize(db, limits, step.t, step.channel, step.usd, now, step.id).Ok?
    ensures KeepsMoney(db, Authorize(db, limits, step.t, step.channel, step.usd, now, step.id).value.0)
  {
    var q := Quotation(db, limits, step.t, step.channel, step.usd, now);
    if !Paid(step.channel.class_) {
      assert KeepsMoney(db, NonPaid(db, step.t, step.channel, q, Iso(now)).value.0);
    } else if q.exceeded != [] {
      BlockKeepsMoney(db, step.t, q, Iso(now), step.id);
    } else {
      PassMeaning(db, step.t, q, Iso(now));
    }
  }

  predicate KeepsMoney(db: Db, d: Db) {
    && d.costs == db.costs && d.tasks.Keys == db.tasks.Keys
    && forall t :: t in db.tasks ==> d.tasks[t].env == db.tasks[t].env
  }

  lemma BlockKeepsMoney(db: Db, t: string, q: Quote, at: string, id: string)
    requires t in db.tasks && Block(db, t, q, at, id).Ok?
    ensures KeepsMoney(db, Block(db, t, q, at, id).value.0)
  {
  }

  lemma StepBounded(l: Ledger, limits: Limits, k: nat, most: int, step: Step)
    requires Sane(limits, k, most) && Bounded(l, limits, k, most) && Regular(l, k, most, step)
    ensures Bounded(Next(l, limits, step), limits, k, most)
  {
    match step
    case Tick(now) => TickBounded(l, limits, k, most, now);
    case Ask(_, _, _, _) => AskBounded(l, limits, k, most, step);
    case Settle(i, channel, usd) => if i < |l.open| && usd >= 0 { SettleBounded(l, limits, k, most, i, channel, usd); }
    case Drop(i) => if i < |l.open| { DropBounded(l, limits, k, most, i); }
    case Other(x) => OtherBounded(l, limits, k, most, x);
  }

  lemma PrefixRegular(l: Ledger, limits: Limits, k: nat, most: int, steps: seq<Step>, n: nat)
    requires n < |steps| && AllRegular(l, limits, k, most, steps)
    ensures AllRegular(l, limits, k, most, steps[..n]) && Regular(Spend(l, limits, steps[..n]), k, most, steps[n])
  {
    hide Spend, Regular;
    forall i | 0 <= i < n ensures Regular(Spend(l, limits, steps[..n][..i]), k, most, steps[..n][i]) {
      assert steps[..n][..i] == steps[..i];
    }
  }

  lemma {:induction false} RunBounded(now: DateTime, limits: Limits, k: nat, most: int, steps: seq<Step>)
    requires Sane(limits, k, most) && HasWindows(now)
    requires AllRegular(Ledger(EMPTY, now, []), limits, k, most, steps)
    ensures Bounded(Spend(Ledger(EMPTY, now, []), limits, steps), limits, k, most)
  {
    var l := Ledger(EMPTY, now, []);
    if steps == [] {
      TimesGrows(0, k - 1, most);
    } else {
      hide Next, Bounded, Sane, AllRegular, Regular;
      var n := |steps| - 1;
      PrefixRegular(l, limits, k, most, steps, n);
      RunBounded(now, limits, k, most, steps[..n]);
      StepBounded(Spend(l, limits, steps[..n]), limits, k, most, steps[n]);
    }
  }

  /** No task, no calendar day and no month cost more than its hard limit plus `slack`. */
  ghost predicate WithinSlack(l: Ledger, limits: Limits, slack: int) {
    && (forall t :: t in l.db.tasks ==> TaskSpend(l.db.costs, t) <= l.db.tasks[t].env.hardUsd + slack)
    && (forall d :: DaySpend(l.db.costs, d) <= limits.dailyHard + slack)
    && (forall d :: MonthSpend(l.db.costs, d) <= limits.monthlyHard + slack)
  }

  lemma BoundedSpend(l: Ledger, limits: Limits, k: nat, most: int)
    requires Sane(limits, k, most) && Bounded(l, limits, k, most)
    ensures WithinSlack(l, limits, Times(k - 1, most))
  {
    OpenBound(l.open, limits, most);
  }

  /**
    With at most k paid authorisations outstanding and none above `most`, no task, no calendar day
    and no month ever costs more than its hard limit plus (k - 1) * most, over any run and across
    day and month ends.
   */
  lemma SpendIsBounded(now: DateTime, limits: Limits, k: nat, most: int, steps: seq<Step>)
    requires Sane(limits, k, most) && HasWindows(now)
    requires AllRegular(Ledger(EMPTY, now, []), limits, k, most, steps)
    ensures WithinSlack(Spend(Ledger(EMPTY, now, []), limits, steps), limits, (k - 1) * most)
  {
    TimesIsProduct(k - 1, most);
    SpendWithin(now, limits, k, most, steps, (k - 1) * most);
  }

  lemma SpendWithin(now: DateTime, limits: Limits, k: nat, most: int, steps: seq<Step>, slack: int)
    requires Sane(limits, k, most) && HasWindows(now) && slack == Times(k - 1, most)
    requires AllRegular(Ledger(EMPTY, now, []), limits, k, most, steps)
    ensures WithinSlack(Spend(Ledger(EMPTY, now, []), limits, steps), limits, slack)
  {
    RunBounded(now, limits, k, most, steps);
    BoundedSpend(Spend(Ledger(EMPTY, now, []), limits, steps), limits, k, most);
  }

  /** One paid action at a time never exceeds a hard limit. */
  lemma OneAtATimeStaysWithinLimits(now: DateTime, limits: Limits, most: int, steps: seq<Step>)
    requires Sane(limits, 1, most) && HasWindows(now)
    requires AllRegular(Ledger(EMPTY, now, []), limits, 1, most, steps)
    ensures WithinSlack(Spend(Ledger(EMPTY, now, []), limits, steps), limits, 0)
  {
    SpendWithin(now, limits, 1, most, steps, 0);
  }

  const API := Channel("api", "provider", CHEAP_API, "api", {"MASTER"}, true, 100, AVAILABLE,
                       Hints(None, None, None, None, None))

  /** Spend of the task, of this day and of this month are all v. */
  ghost predicate Spent(costs: seq<Cost>, t: string, now: DateTime, v: int) {
    Stamped(costs) && TaskSpend(costs, t) == v && DaySpend(costs, now) == v && MonthSpend(costs, now) == v
  }

  ghost predicate Book(l: Ledger, env: Envelope, now: DateTime, v: int, open: seq<Grant>) {
    && l.now == now && l.open == open && env.taskId in l.db.tasks && l.db.tasks[env.taskId].env == env
    && Spent(l.db.costs, env.taskId, now, v)
  }

  /** Limits of day and month that leave the task's own hard limit in force. */
  predicate Roomy(env: Envelope, limits: Limits) {
    0 <= env.hardUsd <= limits.dailyHard && env.hardUsd <= limits.monthlyHard
  }

  /** What steps from the empty ledger lead to. */
  ghost predicate Leads(env: Envelope, now: DateTime, limits: Limits, k: nat, most: int, steps: seq<Step>, v: int, open: seq<Grant>) {
    && AllRegular(Ledger(EMPTY, now, []), limits, k, most, steps)
    && Book(Spend(Ledger(EMPTY, now, []), limits, steps), env, now, v, open)
  }

  lemma Opened(env: Envelope, now: DateTime, limits: Limits, k: nat, most: int) returns (steps: seq<Step>)
    requires HasWindows(now) && Roomy(env, limits)
    ensures Leads(env, now, limits, k, most, steps, 0, [])
  {
    var create := Other(Repositories.TxCreateTask(env, ""));
    var l := Take(Ledger(EMPTY, now, []), limits, k, most, [], create);
    steps := [] + [create];
    assert l.db.tasks[env.taskId].env == env && l.db.costs == [];
  }

  lemma Granted(env: Envelope, now: DateTime, limits: Limits, k: nat, most: int, before: seq<Step>, v: int, open: seq<Grant>, usd: int)
    returns (steps: seq<Step>)
    requires HasWindows(now) && Roomy(env, limits) && Leads(env, now, limits, k, most, before, v, open)
    requires |open| < k && 0 <= usd <= most && v + usd <= env.hardUsd
    ensures Leads(env, now, limits, k, most, steps, v, open + [Grant(env.taskId, usd)])
  {
    var start := Ledger(EMPTY, now, []);
    var l := Spend(start, limits, before);
    var ask := Ask(env.taskId, API, usd, "AP-1");
    AskGrants(l, limits, env.taskId, API, usd);
    hide Next, Spend;
    var m := Take(start, limits, k, most, before, ask);
    steps := before + [ask];
  }

  lemma FirstOut(g: Grant, open: seq<Grant>)
    ensures Without([g] + open, 0) == open
  {
  }

  lemma SettledBook(l: Ledger, env: Envelope, now: DateTime, limits: Limits, v: int, open: seq<Grant>, usd: int)
    requires IsDateTime(now) && 0 <= usd && Book(l, env, now, v, [Grant(env.taskId, usd)] + open)
    ensures Book(Next(l, limits, Settle(0, API, usd)), env, now, v + usd, open)
  {
    hide Next, Spent, Repositories.RecordCost, Without;
    var c := Cost(env.taskId, None, API.id, API.billing, None, None, usd, Iso(now));
    SettleIsRecord(l, limits, 0, API, usd, c);
    FirstOut(Grant(env.taskId, usd), open);
    SpentMore(l.db.costs, c, env.taskId, now, v);
  }

  lemma Settled(env: Envelope, now: DateTime, limits: Limits, k: nat, most: int, before: seq<Step>, v: int, open: seq<Grant>, usd: int)
    returns (steps: seq<Step>)
    requires HasWindows(now) && 0 <= usd && Leads(env, now, limits, k, most, before, v, [Grant(env.taskId, usd)] + open)
    ensures Leads(env, now, limits, k, most, steps, v + usd, open)
  {
    var start := Ledger(EMPTY, now, []);
    var l := Spend(start, limits, before);
    assert l.open[0].usd == usd;
    SettledBook(l, env, now, limits, v, open, usd);
    hide Next, Spend, Book;
    var m := Take(start, limits, k, most, before, Settle(0, API, usd));
    steps := before + [Settle(0, API, usd)];
  }

  lemma SpentMore(costs: seq<Cost>, c: Cost, t: string, now: DateTime, v: int)
    requires IsDateTime(now) && Spent(costs, t, now, v) && c.taskId == t && c.createdAt == Iso(now)
    ensures Spent(costs + [c], t, now, v + c.usd)
  {
    TimeOfIso(now);
    SumAppend(costs, c, x => Selected(x, Some(t), None, None));
    SumAppend(costs, c, OnDay(now));
    SumAppend(costs, c, OfMonth(now));
    assert Stamp(c.createdAt, TimeOf(c.createdAt));
  }

  /** Spending `rest` more, one authorisation after the other. */
  lemma {:induction false} Fill(env: Envelope, now: DateTime, limits: Limits, k: nat, most: int, before: seq<Step>, v: int, rest: nat)
    returns (steps: seq<Step>)
    requires HasWindows(now) && Roomy(env, limits) && k > 0 && most > 0 && v + rest <= env.hardUsd
    requires Leads(env, now, limits, k, most, before, v, [])
    ensures Leads(env, now, limits, k, most, steps, v + rest, [])
    decreases rest
  {
    hide Leads;
    if rest == 0 {
      return before;
    }
    var usd := if rest < most then rest else most;
    steps := Granted(env, now, limits, k, most, before, v, [], usd);
    assert [] + [Grant(env.taskId, usd)] == [Grant(env.taskId, usd)] + [];
    steps := Settled(env, now, limits, k, most, steps, v, [], usd);
    steps := Fill(env, now, limits, k, most, steps, v + usd, rest - usd);
  }

  function Copies(g: Grant, n: nat): seq<Grant> {
    if n == 0 then [] else [g] + Copies(g, n - 1)
  }

  lemma {:induction false} OneMoreCopy(g: Grant, n: nat)
    ensures Copies(g, n) + [g] == Copies(g, n + 1) && |Copies(g, n)| == n
  {
    if n > 0 {
      OneMoreCopy(g, n - 1);
      assert Copies(g, n) + [g] == [g] + (Copies(g, n - 1) + [g]);
    }
  }

  /** n authorisations of the largest amount, none of them recorded. */
  lemma {:induction false} GrantMany(env: Envelope, now: DateTime, limits: Limits, k: nat, most: int, before: seq<Step>, v: int, n: nat)
    returns (steps: seq<Step>)
    requires HasWindows(now) && Roomy(env, limits) && n <= k && most > 0 && v + most <= env.hardUsd
    requires Leads(env, now, limits, k, most, before, v, [])
    ensures Leads(env, now, limits, k, most, steps, v, Copies(Grant(env.taskId, most), n))
  {
    hide Leads;
    if n == 0 {
      return before;
    }
    var g := Grant(env.taskId, most);
    steps := GrantMany(env, now, limits, k, most, before, v, n - 1);
    OneMoreCopy(g, n - 1);
    steps := Granted(env, now, limits, k, most, steps, v, Copies(g, n - 1), most);
  }

  /** ... and then recorded, each at its full estimate. */
  lemma {:induction false} SettleMany(env: Envelope, now: DateTime, limits: Limits, k: nat, most: int, before: seq<Step>, v: int, n: nat)
    returns (steps: seq<Step>)
    requires HasWindows(now) && most > 0
    requires Leads(env, now, limits, k, most, before, v, Copies(Grant(env.taskId, most), n))
    ensures Leads(env, now, limits, k, most, steps, v + Times(n, most), [])
    decreases n
  {
    hide Leads;
    if n == 0 {
      return before;
    }
    steps := Settled(env, now, limits, k, most, before, v, Copies(Grant(env.taskId, most), n - 1), most);
    steps := SettleMany(env, now, limits, k, most, steps, v + most, n - 1);
  }

  /**
    The bound is tight for every k and every positive amount up to the limit: spend the limit less one
    amount, have k of them authorised before any is recorded, then record them all. With daily and
    monthly limits equal to the task's, all three scopes reach their bound at once.
   */
  lemma BoundIsReached(env: Envelope, now: DateTime, limits: Limits, k: nat, most: int) returns (steps: seq<Step>)
    requires HasWindows(now) && Roomy(env, limits) && k >= 1 && 0 < most <= env.hardUsd
    ensures AllRegular(Ledger(EMPTY, now, []), limits, k, most, steps)
    ensures var costs := Spend(Ledger(EMPTY, now, []), limits, steps).db.costs;
            && TaskSpend(costs, env.taskId) == env.hardUsd + (k - 1) * most
            && DaySpend(costs, now) == env.hardUsd + (k - 1) * most
            && MonthSpend(costs, now) == env.hardUsd + (k - 1) * most
  {
    steps := Overspent(env, now, limits, k, most);
    hide AllRegular, Spend, TaskSpend, DaySpend, MonthSpend, Stamped;
    TimesIsProduct(k - 1, most);
  }

  lemma Overspent(env: Envelope, now: DateTime, limits: Limits, k: nat, most: int) returns (steps: seq<Step>)
    requires HasWindows(now) && Roomy(env, limits) && k >= 1 && 0 < most <= env.hardUsd
    ensures Leads(env, now, limits, k, most, steps, env.hardUsd + Times(k - 1, most), [])
  {
    hide Leads;
    steps := Opened(env, now, limits, k, most);
    steps := Fill(env, now, limits, k, most, steps, 0, env.hardUsd - most);
    steps := GrantMany(env, now, limits, k, most, steps, env.hardUsd - most, k);
    steps := SettleMany(env, now, limits, k, most, steps, env.hardUsd - most, k);
  }

  /** A paid request inside every hard limit is granted, whatever is outstanding. */
  lemma AskGrants(l: Ledger, limits: Limits, t: string, channel: Channel, usd: int)
    requires Paid(channel.class_) && usd >= 0 && t in l.db.tasks && HasWindows(l.now) && Stamped(l.db.costs)
    requires WithinHardLimits(l.db, limits, t, usd, l.now)
    ensures var m := Next(l, limits, Ask(t, channel, usd, "AP-1"));
            m.open == l.open + [Grant(t, usd)] && m.db == l.db.(log := m.db.log) && m.now == l.now
  {
    QuotationMeaning(l.db, limits, t, channel, usd, l.now);
    PassMeaning(l.db, t, Quotation(l.db, limits, t, channel, usd, l.now), Iso(l.now));
    assert Authorize(l.db, limits, t, channel, usd, l.now, "AP-1").Ok?;
    AuthorizeMeaning(l.db, limits, t, channel, usd, l.now, "AP-1");
    AuthorizeEffects(l.db, limits, t, channel, usd, l.now, "AP-1");
  }

  lemma Take(l: Ledger, limits: Limits, k: nat, most: int, steps: seq<Step>, step: Step) returns (m: Ledger)
    requires AllRegular(l, limits, k, most, steps) && Regular(Spend(l, limits, steps), k, most, step)
    ensures AllRegular(l, limits, k, most, steps + [step])
    ensures m == Spend(l, limits, steps + [step]) == Next(Spend(l, limits, steps), limits, step)
  {
    var more := steps + [step];
    assert more[..|steps|] == steps;
    forall n | 0 <= n < |more| ensures Regular(Spend(l, limits, more[..n]), k, most, more[n]) {
      if n < |steps| {
        assert more[..n] == steps[..n];
      }
    }
    m := Next(Spend(l, limits, steps), limits, step);
  }
}
