/** The engine's answers read off the tables, class by class of channel. */
module BudgetTheorems {
  import opened Prelude
  import opened Records
  import opened Calendar
  import opened Timestamps
  import opened Spending
  import opened BudgetPolicy
  import opened StateMachine
  import Approvals
  import Repositories

  /** The limits a paid request of `usd` would break, in the order task, day, month. */
  ghost function Broken(db: Db, limits: Limits, t: string, usd: int, now: DateTime): seq<string>
    requires t in db.tasks
  {
    (if TaskSpend(db.costs, t) + usd > db.tasks[t].env.hardUsd then ["task"] else [])
    + (if DaySpend(db.costs, now) + usd > limits.dailyHard then ["daily"] else [])
    + (if MonthSpend(db.costs, now) + usd > limits.monthlyHard then ["global_monthly"] else [])
  }

  /** The soft limits it would pass. */
  ghost function Passed(db: Db, limits: Limits, t: string, usd: int, now: DateTime): seq<string>
    requires t in db.tasks
  {
    (if TaskSpend(db.costs, t) + usd > db.tasks[t].env.softUsd then ["task"] else [])
    + (if DaySpend(db.costs, now) + usd > limits.dailySoft then ["daily"] else [])
  }

  /** The projection: what task, day and month have really cost, plus the estimate. */
  lemma QuotationIs(db: Db, limits: Limits, t: string, channel: Channel, usd: int, now: DateTime)
    requires Stamped(db.costs) && t in db.tasks && HasWindows(now)
    ensures Quotation(db, limits, t, channel, usd, now)
            == Quote(channel.id, channel.billing, usd, TaskSpend(db.costs, t) + usd, DaySpend(db.costs, now) + usd,
                     MonthSpend(db.costs, now) + usd, Passed(db, limits, t, usd, now), Broken(db, limits, t, usd, now))
  {
    WindowsSumTheCalendar(db.costs, now);
  }

  /**
    A paid API, cheap or premium. The engine answers exactly when the estimate is not negative, the
    task known, the windows exist, and either no hard limit breaks or the task is RUNNING and the
    approval id is fresh; otherwise it raises the error of the first of these that fails.
   */
  lemma PaidAnswersExactlyWhen(db: Db, limits: Limits, t: string, channel: Channel, usd: int, now: DateTime, id: string)
    requires Stamped(db.costs) && channel.class_ in {CHEAP_API, PREMIUM_API}
    ensures match Authorize(db, limits, t, channel, usd, now, id)
            case Ok(_) =>
              && usd >= 0 && t in db.tasks && HasWindows(now)
              && (Broken(db, limits, t, usd, now) == [] || (db.tasks[t].status == RUNNING && id !in db.approvals))
            case Err(e) =>
              if usd < 0 then e == ValueError
              else if t !in db.tasks then e == TaskNotFound
              else if !HasWindows(now) then e == ValueError
              else
                && Broken(db, limits, t, usd, now) != []
                && (if db.tasks[t].status != RUNNING then e == BudgetState else id in db.approvals && e == DuplicateRecord)
  {
    hide Broken, Passed, Quotation, Block, Pass, Iso;
    if usd >= 0 && t in db.tasks && HasWindows(now) {
      QuotationIs(db, limits, t, channel, usd, now);
      var q := Quotation(db, limits, t, channel, usd, now);
      PaidCases(db, limits, t, channel, usd, now, id);
      hide Authorize;
      BlocksExactlyWhen(db, t, q, Iso(now), id);
      PassWrites(db, t, q, Iso(now));
    }
  }

  lemma PaidCases(db: Db, limits: Limits, t: string, channel: Channel, usd: int, now: DateTime, id: string)
    requires channel.class_ in {CHEAP_API, PREMIUM_API} && usd >= 0 && t in db.tasks && HasWindows(now)
    ensures var q := Quotation(db, limits, t, channel, usd, now);
            Authorize(db, limits, t, channel, usd, now, id)
            == if q.exceeded != [] then Block(db, t, q, Iso(now), id) else Pass(db, t, q, Iso(now))
  {
    hide Quotation, Block, Pass, Iso;
  }

  lemma BlocksExactlyWhen(db: Db, t: string, q: Quote, at: string, id: string)
    requires t in db.tasks
    ensures match Block(db, t, q, at, id)
            case Ok(_) => db.tasks[t].status == RUNNING && id !in db.approvals
            case Err(e) => if db.tasks[t].status != RUNNING then e == BudgetState else id in db.approvals && e == DuplicateRecord
  {
    hide Repositories.RequestApproval;
    Approvals.RequestMeaning(db, id, Request(t, q, at));
    OnlyRunningWaits(db.tasks[t].status);
    hide Allowed;
  }

  lemma OnlyRunningWaits(s: Status)
    ensures Allowed(s, WAITING_APPROVAL) <==> s == RUNNING
  {
  }

  /**
    What the answer says. Within all hard limits it permits, with a warning exactly when a soft limit
    is passed; otherwise it blocks under the new approval. The totals are what task, day and month
    have really cost plus the estimate, and the scopes are exactly the limits broken and passed.
   */
  lemma PaidAnswer(db: Db, limits: Limits, t: string, channel: Channel, usd: int, now: DateTime, id: string)
    requires Stamped(db.costs) && channel.class_ in {CHEAP_API, PREMIUM_API}
    requires Authorize(db, limits, t, channel, usd, now, id).Ok?
    ensures t in db.tasks
    ensures var a := Authorize(db, limits, t, channel, usd, now, id).value.1;
            && a.decision == (if Broken(db, limits, t, usd, now) != [] then BLOCK_PENDING_APPROVAL
                              else if Passed(db, limits, t, usd, now) != [] then ALLOW_WITH_WARNING else ALLOW)
            && a.usd == usd && a.taskUsd == TaskSpend(db.costs, t) + usd
            && a.dailyUsd == DaySpend(db.costs, now) + usd && a.monthlyUsd == MonthSpend(db.costs, now) + usd
            && a.warnings == Passed(db, limits, t, usd, now) && a.exceeded == Broken(db, limits, t, usd, now)
            && a.approval == (if Broken(db, limits, t, usd, now) != [] then Some(id) else None)
  {
    hide Broken, Passed, Quotation;
    QuotationIs(db, limits, t, channel, usd, now);
    AuthorizeCases(db, limits, t, channel, usd, now, id);
  }

  /**
    What it writes. A permission adds one event and nothing else; a block files the PENDING approval
    with the projection, moves the task to WAITING_APPROVAL and adds their two events.
   */
  lemma PaidWrites(db: Db, limits: Limits, t: string, channel: Channel, usd: int, now: DateTime, id: string)
    requires Stamped(db.costs) && channel.class_ in {CHEAP_API, PREMIUM_API}
    requires Authorize(db, limits, t, channel, usd, now, id).Ok?
    ensures t in db.tasks && HasWindows(now)
    ensures var d := Authorize(db, limits, t, channel, usd, now, id).value.0;
            var q := Quote(channel.id, channel.billing, usd, TaskSpend(db.costs, t) + usd, DaySpend(db.costs, now) + usd,
                           MonthSpend(db.costs, now) + usd, Passed(db, limits, t, usd, now), Broken(db, limits, t, usd, now));
            if Broken(db, limits, t, usd, now) == [] then
              d == db.(log := db.log + [EventRow(t, None, Noted(BudgetAuthorized(q, Passed(db, limits, t, usd, now) != [])), Iso(now))])
            else
              && d.tasks == db.tasks[t := db.tasks[t].(status := WAITING_APPROVAL, updatedAt := Iso(now))]
              && d.approvals == db.approvals[id := Approval(t, "EXCEED_API_HARD_LIMIT",
                   "Projected API spend exceeds one or more configured hard limits", q, PENDING, Iso(now), None, None)]
              && d == db.(tasks := d.tasks, approvals := d.approvals, log := d.log)
              && |d.log| == |db.log| + 2 && db.log <= d.log
  {
    hide Broken, Passed, Quotation, Block, Pass, Authorize, Iso;
    AuthorizeCases(db, limits, t, channel, usd, now, id);
    QuotationIs(db, limits, t, channel, usd, now);
    var q := Quotation(db, limits, t, channel, usd, now);
    BlockWrites(db, t, q, Iso(now), id);
    PassWrites(db, t, q, Iso(now));
  }

  lemma PassWrites(db: Db, t: string, q: Quote, at: string)
    requires t in db.tasks
    ensures Pass(db, t, q, at).Ok?
    ensures Pass(db, t, q, at).value.0 == db.(log := db.log + [EventRow(t, None, Noted(BudgetAuthorized(q, q.warnings != [])), at)])
  {
  }

  lemma BlockWrites(db: Db, t: string, q: Quote, at: string, id: string)
    requires t in db.tasks
    ensures Block(db, t, q, at, id).Ok? ==>
              var d := Block(db, t, q, at, id).value.0;
              && d.tasks == db.tasks[t := db.tasks[t].(status := WAITING_APPROVAL, updatedAt := at)]
              && d.approvals == db.approvals[id := Approval(t, "EXCEED_API_HARD_LIMIT",
                   "Projected API spend exceeds one or more configured hard limits", q, PENDING, at, None, None)]
              && d == db.(tasks := d.tasks, approvals := d.approvals, log := d.log)
              && |d.log| == |db.log| + 2 && db.log <= d.log
  {
  }

  /**
    A subscription or a local channel. For a known task and existing windows the engine answers
    exactly when the estimate is zero. It then allows, whatever the limits and whatever the status of
    the task, reports what task, day and month have really cost, and adds one event.
   */
  lemma UnpaidAnswers(db: Db, limits: Limits, t: string, channel: Channel, usd: int, now: DateTime, id: string)
    requires Stamped(db.costs) && channel.class_ in {SUBSCRIPTION, FREE_LOCAL}
    ensures Authorize(db, limits, t, channel, usd, now, id).Ok? <==> usd == 0 && t in db.tasks && HasWindows(now)
    ensures match Authorize(db, limits, t, channel, usd, now, id)
            case Ok(r) =>
              && r.1 == Authorization(ALLOW, 0, TaskSpend(db.costs, t), DaySpend(db.costs, now), MonthSpend(db.costs, now), [], [], None)
              && r.0 == db.(log := db.log + [EventRow(t, None, Noted(NonPaidAuthorized(channel.id)), Iso(now))])
            case Err(e) => e == if usd >= 0 && t !in db.tasks then TaskNotFound else ValueError
  {
    hide Broken, Passed, Quotation;
    if usd >= 0 && t in db.tasks && HasWindows(now) {
      QuotationIs(db, limits, t, channel, usd, now);
    }
  }

  /**
    A recorded cost of a known task is counted, with its whole amount, in the spend of that task, of
    the day and of the month of the call, and in no other; every table but the costs and the log stays.
   */
  lemma RecordedCostCounts(db: Db, t: string, a: Option<string>, channel: Channel, usd: int,
                           inTokens: Option<nat>, outTokens: Option<nat>, now: DateTime, t': string, day: DateTime)
    requires IsDateTime(now)
    ensures RecordCost(db, t, a, channel, usd, inTokens, outTokens, now).Ok? <==>
              usd >= 0 && t in db.tasks && (a.Some? ==> a.value in db.attempts && db.attempts[a.value].taskId == t)
    ensures RecordCost(db, t, a, channel, usd, inTokens, outTokens, now).Ok? ==>
              var d := RecordCost(db, t, a, channel, usd, inTokens, outTokens, now).value;
              && d.costs == db.costs + [Cost(t, a, channel.id, channel.billing, inTokens, outTokens, usd, Iso(now))]
              && d == db.(costs := d.costs, log := d.log)
              && TaskSpend(d.costs, t') == TaskSpend(db.costs, t') + (if t' == t then usd else 0)
              && DaySpend(d.costs, day) == DaySpend(db.costs, day) + (if SameDay(now, day) then usd else 0)
              && MonthSpend(d.costs, day) == MonthSpend(db.costs, day) + (if SameMonth(now, day) then usd else 0)
  {
    var c := Cost(t, a, channel.id, channel.billing, inTokens, outTokens, usd, Iso(now));
    TimeOfIso(now);
    SpendOfOneMore(db.costs, c, t', day);
    hide TaskSpend, DaySpend, MonthSpend, TimeOf, Iso;
  }
}
