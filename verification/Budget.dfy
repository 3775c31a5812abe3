/** BudgetEngine: authorisation of projected API spend in the task, daily and monthly scopes. */
module BudgetPolicy {
  import opened Prelude
  import opened Records
  import opened StateMachine
  import opened Calendar
  import opened Timestamps
  import opened Spending
  import Repositories

  /** BudgetsConfig; the configuration guarantees soft <= hard and non-negative limits. */
  datatype Limits = Limits(dailySoft: int, dailyHard: int, monthlyHard: int)

  datatype Decision = ALLOW | ALLOW_WITH_WARNING | BLOCK_PENDING_APPROVAL

  datatype Authorization = Authorization(
    decision: Decision, usd: int, taskUsd: int, dailyUsd: int, monthlyUsd: int,
    warnings: seq<string>, exceeded: seq<string>, approval: Option<string>)

  predicate Paid(c: ChannelClass) {
    c == CHEAP_API || c == PREMIUM_API
  }

  /** The scope's name when its projected spend is over the limit. */
  function Over(scope: string, projected: int, limit: int): seq<string> {
    if projected > limit then [scope] else []
  }

  function Projected(db: Db, t: string, usd: int, now: DateTime): (int, int, int)
    requires HasWindows(now) && IsDateTime(DayStart(now)) && IsDateTime(NextDay(now))
    requires IsDateTime(MonthStart(now)) && IsDateTime(NextMonth(now))
  {
    (TaskSpend(db.costs, t) + usd, DailySpend(db.costs, now) + usd, MonthlySpend(db.costs, now) + usd)
  }

  function Quoted(limits: Limits, env: Envelope, channel: Channel, usd: int, p: (int, int, int)): Quote {
    Quote(channel.id, channel.billing, usd, p.0, p.1, p.2,
          Over("task", p.0, env.softUsd) + Over("daily", p.1, limits.dailySoft),
          Over("task", p.0, env.hardUsd) + Over("daily", p.1, limits.dailyHard)
          + Over("global_monthly", p.2, limits.monthlyHard))
  }

  function Answer(q: Quote, decision: Decision, approval: Option<string>): Authorization {
    Authorization(decision, q.usd, q.taskUsd, q.dailyUsd, q.monthlyUsd, q.warnings, q.exceeded, approval)
  }

  function Quotation(db: Db, limits: Limits, t: string, channel: Channel, usd: int, now: DateTime): Quote
    requires t in db.tasks && HasWindows(now)
  {
    WindowEnds(now);
    Quoted(limits, db.tasks[t].env, channel, usd, Projected(db, t, usd, now))
  }

  function NonPaid(db: Db, t: string, channel: Channel, q: Quote, at: string): Result<(Db, Authorization)> {
    if q.usd != 0 then Err(ValueError)
    else
      var noted := Repositories.AppendNote(db, t, NonPaidAuthorized(channel.id), at, None);
      if noted.Err? then Err(noted.error)
      else Ok((noted.value, Authorization(ALLOW, 0, q.taskUsd, q.dailyUsd, q.monthlyUsd, [], [], None)))
  }

  function Block(db: Db, t: string, q: Quote, at: string, id: string): Result<(Db, Authorization)>
    requires t in db.tasks
  {
    if !Allowed(db.tasks[t].status, WAITING_APPROVAL) then Err(BudgetState)
    else
      var asked := Repositories.RequestApproval(db, id, Request(t, q, at));
      if asked.Err? then Err(asked.error)
      else Ok((asked.value, Answer(q, BLOCK_PENDING_APPROVAL, Some(id))))
  }

  function Request(t: string, q: Quote, at: string): Approval {
    Approval(t, "EXCEED_API_HARD_LIMIT", "Projected API spend exceeds one or more configured hard limits",
             q, PENDING, at, None, None)
  }

  function Pass(db: Db, t: string, q: Quote, at: string): Result<(Db, Authorization)> {
    var noted := Repositories.AppendNote(db, t, BudgetAuthorized(q, q.warnings != []), at, None);
    if noted.Err? then Err(noted.error)
    else Ok((noted.value, Answer(q, if q.warnings != [] then ALLOW_WITH_WARNING else ALLOW, None)))
  }

  /** authorize: the new database and the answer, or the exception. `id` is the fresh approval id. */
  function Authorize(db: Db, limits: Limits, t: string, channel: Channel, usd: int, now: DateTime, id: string)
    : Result<(Db, Authorization)>
  {
    if usd < 0 then Err(ValueError)
    else if t !in db.tasks then Err(TaskNotFound)
    else if !HasWindows(now) then Err(ValueError)
    else
      var q := Quotation(db, limits, t, channel, usd, now);
      if !Paid(channel.class_) then NonPaid(db, t, channel, q, Iso(now))
      else if q.exceeded != [] then Block(db, t, q, Iso(now), id)
      else Pass(db, t, q, Iso(now))
  }

  /** record_cost. */
  function RecordCost(db: Db, t: string, a: Option<string>, channel: Channel, usd: int,
                      inTokens: Option<nat>, outTokens: Option<nat>, now: DateTime): Result<Db>
    requires IsDateTime(now)
  {
    if usd < 0 then Err(ValueError)
    else Repositories.RecordCost(db, Cost(t, a, channel.id, channel.billing, inTokens, outTokens, usd, Iso(now)))
  }

  predicate Permits(d: Decision) {
    d != BLOCK_PENDING_APPROVAL
  }

  lemma AuthorizeCases(db: Db, limits: Limits, t: string, channel: Channel, usd: int, now: DateTime, id: string)
    requires channel.class_ in {CHEAP_API, PREMIUM_API} && Authorize(db, limits, t, channel, usd, now, id).Ok?
    ensures usd >= 0 && t in db.tasks && HasWindows(now)
    ensures var q := Quotation(db, limits, t, channel, usd, now);
            var r := Authorize(db, limits, t, channel, usd, now, id);
            if q.exceeded != [] then r == Block(db, t, q, Iso(now), id) else r == Pass(db, t, q, Iso(now))
  {
  }

  /** The paid request stays inside every hard limit, counted in what the day and the month really cost. */
  ghost predicate WithinHardLimits(db: Db, limits: Limits, t: string, usd: int, now: DateTime)
    requires t in db.tasks
  {
    && TaskSpend(db.costs, t) + usd <= db.tasks[t].env.hardUsd
    && DaySpend(db.costs, now) + usd <= limits.dailyHard
    && MonthSpend(db.costs, now) + usd <= limits.monthlyHard
  }

  ghost predicate WithinSoftLimits(db: Db, limits: Limits, t: string, usd: int, now: DateTime)
    requires t in db.tasks
  {
    && TaskSpend(db.costs, t) + usd <= db.tasks[t].env.softUsd
    && DaySpend(db.costs, now) + usd <= limits.dailySoft
  }

  /**
    The engine's three-way answer: a paid request passes without approval exactly when no hard limit
    of the task, of now's calendar day or of now's month would be exceeded, and passes with a warning
    exactly when a soft one would be.
   */
  lemma AuthorizeMeaning(db: Db, limits: Limits, t: string, channel: Channel, usd: int, now: DateTime, id: string)
    requires Stamped(db.costs) && channel.class_ in {CHEAP_API, PREMIUM_API}
    requires Authorize(db, limits, t, channel, usd, now, id).Ok?
    ensures t in db.tasks && usd >= 0 && HasWindows(now)
    ensures var r := Authorize(db, limits, t, channel, usd, now, id).value;
            && (Permits(r.1.decision) <==> WithinHardLimits(db, limits, t, usd, now))
            && (r.1.decision == ALLOW_WITH_WARNING <==>
                  WithinHardLimits(db, limits, t, usd, now) && !WithinSoftLimits(db, limits, t, usd, now))
            && r.0.costs == db.costs
  {
    AuthorizeCases(db, limits, t, channel, usd, now, id);
    QuotationMeaning(db, limits, t, channel, usd, now);
    var q := Quotation(db, limits, t, channel, usd, now);
    if q.exceeded != [] {
      BlockMeaning(db, t, q, Iso(now), id);
    } else {
      PassMeaning(db, t, q, Iso(now));
    }
  }

  /** A refused request leaves the task WAITING_APPROVAL with the pending approval it names; a granted one leaves every table alone. */
  lemma AuthorizeEffects(db: Db, limits: Limits, t: string, channel: Channel, usd: int, now: DateTime, id: string)
    requires channel.class_ in {CHEAP_API, PREMIUM_API} && Authorize(db, limits, t, channel, usd, now, id).Ok?
    ensures var r := Authorize(db, limits, t, channel, usd, now, id).value;
            if Permits(r.1.decision) then r.0 == db.(log := r.0.log) && r.1.approval == None
            else
              && r.1.approval == Some(id) && id in r.0.approvals && r.0.approvals[id].status == PENDING
              && r.0.approvals[id].taskId == t && t in r.0.tasks && r.0.tasks[t].status == WAITING_APPROVAL
              && t in db.tasks && db.tasks[t].status == RUNNING
  {
    AuthorizeCases(db, limits, t, channel, usd, now, id);
    var q := Quotation(db, limits, t, channel, usd, now);
    if q.exceeded != [] {
      BlockMeaning(db, t, q, Iso(now), id);
    } else {
      PassMeaning(db, t, q, Iso(now));
    }
  }

  /** Nothing but zero is authorised on a channel that is not paid, and nothing but the log changes. */
  lemma UnpaidEffects(db: Db, limits: Limits, t: string, channel: Channel, usd: int, now: DateTime, id: string)
    requires channel.class_ in {SUBSCRIPTION, FREE_LOCAL}
    ensures Authorize(db, limits, t, channel, usd, now, id).Ok? ==>
              var r := Authorize(db, limits, t, channel, usd, now, id).value;
              usd == 0 && r.1.decision == ALLOW && r.0 == db.(log := r.0.log)
  {
    if t in db.tasks && HasWindows(now) {
      QuotesItsEstimate(db, limits, t, channel, usd, now);
    }
    hide Quotation, Iso;
  }

  lemma QuotesItsEstimate(db: Db, limits: Limits, t: string, channel: Channel, usd: int, now: DateTime)
    requires t in db.tasks && HasWindows(now)
    ensures Quotation(db, limits, t, channel, usd, now).usd == usd
  {
  }

  lemma QuotationMeaning(db: Db, limits: Limits, t: string, channel: Channel, usd: int, now: DateTime)
    requires Stamped(db.costs) && t in db.tasks && HasWindows(now)
    ensures var q := Quotation(db, limits, t, channel, usd, now);
            var env := db.tasks[t].env;
            && q.taskUsd == TaskSpend(db.costs, t) + usd
            && q.dailyUsd == DaySpend(db.costs, now) + usd
            && q.monthlyUsd == MonthSpend(db.costs, now) + usd
            && (q.exceeded == [] <==>
                  q.taskUsd <= env.hardUsd && q.dailyUsd <= limits.dailyHard && q.monthlyUsd <= limits.monthlyHard)
            && (q.warnings == [] <==> q.taskUsd <= env.softUsd && q.dailyUsd <= limits.dailySoft)
  {
    WindowsSumTheCalendar(db.costs, now);
    QuoteMeaning(limits, db.tasks[t].env, channel, usd, Projected(db, t, usd, now));
  }

  lemma QuoteMeaning(limits: Limits, env: Envelope, channel: Channel, usd: int, p: (int, int, int))
    ensures var q := Quoted(limits, env, channel, usd, p);
            && (q.exceeded == [] <==> p.0 <= env.hardUsd && p.1 <= limits.dailyHard && p.2 <= limits.monthlyHard)
            && (q.warnings == [] <==> p.0 <= env.softUsd && p.1 <= limits.dailySoft)
            && (q.taskUsd, q.dailyUsd, q.monthlyUsd) == p
  {
  }

  lemma PassMeaning(db: Db, t: string, q: Quote, at: string)
    requires t in db.tasks
    ensures Pass(db, t, q, at).Ok?
    ensures var r := Pass(db, t, q, at).value;
            && r.1 == Answer(q, if q.warnings != [] then ALLOW_WITH_WARNING else ALLOW, None)
            && r.0 == db.(log := r.0.log)
  {
  }

  lemma BlockMeaning(db: Db, t: string, q: Quote, at: string, id: string)
    requires t in db.tasks && Block(db, t, q, at, id).Ok?
    ensures var r := Block(db, t, q, at, id).value;
            && r.1 == Answer(q, BLOCK_PENDING_APPROVAL, Some(id)) && r.0.costs == db.costs
            && id in r.0.approvals && r.0.approvals[id].status == PENDING && r.0.approvals[id].taskId == t
            && t in r.0.tasks && r.0.tasks[t].status == WAITING_APPROVAL && db.tasks[t].status == RUNNING
  {
  }
}

/** The engine object over the shared database. */
module BudgetEngine {
  import opened Prelude
  import opened Records
  import opened StateMachine
  import opened Calendar
  import opened Timestamps
  import opened Spending
  import opened BudgetPolicy
  import Store

  /** The engine's answer and the new tables are the ones `spec` gives; an exception stores nothing. */
  predicate Answers(spec: Result<(Db, Authorization)>, before: Db, after: Db, r: Result<Authorization>) {
    match spec
    case Ok(p) => r == Ok(p.1) && after == p.0
    case Err(e) => r == Err(e) && after == before
  }

  class Engine {
    const store: Store.Database
    const limits: Limits

    constructor (store: Store.Database, limits: Limits)
      ensures this.store == store && this.limits == limits
    {
      this.store := store;
      this.limits := limits;
    }

    method Authorize(t: string, channel: Channel, usd: int, now: DateTime, id: string)
      returns (r: Result<Authorization>)
      modifies store
      ensures Answers(BudgetPolicy.Authorize(old(store.Contents()), limits, t, channel, usd, now, id),
                      old(store.Contents()), store.Contents(), r)
      ensures r.Ok? && channel.class_ in {CHEAP_API, PREMIUM_API} && Stamped(old(store.costs)) ==>
                && t in old(store.tasks)
                && (r.value.decision != BLOCK_PENDING_APPROVAL <==>
                      && TaskSpend(old(store.costs), t) + usd <= old(store.tasks)[t].env.hardUsd
                      && DaySpend(old(store.costs), now) + usd <= limits.dailyHard
                      && MonthSpend(old(store.costs), now) + usd <= limits.monthlyHard)
      ensures r.Ok? && channel.class_ in {SUBSCRIPTION, FREE_LOCAL} ==>
                usd == 0 && r.value.decision == ALLOW && store.tasks == old(store.tasks) && store.approvals == old(store.approvals)
    {
      hide TaskSpend, DaySpend, MonthSpend, Stamped, Quotation, BudgetPolicy.NonPaid, BudgetPolicy.Block, BudgetPolicy.Pass;
      ghost var spec := BudgetPolicy.Authorize(store.Contents(), limits, t, channel, usd, now, id);
      if channel.class_ in {SUBSCRIPTION, FREE_LOCAL} {
        UnpaidEffects(store.Contents(), limits, t, channel, usd, now, id);
      }
      if channel.class_ in {CHEAP_API, PREMIUM_API} && spec.Ok? && Stamped(store.costs) {
        AuthorizeMeaning(store.Contents(), limits, t, channel, usd, now, id);
      }
      if usd < 0 {
        return Err(ValueError);
      }
      if t !in store.tasks {
        return Err(TaskNotFound);
      }
      if !HasWindows(now) {
        return Err(ValueError);
      }
      var q := ReadSpend(t, channel, usd, now);
      if !Paid(channel.class_) {
        r := NonPaid(t, channel, q, Iso(now));
      } else if q.exceeded != [] {
        r := Block(t, q, Iso(now), id);
      } else {
        r := Pass(t, q, Iso(now));
      }
    }

    method ReadSpend(t: string, channel: Channel, usd: int, now: DateTime) returns (q: Quote)
      requires t in store.tasks && HasWindows(now)
      ensures q == Quotation(store.Contents(), limits, t, channel, usd, now)
    {
      WindowEnds(now);
      var taskUsd := TaskSpend(store.costs, t) + usd;
      var dailyUsd := DailySpend(store.costs, now) + usd;
      var monthlyUsd := MonthlySpend(store.costs, now) + usd;
      q := Quoted(limits, store.tasks[t].env, channel, usd, (taskUsd, dailyUsd, monthlyUsd));
    }

    method NonPaid(t: string, channel: Channel, q: Quote, at: string) returns (r: Result<Authorization>)
      modifies store
      ensures Answers(BudgetPolicy.NonPaid(old(store.Contents()), t, channel, q, at), old(store.Contents()), store.Contents(), r)
    {
      if q.usd != 0 {
        return Err(ValueError);
      }
      var raised := store.AppendNote(t, NonPaidAuthorized(channel.id), at, None);
      if raised.Some? {
        return Err(raised.value);
      }
      return Ok(Authorization(ALLOW, 0, q.taskUsd, q.dailyUsd, q.monthlyUsd, [], [], None));
    }

    method Block(t: string, q: Quote, at: string, id: string) returns (r: Result<Authorization>)
      requires t in store.tasks
      modifies store
      ensures Answers(BudgetPolicy.Block(old(store.Contents()), t, q, at, id), old(store.Contents()), store.Contents(), r)
    {
      if !Allowed(store.tasks[t].status, WAITING_APPROVAL) {
        return Err(BudgetState);
      }
      var raised := store.RequestApproval(id, Request(t, q, at));
      if raised.Some? {
        return Err(raised.value);
      }
      return Ok(Answer(q, BLOCK_PENDING_APPROVAL, Some(id)));
    }

    method Pass(t: string, q: Quote, at: string) returns (r: Result<Authorization>)
      modifies store
      ensures Answers(BudgetPolicy.Pass(old(store.Contents()), t, q, at), old(store.Contents()), store.Contents(), r)
    {
      var raised := store.AppendNote(t, BudgetAuthorized(q, q.warnings != []), at, None);
      if raised.Some? {
        return Err(raised.value);
      }
      return Ok(Answer(q, if q.warnings != [] then ALLOW_WITH_WARNING else ALLOW, None));
    }

    method RecordCost(t: string, a: Option<string>, channel: Channel, usd: int,
                      inTokens: Option<nat>, outTokens: Option<nat>, now: DateTime) returns (raised: Option<Error>)
      requires IsDateTime(now)
      modifies store
      ensures Store.Commits(old(store.Contents()),
                            BudgetPolicy.RecordCost(old(store.Contents()), t, a, channel, usd, inTokens, outTokens, now),
                            store.Contents(), raised)
    {
      if usd < 0 {
        return Some(ValueError);
      }
      raised := store.RecordCost(Cost(t, a, channel.id, channel.billing, inTokens, outTokens, usd, Iso(now)));
    }
  }
}
