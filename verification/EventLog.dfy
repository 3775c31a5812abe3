/**
  The audit log as an event source: what folding task_events alone gives back, and the status
  histories it records.
 */
module EventLog {
  import opened Prelude
  import opened Records
  import opened StateMachine
  import opened Repositories

  // What the log determines of each row. The envelope, the failure message, artifact sizes and
  // the quality score of a metric never enter an event payload.
  datatype TaskView = TaskView(status: Status, worker: Option<string>, channel: Option<string>,
                               current: Option<string>, checkpoint: Option<Uri>, updatedAt: string)
  datatype AttemptView = AttemptView(taskId: string, no: int, worker: string, channel: Option<string>,
                                     status: Status, failure: Option<FailureType>,
                                     startedAt: Option<string>, endedAt: Option<string>, generation: int)
  datatype ArtifactView = ArtifactView(id: string, taskId: string, attempt: Option<string>, kind: string,
                                       uri: Uri, sha: Option<Hash>, createdAt: string)
  datatype MetricView = MetricView(taskId: string, measures: Measures, createdAt: string)

  datatype View = View(tasks: map<string, TaskView>, attempts: map<string, AttemptView>,
                       artifacts: seq<ArtifactView>, costs: seq<Cost>,
                       approvals: map<string, Approval>, metrics: map<string, MetricView>)

  function ViewTask(r: Task): TaskView {
    TaskView(r.status, r.worker, r.channel, r.current, r.checkpoint, r.updatedAt)
  }

  function ViewAttempt(r: Attempt): AttemptView {
    AttemptView(r.taskId, r.no, r.worker, r.channel, r.status, r.failure, r.startedAt, r.endedAt, r.generation)
  }

  function ViewArtifact(r: Artifact): ArtifactView {
    ArtifactView(r.id, r.taskId, r.attempt, r.kind, r.uri, r.sha, r.createdAt)
  }

  function ViewMetric(r: Metric): MetricView {
    MetricView(r.taskId, r.measures, r.createdAt)
  }

  /** The tables with everything dropped that no event records. */
  function ViewOf(db: Db): View {
    View(map t | t in db.tasks :: ViewTask(db.tasks[t]),
         map a | a in db.attempts :: ViewAttempt(db.attempts[a]),
         seq(|db.artifacts|, i requires 0 <= i < |db.artifacts| => ViewArtifact(db.artifacts[i])),
         db.costs,
         db.approvals,
         map m | m in db.metrics :: ViewMetric(db.metrics[m]))
  }

  function SetStatus(v: View, t: string, to: Status, at: string): View {
    if t in v.tasks then v.(tasks := v.tasks[t := v.tasks[t].(status := to, updatedAt := at)]) else v
  }

  function SetAttempt(v: View, a: string, to: Status, failure: Option<FailureType>, at: string): View {
    if a !in v.attempts then v else
      var r := v.attempts[a];
      v.(attempts := v.attempts[a := r.(
        status := to, failure := failure,
        startedAt := if to == RUNNING && r.startedAt.None? then Some(at) else r.startedAt,
        endedAt := if to in TERMINAL then Some(at) else r.endedAt)])
  }

  /** The effect of one log row on the reconstructed tables. */
  function Step(v: View, row: EventRow): View {
    var t, at := row.taskId, row.at;
    match row.event
    case TaskCreated => v.(tasks := v.tasks[t := TaskView(CREATED, None, None, None, None, at)])
    case TaskStatusChanged(_, to) => SetStatus(v, t, to, at)
    case AttemptCreated(no, generation, worker, channel) =>
      if t in v.tasks && row.attempt.Some? then
        v.(attempts := v.attempts[row.attempt.value :=
             AttemptView(t, no, worker, channel, ASSIGNED, None, None, None, generation)],
           tasks := v.tasks[t := v.tasks[t].(worker := Some(worker), channel := channel,
                                             current := row.attempt, updatedAt := at)])
      else v
    case AttemptStatusChanged(_, to, _, failure) =>
      if row.attempt.Some? then SetAttempt(v, row.attempt.value, to, failure, at) else v
    case ArtifactRegistered(id, kind, uri, sha, latest) =>
      var w := v.(artifacts := v.artifacts + [ArtifactView(id, t, row.attempt, kind, uri, sha, at)]);
      if latest && t in v.tasks
      then w.(tasks := v.tasks[t := v.tasks[t].(checkpoint := Some(uri), updatedAt := at)]) else w
    case CostRecorded(_, channel, billing, usd, inTokens, outTokens) =>
      v.(costs := v.costs + [Cost(t, row.attempt, channel, billing, inTokens, outTokens, usd, at)])
    case MetricsRecorded(id, measures) =>
      v.(metrics := v.metrics[id := MetricView(t, measures, at)])
    case ApprovalRequested(id, action, reason, payload) =>
      v.(approvals := v.approvals[id := Approval(t, action, reason, payload, PENDING, at, None, None)])
    case ApprovalDecided(id, verdict, decider) =>
      if id in v.approvals
      then v.(approvals := v.approvals[id := v.approvals[id].(status := verdict, decidedAt := Some(at), decidedBy := Some(decider))])
      else v
    case Noted(_) => v
  }

  /** The tables reconstructed from the log alone. */
  function Replay(log: seq<EventRow>): View {
    if log == [] then ViewOf(EMPTY) else Step(Replay(log[..|log| - 1]), log[|log| - 1])
  }

  /** The statuses a task took, oldest first. */
  function TaskHistory(log: seq<EventRow>, t: string): seq<Status> {
    if log == [] then [] else
      var h := TaskHistory(log[..|log| - 1], t);
      var row := log[|log| - 1];
      if row.taskId != t then h
      else match row.event
        case TaskCreated => h + [CREATED]
        case TaskStatusChanged(_, to) => h + [to]
        case _ => h
  }

  /** The statuses an attempt took, oldest first. */
  function AttemptHistory(log: seq<EventRow>, a: string): seq<Status> {
    if log == [] then [] else
      var h := AttemptHistory(log[..|log| - 1], a);
      var row := log[|log| - 1];
      if row.attempt != Some(a) then h
      else match row.event
        case AttemptCreated(_, _, _, _) => h + [ASSIGNED]
        case AttemptStatusChanged(_, to, _, _) => h + [to]
        case _ => h
  }

  predicate EndsIn(h: seq<Status>, s: Status) {
    |h| > 0 && h[|h| - 1] == s
  }

  /** The `from` of a status event is the `to` of the one before it. */
  ghost predicate LinkedAt(log: seq<EventRow>, i: nat)
    requires i < |log|
  {
    match log[i].event
    case TaskStatusChanged(from, _) => EndsIn(TaskHistory(log[..i], log[i].taskId), from)
    case AttemptStatusChanged(from, _, _, _) =>
      log[i].attempt.Some? && EndsIn(AttemptHistory(log[..i], log[i].attempt.value), from)
    case _ => true
  }

  ghost predicate Linked(log: seq<EventRow>) {
    forall i :: 0 <= i < |log| ==> LinkedAt(log, i)
  }

  /** The histories of the log end in the stored statuses. */
  ghost predicate HistoriesEnd(db: Db) {
    && (forall t :: t in db.tasks ==> EndsIn(TaskHistory(db.log, t), db.tasks[t].status))
    && (forall t :: t !in db.tasks ==> TaskHistory(db.log, t) == [])
    && (forall a :: a in db.attempts ==> EndsIn(AttemptHistory(db.log, a), db.attempts[a].status))
    && (forall a :: a !in db.attempts ==> AttemptHistory(db.log, a) == [])
  }

  /** The log says everything: it rebuilds the tables and its histories end in the stored statuses. */
  ghost predicate Faithful(db: Db) {
    && Replay(db.log) == ViewOf(db)
    && HistoriesEnd(db)
    && Linked(db.log)
  }

  /** What one row adds to the history of task t, or of attempt a. */
  function TaskStep(row: EventRow, t: string): seq<Status> {
    if row.taskId != t then []
    else match row.event
      case TaskCreated => [CREATED]
      case TaskStatusChanged(_, to) => [to]
      case _ => []
  }

  function AttemptStep(row: EventRow, a: string): seq<Status> {
    if row.attempt != Some(a) then []
    else match row.event
      case AttemptCreated(_, _, _, _) => [ASSIGNED]
      case AttemptStatusChanged(_, to, _, _) => [to]
      case _ => []
  }

  lemma GrowReplay(log: seq<EventRow>, row: EventRow)
    ensures Replay(log + [row]) == Step(Replay(log), row)
  {
    assert (log + [row])[..|log|] == log;
  }

  lemma GrowTaskHistory(log: seq<EventRow>, row: EventRow, t: string)
    ensures TaskHistory(log + [row], t) == TaskHistory(log, t) + TaskStep(row, t)
  {
    assert (log + [row])[..|log|] == log;
  }

  lemma GrowAttemptHistory(log: seq<EventRow>, row: EventRow, a: string)
    ensures AttemptHistory(log + [row], a) == AttemptHistory(log, a) + AttemptStep(row, a)
  {
    assert (log + [row])[..|log|] == log;
  }

  lemma GrowLinked(log: seq<EventRow>, row: EventRow)
    requires Linked(log)
    requires match row.event
             case TaskStatusChanged(from, _) => EndsIn(TaskHistory(log, row.taskId), from)
             case AttemptStatusChanged(from, _, _, _) =>
               row.attempt.Some? && EndsIn(AttemptHistory(log, row.attempt.value), from)
             case _ => true
    ensures Linked(log + [row])
  {
    var more := log + [row];
    forall i | 0 <= i < |more| ensures LinkedAt(more, i) {
      if i < |log| {
        assert LinkedAt(log, i);
        assert more[..i] == log[..i];
      } else {
        assert more[..i] == log;
      }
    }
  }

  /** Between db and d exactly the tasks and attempts the row speaks of took the status it gives. */
  ghost predicate Follows(db: Db, row: EventRow, d: Db) {
    && (forall t :: TaskStep(row, t) != [] ==> t in d.tasks && TaskStep(row, t) == [d.tasks[t].status])
    && (forall t :: TaskStep(row, t) == [] ==>
          (t in d.tasks <==> t in db.tasks) && (t in db.tasks ==> d.tasks[t].status == db.tasks[t].status))
    && (forall a :: AttemptStep(row, a) != [] ==> a in d.attempts && AttemptStep(row, a) == [d.attempts[a].status])
    && (forall a :: AttemptStep(row, a) == [] ==>
          (a in d.attempts <==> a in db.attempts) && (a in db.attempts ==> d.attempts[a].status == db.attempts[a].status))
    && match row.event
       case TaskStatusChanged(from, _) => row.taskId in db.tasks && db.tasks[row.taskId].status == from
       case AttemptStatusChanged(from, _, _, _) =>
         row.attempt.Some? && row.attempt.value in db.attempts && db.attempts[row.attempt.value].status == from
       case _ => true
  }

  lemma TaskHistoryRow(db: Db, row: EventRow, d: Db, t: string)
    requires HistoriesEnd(db) && d.log == db.log + [row] && Follows(db, row, d)
    ensures t in d.tasks ==> EndsIn(TaskHistory(d.log, t), d.tasks[t].status)
    ensures t !in d.tasks ==> TaskHistory(d.log, t) == []
  {
    hide TaskHistory;
    GrowTaskHistory(db.log, row, t);
  }

  lemma AttemptHistoryRow(db: Db, row: EventRow, d: Db, a: string)
    requires HistoriesEnd(db) && d.log == db.log + [row] && Follows(db, row, d)
    ensures a in d.attempts ==> EndsIn(AttemptHistory(d.log, a), d.attempts[a].status)
    ensures a !in d.attempts ==> AttemptHistory(d.log, a) == []
  {
    hide AttemptHistory;
    GrowAttemptHistory(db.log, row, a);
  }

  lemma LinkedRow(db: Db, row: EventRow, d: Db)
    requires HistoriesEnd(db) && Linked(db.log) && d.log == db.log + [row] && Follows(db, row, d)
    ensures Linked(d.log)
  {
    hide Linked, TaskHistory, AttemptHistory;
    GrowLinked(db.log, row);
  }

  lemma HistoriesRow(db: Db, row: EventRow, d: Db)
    requires HistoriesEnd(db) && Linked(db.log) && d.log == db.log + [row]
    requires Follows(db, row, d)
    ensures HistoriesEnd(d) && Linked(d.log)
  {
    LinkedRow(db, row, d);
    hide Linked, TaskHistory, AttemptHistory, Follows;
    forall t
      ensures t in d.tasks ==> EndsIn(TaskHistory(d.log, t), d.tasks[t].status)
      ensures t !in d.tasks ==> TaskHistory(d.log, t) == []
    {
      TaskHistoryRow(db, row, d, t);
    }
    forall a
      ensures a in d.attempts ==> EndsIn(AttemptHistory(d.log, a), d.attempts[a].status)
      ensures a !in d.attempts ==> AttemptHistory(d.log, a) == []
    {
      AttemptHistoryRow(db, row, d, a);
    }
  }

  lemma FaithfulRow(db: Db, row: EventRow, d: Db)
    requires Faithful(db) && d.log == db.log + [row]
    requires Follows(db, row, d)
    requires ViewOf(d) == Step(ViewOf(db), row)
    ensures Faithful(d)
  {
    HistoriesRow(db, row, d);
    GrowReplay(db.log, row);
  }

  // A changed row of a table changes one row of its view.
  lemma ViewTasksUpdate(db: Db, t: string, r: Task, d: Db)
    requires d.tasks == db.tasks[t := r]
    ensures ViewOf(d).tasks == ViewOf(db).tasks[t := ViewTask(r)]
  {
  }

  lemma ViewAttemptsUpdate(db: Db, a: string, r: Attempt, d: Db)
    requires d.attempts == db.attempts[a := r]
    ensures ViewOf(d).attempts == ViewOf(db).attempts[a := ViewAttempt(r)]
  {
  }

  lemma ViewMetricsUpdate(db: Db, m: string, r: Metric, d: Db)
    requires d.metrics == db.metrics[m := r]
    ensures ViewOf(d).metrics == ViewOf(db).metrics[m := ViewMetric(r)]
  {
  }

  /** No repository call, whatever its arguments, makes the log and the tables disagree. */
  lemma FaithfulAfter(db: Db, x: Txn)
    requires Faithful(db)
    ensures Faithful(After(db, x))
  {
    if Run(db, x).Ok? {
      match x
      case TxCreateTask(_, _) => FaithfulCreateTask(db, x);
      case TxTransition(_, _, _, _, _, _) => FaithfulTransition(db, x);
      case TxCreateAttempt(_, _, _, _, _, _) => FaithfulCreateAttempt(db, x);
      case TxTransitionAttempt(_, _, _, _, _, _, _, _) => FaithfulTransitionAttempt(db, x);
      case TxAppendNote(_, _, _, _) => FaithfulPlain(db, x);
      case TxRegisterArtifact(_, _) => FaithfulRegister(db, x);
      case TxRecordCost(_) => FaithfulPlain(db, x);
      case TxRecordMetric(_, _, _) => FaithfulMetric(db, x);
      case TxRequestApproval(_, _) => FaithfulRequest(db, x);
      case TxDecideApproval(_, _, _, _) => FaithfulDecide(db, x);
    }
  }

  lemma FaithfulCreateTask(db: Db, x: Txn)
    requires Faithful(db) && x.TxCreateTask? && Run(db, x).Ok?
    ensures Faithful(After(db, x))
  {
    hide Replay, HistoriesEnd, Linked;
    var d := After(db, x);
    var t := x.env.taskId;
    var row := EventRow(t, None, TaskCreated, x.at);
    ViewTasksUpdate(db, t, d.tasks[t], d);
    assert Follows(db, row, d);
    FaithfulRow(db, row, d);
  }

  lemma FaithfulTransition(db: Db, x: Txn)
    requires Faithful(db) && x.TxTransition? && Run(db, x).Ok?
    ensures Faithful(After(db, x))
  {
    hide Replay, HistoriesEnd, Linked;
    var d := After(db, x);
    var row := EventRow(x.t, x.att, TaskStatusChanged(x.expected, x.target), x.at);
    ViewTasksUpdate(db, x.t, d.tasks[x.t], d);
    assert Follows(db, row, d);
    FaithfulRow(db, row, d);
  }

  lemma FaithfulCreateAttempt(db: Db, x: Txn)
    requires Faithful(db) && x.TxCreateAttempt? && Run(db, x).Ok?
    ensures Faithful(After(db, x))
  {
    hide Faithful, MaxOrZero, AttemptNumbers, Generations;
    var d := After(db, x);
    var r := d.attempts[x.a];
    AttemptAdded(db, x.t, x.a, r, EventRow(x.t, Some(x.a), AttemptCreated(r.no, r.generation, x.worker, x.channel), x.at), d);
  }

  lemma AttemptAdded(db: Db, t: string, a: string, r: Attempt, row: EventRow, d: Db)
    requires Faithful(db) && t in db.tasks && a !in db.attempts && r.taskId == t
    requires r == Attempt(t, r.no, r.worker, r.channel, ASSIGNED, None, None, None, None, r.generation)
    requires row == EventRow(t, Some(a), AttemptCreated(r.no, r.generation, r.worker, r.channel), row.at)
    requires d == db.(attempts := db.attempts[a := r], log := db.log + [row],
                      tasks := db.tasks[t := db.tasks[t].(worker := Some(r.worker), channel := r.channel,
                                                          current := Some(a), updatedAt := row.at)])
    ensures Faithful(d)
  {
    hide Replay, HistoriesEnd, Linked;
    ViewTasksUpdate(db, t, d.tasks[t], d);
    ViewAttemptsUpdate(db, a, r, d);
    assert Follows(db, row, d);
    FaithfulRow(db, row, d);
  }

  lemma FaithfulTransitionAttempt(db: Db, x: Txn)
    requires Faithful(db) && x.TxTransitionAttempt? && Run(db, x).Ok?
    ensures Faithful(After(db, x))
  {
    hide Replay, HistoriesEnd, Linked;
    var d := After(db, x);
    var row := EventRow(x.t, Some(x.a), AttemptStatusChanged(x.expected, x.target, x.g, x.failure), x.at);
    ViewAttemptsUpdate(db, x.a, d.attempts[x.a], d);
    assert Follows(db, row, d);
    FaithfulRow(db, row, d);
  }

  lemma FaithfulPlain(db: Db, x: Txn)
    requires Faithful(db) && (x.TxAppendNote? || x.TxRecordCost?) && Run(db, x).Ok?
    ensures Faithful(After(db, x))
  {
    hide Replay, HistoriesEnd, Linked;
    var d := After(db, x);
    FaithfulRow(db, d.log[|db.log|], d);
  }

  lemma FaithfulRegister(db: Db, x: Txn)
    requires Faithful(db) && x.TxRegisterArtifact? && Run(db, x).Ok?
    ensures Faithful(After(db, x))
  {
    hide Replay, HistoriesEnd, Linked;
    var d := After(db, x);
    var r := x.artifact;
    var row := EventRow(r.taskId, r.attempt, ArtifactRegistered(r.id, r.kind, r.uri, r.sha, x.latest), r.createdAt);
    assert ViewOf(d).artifacts == ViewOf(db).artifacts + [ViewArtifact(r)];
    ViewTasksUpdate(db, r.taskId, d.tasks[r.taskId], d);
    assert Follows(db, row, d);
    FaithfulRow(db, row, d);
  }

  lemma FaithfulMetric(db: Db, x: Txn)
    requires Faithful(db) && x.TxRecordMetric? && Run(db, x).Ok?
    ensures Faithful(After(db, x))
  {
    hide Replay, HistoriesEnd, Linked;
    var d := After(db, x);
    ViewMetricsUpdate(db, x.id, x.metric, d);
    FaithfulRow(db, d.log[|db.log|], d);
  }

  lemma FaithfulRequest(db: Db, x: Txn)
    requires Faithful(db) && x.TxRequestApproval? && Run(db, x).Ok?
    ensures Faithful(After(db, x))
  {
    hide Replay, HistoriesEnd, Linked;
    var d := After(db, x);
    var t, at := x.approval.taskId, x.approval.requestedAt;
    var r1 := EventRow(t, None, ApprovalRequested(x.id, x.approval.action, x.approval.reason, x.approval.payload), at);
    var mid := d.(tasks := db.tasks, log := db.log + [r1]);
    FaithfulRow(db, r1, mid);
    FaithfulTransition(mid, TxTransition(t, RUNNING, WAITING_APPROVAL, at, None, None));
  }

  lemma FaithfulDecide(db: Db, x: Txn)
    requires Faithful(db) && x.TxDecideApproval? && Run(db, x).Ok?
    ensures Faithful(After(db, x))
  {
    hide Replay, HistoriesEnd, Linked;
    var d := After(db, x);
    var t := db.approvals[x.id].taskId;
    var mid := db;
    if db.tasks[t].status == WAITING_APPROVAL {
      var move := TxTransition(t, WAITING_APPROVAL, Verdict(x.verdict), x.at, None, None);
      mid := After(db, move);
      FaithfulTransition(db, move);
    }
    FaithfulVerdict(mid, t, x, d);
  }

  lemma FaithfulVerdict(mid: Db, t: string, x: Txn, d: Db)
    requires Faithful(mid) && x.TxDecideApproval? && x.id in mid.approvals
    requires d == Logged(mid.(approvals := mid.approvals[x.id := mid.approvals[x.id].(
                           status := x.verdict, decidedAt := Some(x.at), decidedBy := Some(x.decidedBy))]),
                         t, None, ApprovalDecided(x.id, x.verdict, x.decidedBy), x.at)
    ensures Faithful(d)
  {
    hide Replay, HistoriesEnd, Linked;
    FaithfulRow(mid, EventRow(t, None, ApprovalDecided(x.id, x.verdict, x.decidedBy), x.at), d);
  }

  /**
    The log is a complete event source. Whatever sequence of repository calls ran, folding
    task_events rebuilds every table, and each status event starts where the previous one ended.
   */
  lemma {:induction false} LogIsEventSource(xs: seq<Txn>)
    ensures Replay(Exec(EMPTY, xs).log) == ViewOf(Exec(EMPTY, xs))
    ensures Linked(Exec(EMPTY, xs).log)
    ensures Faithful(Exec(EMPTY, xs))
  {
    if xs != [] {
      LogIsEventSource(xs[..|xs| - 1]);
      FaithfulAfter(Exec(EMPTY, xs[..|xs| - 1]), xs[|xs| - 1]);
    }
  }

  lemma AppendsRows(db: Db, x: Txn)
    ensures db.log <= After(db, x).log
  {
    var d := After(db, x);
    assert d.log[..|db.log|] == db.log;
  }

  /** The log only grows: committing never rewrites or drops a row. */
  lemma {:induction false} LogIsAppendOnly(db: Db, xs: seq<Txn>)
    ensures db.log <= Exec(db, xs).log
  {
    if xs != [] {
      LogIsAppendOnly(db, xs[..|xs| - 1]);
      AppendsRows(Exec(db, xs[..|xs| - 1]), xs[|xs| - 1]);
    }
  }

  /** Two databases reached in any way with the same log hold the same recorded facts. */
  lemma SameLogSameTables(xs: seq<Txn>, ys: seq<Txn>)
    requires Exec(EMPTY, xs).log == Exec(EMPTY, ys).log
    ensures ViewOf(Exec(EMPTY, xs)) == ViewOf(Exec(EMPTY, ys))
  {
    LogIsEventSource(xs);
    LogIsEventSource(ys);
  }

  /** The event carries the number of its row in cost_events, and what that row holds. */
  predicate CostEventFits(costs: seq<Cost>, row: EventRow) {
    match row.event
    case CostRecorded(n, channel, billing, usd, inTokens, outTokens) =>
      1 <= n <= |costs| && costs[n - 1] == Cost(row.taskId, row.attempt, channel, billing, inTokens, outTokens, usd, row.at)
    case _ => true
  }

  ghost predicate CostEventsFit(db: Db) {
    forall i :: 0 <= i < |db.log| ==> CostEventFits(db.costs, db.log[i])
  }

  lemma CostEventsAfter(db: Db, x: Txn)
    requires CostEventsFit(db)
    ensures db.costs <= After(db, x).costs && CostEventsFit(After(db, x))
  {
    var d := After(db, x);
    assert d.costs[..|db.costs|] == db.costs;
    assert d.log[..|db.log|] == db.log;
  }

  /** After any sequence of calls, every cost event names the row it belongs to and agrees with it. */
  lemma {:induction false} CostEventsNameTheirRows(xs: seq<Txn>)
    ensures CostEventsFit(Exec(EMPTY, xs))
  {
    if xs != [] {
      CostEventsNameTheirRows(xs[..|xs| - 1]);
      CostEventsAfter(Exec(EMPTY, xs[..|xs| - 1]), xs[|xs| - 1]);
    }
  }
}
