/**
  Each SQL transaction of state/repositories.py as a function on the whole database.
  An `Err` is an exception: the transaction is rolled back and nothing is stored.
 */
module Repositories {
  import opened Prelude
  import opened Records
  import opened StateMachine

  /** SELECT COALESCE(MAX(x), 0). */
  function MaxOrZero(s: set<int>): (m: int)
    ensures s == {} ==> m == 0
    ensures s != {} ==> m in s && forall x :: x in s ==> x <= m
  {
    if s == {} then 0 else
      HasMaximum(s);
      var m :| m in s && forall x :: x in s ==> x <= m;
      m
  }

  lemma {:induction false} HasMaximum(s: set<int>)
    requires s != {}
    ensures exists m :: m in s && forall x :: x in s ==> x <= m
  {
    assert (forall y: int :: y !in s) ==> s == {};
    var x: int :| x in s;
    if s != {x} {
      var rest := s - {x};
      HasMaximum(rest);
      var m :| m in rest && forall y :: y in rest ==> y <= m;
      assert forall y :: y in s ==> y == x || y in rest;
      assert Max(m, x) in s && forall y :: y in s ==> y <= Max(m, x);
    } else {
      assert x in s && forall y :: y in s ==> y <= x;
    }
  }

  function AttemptNumbers(attempts: map<string, Attempt>, t: string): set<int> {
    set a | a in attempts && attempts[a].taskId == t :: attempts[a].no
  }

  function Generations(attempts: map<string, Attempt>, t: string): set<int> {
    set a | a in attempts && attempts[a].taskId == t :: attempts[a].generation
  }

  /** _append_event. */
  function Logged(db: Db, t: string, a: Option<string>, e: Event, at: string): Db {
    db.(log := db.log + [EventRow(t, a, e, at)])
  }

  /** validate_task_attempt_refs, as the error it raises. */
  function RefError(tasks: map<string, Task>, attempts: map<string, Attempt>, t: string, a: Option<string>): Option<Error> {
    if t !in tasks then Some(TaskNotFound)
    else if a.None? then None
    else if a.value !in attempts then Some(AttemptNotFound)
    else if attempts[a.value].taskId != t then Some(StateConflict)
    else None
  }

  function CreateTask(db: Db, env: Envelope, at: string): Result<Db> {
    var t := env.taskId;
    if t in db.tasks then Err(DuplicateRecord)
    else
      Ok(Logged(db.(tasks := db.tasks[t := Task(env, CREATED, None, None, None, None, at)]),
                t, None, TaskCreated, at))
  }

  /** The EXISTS clause of a fenced status update; a missing generation compares as NULL. */
  predicate FenceHolds(db: Db, t: string, a: string, generation: Option<int>)
    requires t in db.tasks
  {
    && db.tasks[t].current == Some(a)
    && a in db.attempts && db.attempts[a].taskId == t
    && generation == Some(db.attempts[a].generation)
  }

  function Transition(db: Db, t: string, expected: Status, target: Status, at: string,
                      a: Option<string>, generation: Option<int>): Result<Db> {
    if t !in db.tasks then Err(TaskNotFound)
    else if db.tasks[t].status != expected || (a.Some? && !FenceHolds(db, t, a.value, generation)) then
      Err(StateConflict)
    else
      Ok(Logged(db.(tasks := db.tasks[t := db.tasks[t].(status := target, updatedAt := at)]),
                t, a, TaskStatusChanged(expected, target), at))
  }

  function CreateAttempt(db: Db, t: string, a: string, worker: string, channel: Option<string>,
                         at: string, generation: Option<int>): Result<Db> {
    if t !in db.tasks then Err(TaskNotFound)
    else
      var no := MaxOrZero(AttemptNumbers(db.attempts, t)) + 1;
      var required := MaxOrZero(Generations(db.attempts, t)) + 1;
      if generation.Some? && generation.value != required then Err(InvalidGeneration)
      else if a in db.attempts then Err(DuplicateRecord)
      else
        var row := Attempt(t, no, worker, channel, ASSIGNED, None, None, None, None, required);
        var task := db.tasks[t].(worker := Some(worker), channel := channel, current := Some(a), updatedAt := at);
        Ok(Logged(db.(attempts := db.attempts[a := row], tasks := db.tasks[t := task]),
                  t, Some(a), AttemptCreated(no, required, worker, channel), at))
  }

  /** The row an attempt update leaves: the CASE expressions of the UPDATE. */
  function Moved(row: Attempt, target: Status, at: string,
                 failure: Option<FailureType>, message: Option<string>): Attempt {
    row.(status := target,
         startedAt := if target == RUNNING && row.startedAt.None? then Some(at) else row.startedAt,
         endedAt := if target in TERMINAL then Some(at) else row.endedAt,
         failure := failure, message := message)
  }

  predicate AttemptFenceHolds(db: Db, t: string, a: string, generation: int) {
    && a in db.attempts && db.attempts[a].taskId == t && db.attempts[a].generation == generation
    && t in db.tasks && db.tasks[t].current == Some(a)
  }

  function TransitionAttempt(db: Db, t: string, a: string, generation: int, expected: Status, target: Status,
                             at: string, failure: Option<FailureType>, message: Option<string>): Result<Db> {
    if a !in db.attempts then Err(AttemptNotFound)
    else if !AttemptFenceHolds(db, t, a, generation) || db.attempts[a].status != expected then Err(StateConflict)
    else
      Ok(Logged(db.(attempts := db.attempts[a := Moved(db.attempts[a], target, at, failure, message)]),
                t, Some(a), AttemptStatusChanged(expected, target, generation, failure), at))
  }

  /** EventRepository.append. */
  function AppendNote(db: Db, t: string, note: Note, at: string, a: Option<string>): Result<Db> {
    var e := RefError(db.tasks, db.attempts, t, a);
    if e.Some? then Err(e.value) else Ok(Logged(db, t, a, Noted(note), at))
  }

  function RegisterArtifact(db: Db, artifact: Artifact, latest: bool): Result<Db> {
    var t := artifact.taskId;
    var e := RefError(db.tasks, db.attempts, t, artifact.attempt);
    if e.Some? then Err(e.value)
    else if exists i :: 0 <= i < |db.artifacts| && db.artifacts[i].id == artifact.id then Err(DuplicateRecord)
    else
      var tasks := if latest
                   then db.tasks[t := db.tasks[t].(checkpoint := Some(artifact.uri), updatedAt := artifact.createdAt)]
                   else db.tasks;
      Ok(Logged(db.(artifacts := db.artifacts + [artifact], tasks := tasks), t, artifact.attempt,
                ArtifactRegistered(artifact.id, artifact.kind, artifact.uri, artifact.sha, latest), artifact.createdAt))
  }

  function RecordCost(db: Db, cost: Cost): Result<Db> {
    var e := RefError(db.tasks, db.attempts, cost.taskId, cost.attempt);
    if e.Some? then Err(e.value)
    else
      Ok(Logged(db.(costs := db.costs + [cost]), cost.taskId, cost.attempt,
                CostRecorded(|db.costs| + 1, cost.channel, cost.billing, cost.usd, cost.inputTokens, cost.outputTokens),
                cost.createdAt))
  }

  function RecordMetric(db: Db, id: string, metric: Metric, a: Option<string>): Result<Db> {
    var e := RefError(db.tasks, db.attempts, metric.taskId, a);
    if e.Some? then Err(e.value)
    else if id in db.metrics then Err(DuplicateRecord)
    else
      Ok(Logged(db.(metrics := db.metrics[id := metric]), metric.taskId, a,
                MetricsRecorded(id, metric.measures), metric.createdAt))
  }

  /** ApprovalRepository.request_and_wait. */
  function RequestApproval(db: Db, id: string, approval: Approval): Result<Db> {
    var t := approval.taskId;
    var at := approval.requestedAt;
    if approval.status != PENDING then Err(ValueError)
    else if t !in db.tasks then Err(TaskNotFound)
    else if db.tasks[t].status != RUNNING then Err(StateConflict)
    else if id in db.approvals then Err(DuplicateRecord)
    else
      var stored := approval.(decidedAt := None, decidedBy := None);
      var requested := Logged(db.(approvals := db.approvals[id := stored]), t, None,
                              ApprovalRequested(id, approval.action, approval.reason, approval.payload), at);
      Ok(Logged(requested.(tasks := db.tasks[t := db.tasks[t].(status := WAITING_APPROVAL, updatedAt := at)]),
                t, None, TaskStatusChanged(RUNNING, WAITING_APPROVAL), at))
  }

  function Verdict(status: ApprovalStatus): Status {
    if status == APPROVED then RUNNING else FAILED
  }

  /** ApprovalRepository.decide. */
  function DecideApproval(db: Db, id: string, status: ApprovalStatus, decidedBy: string, at: string): Result<Db> {
    if status == PENDING || decidedBy == "" then Err(ValueError)
    else if id !in db.approvals then Err(TaskNotFound)
    else if db.approvals[id].status != PENDING then Err(StateConflict)
    else
      var t := db.approvals[id].taskId;
      var decided := db.approvals[id].(status := status, decidedAt := Some(at), decidedBy := Some(decidedBy));
      var d := db.(approvals := db.approvals[id := decided]);
      if t !in db.tasks then Err(TaskNotFound)
      else
        var resumed :=
          if db.tasks[t].status == WAITING_APPROVAL
          then Logged(d.(tasks := db.tasks[t := db.tasks[t].(status := Verdict(status), updatedAt := at)]),
                      t, None, TaskStatusChanged(WAITING_APPROVAL, Verdict(status)), at)
          else d;
        Ok(Logged(resumed, t, None, ApprovalDecided(id, status, decidedBy), at))
  }

  /** One repository call with its arguments. */
  datatype Txn =
    | TxCreateTask(env: Envelope, at: string)
    | TxTransition(t: string, expected: Status, target: Status, at: string, att: Option<string>, gen: Option<int>)
    | TxCreateAttempt(t: string, a: string, worker: string, channel: Option<string>, at: string, gen: Option<int>)
    | TxTransitionAttempt(t: string, a: string, g: int, expected: Status, target: Status, at: string,
                          failure: Option<FailureType>, message: Option<string>)
    | TxAppendNote(t: string, note: Note, at: string, att: Option<string>)
    | TxRegisterArtifact(artifact: Artifact, latest: bool)
    | TxRecordCost(cost: Cost)
    | TxRecordMetric(id: string, metric: Metric, att: Option<string>)
    | TxRequestApproval(id: string, approval: Approval)
    | TxDecideApproval(id: string, verdict: ApprovalStatus, decidedBy: string, at: string)

  function Run(db: Db, x: Txn): Result<Db> {
    match x
    case TxCreateTask(env, at) => CreateTask(db, env, at)
    case TxTransition(t, expected, target, at, a, g) => Transition(db, t, expected, target, at, a, g)
    case TxCreateAttempt(t, a, worker, channel, at, g) => CreateAttempt(db, t, a, worker, channel, at, g)
    case TxTransitionAttempt(t, a, g, expected, target, at, failure, message) =>
      TransitionAttempt(db, t, a, g, expected, target, at, failure, message)
    case TxAppendNote(t, note, at, a) => AppendNote(db, t, note, at, a)
    case TxRegisterArtifact(artifact, latest) => RegisterArtifact(db, artifact, latest)
    case TxRecordCost(cost) => RecordCost(db, cost)
    case TxRecordMetric(id, metric, a) => RecordMetric(db, id, metric, a)
    case TxRequestApproval(id, approval) => RequestApproval(db, id, approval)
    case TxDecideApproval(id, verdict, decidedBy, at) => DecideApproval(db, id, verdict, decidedBy, at)
  }

  /** The database after the call: unchanged when it raised. */
  function After(db: Db, x: Txn): Db {
    match Run(db, x)
    case Ok(d) => d
    case Err(_) => db
  }

  /** The database after a sequence of committed calls, in commit order. */
  function Exec(db: Db, xs: seq<Txn>): Db {
    if xs == [] then db else After(Exec(db, xs[..|xs| - 1]), xs[|xs| - 1])
  }

  /** Committing one more call, or two sequences one after the other. */
  lemma {:induction false} ExecAppend(db: Db, xs: seq<Txn>, ys: seq<Txn>)
    ensures Exec(db, xs + ys) == Exec(Exec(db, xs), ys)
  {
    if ys == [] {
      assert xs + ys == xs;
    } else {
      var n := |ys| - 1;
      assert (xs + ys)[..|xs + ys| - 1] == xs + ys[..n];
      ExecAppend(db, xs, ys[..n]);
    }
  }
}
