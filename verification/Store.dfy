/**
  The SQLite database as an object whose tables are updated in place. Each method is one
  transaction; its contract ties the new tables to the transaction function of Repositories.
 */
module Store {
  import opened Prelude
  import opened Records
  import opened StateMachine
  import opened Repositories

  /** A transaction either committed what `spec` says or raised and left the tables as they were. */
  predicate Commits(before: Db, spec: Result<Db>, after: Db, raised: Option<Error>) {
    match spec
    case Ok(d) => raised == None && after == d
    case Err(e) => raised == Some(e) && after == before
  }

  class Database {
    var tasks: map<string, Task>
    var attempts: map<string, Attempt>
    var artifacts: seq<Artifact>
    var costs: seq<Cost>
    var approvals: map<string, Approval>
    var metrics: map<string, Metric>
    var log: seq<EventRow>

    ghost function Contents(): Db
      reads this
    {
      Db(tasks, attempts, artifacts, costs, approvals, metrics, log)
    }

    constructor ()
      ensures Contents() == EMPTY
    {
      tasks, attempts, artifacts, costs, approvals, metrics, log := map[], map[], [], [], map[], map[], [];
    }

    method AppendEvent(t: string, a: Option<string>, e: Event, at: string)
      modifies this`log
      ensures Contents() == Logged(old(Contents()), t, a, e, at)
    {
      log := log + [EventRow(t, a, e, at)];
    }

    method CreateTask(env: Envelope, at: string) returns (raised: Option<Error>)
      modifies this
      ensures Commits(old(Contents()), Repositories.CreateTask(old(Contents()), env, at), Contents(), raised)
    {
      if env.taskId in tasks {
        return Some(DuplicateRecord);
      }
      tasks := tasks[env.taskId := Task(env, CREATED, None, None, None, None, at)];
      AppendEvent(env.taskId, None, TaskCreated, at);
      return None;
    }

    method Transition(t: string, expected: Status, target: Status, at: string,
                      a: Option<string>, generation: Option<int>) returns (raised: Option<Error>)
      modifies this
      ensures Commits(old(Contents()), Repositories.Transition(old(Contents()), t, expected, target, at, a, generation), Contents(), raised)
      ensures raised.None? <==>
                && t in old(tasks) && old(tasks)[t].status == expected
                && (a.Some? ==>
                      && old(tasks)[t].current == a && a.value in attempts && attempts[a.value].taskId == t
                      && generation == Some(attempts[a.value].generation))
    {
      if t !in tasks {
        return Some(TaskNotFound);
      }
      var task := tasks[t];
      var matches := task.status == expected;
      if a.Some? {
        matches := matches && task.current == a && a.value in attempts
                   && attempts[a.value].taskId == t && generation == Some(attempts[a.value].generation);
      }
      if !matches {
        return Some(StateConflict);
      }
      tasks := tasks[t := task.(status := target, updatedAt := at)];
      AppendEvent(t, a, TaskStatusChanged(expected, target), at);
      return None;
    }

    method CreateAttempt(t: string, a: string, worker: string, channel: Option<string>, at: string,
                         generation: Option<int>) returns (raised: Option<Error>)
      modifies this
      ensures Commits(old(Contents()), Repositories.CreateAttempt(old(Contents()), t, a, worker, channel, at, generation), Contents(), raised)
    {
      if t !in tasks {
        return Some(TaskNotFound);
      }
      var no := MaxOrZero(AttemptNumbers(attempts, t)) + 1;
      var required := MaxOrZero(Generations(attempts, t)) + 1;
      var selected := if generation.Some? then generation.value else required;
      if selected != required {
        return Some(InvalidGeneration);
      }
      if a in attempts {
        return Some(DuplicateRecord);
      }
      attempts := attempts[a := Attempt(t, no, worker, channel, ASSIGNED, None, None, None, None, selected)];
      tasks := tasks[t := tasks[t].(worker := Some(worker), channel := channel, current := Some(a), updatedAt := at)];
      AppendEvent(t, Some(a), AttemptCreated(no, selected, worker, channel), at);
      return None;
    }

    /** The CASE expressions of the UPDATE. */
    static method MovedRow(was: Attempt, target: Status, at: string, failure: Option<FailureType>, message: Option<string>)
      returns (row: Attempt)
      ensures row == Moved(was, target, at, failure, message)
      ensures row.status == target && row.failure == failure && row.message == message
      ensures row.startedAt == (if target == RUNNING && was.startedAt.None? then Some(at) else was.startedAt)
      ensures row.endedAt == (if target in {COMPLETED, FAILED, CANCELLED} then Some(at) else was.endedAt)
    {
      row := was;
      if target == RUNNING && row.startedAt.None? {
        row := row.(startedAt := Some(at));
      }
      if target in TERMINAL {
        row := row.(endedAt := Some(at));
      }
      row := row.(status := target, failure := failure, message := message);
    }

    method TransitionAttempt(t: string, a: string, generation: int, expected: Status, target: Status, at: string,
                             failure: Option<FailureType>, message: Option<string>) returns (raised: Option<Error>)
      modifies this
      ensures Commits(old(Contents()), Repositories.TransitionAttempt(old(Contents()), t, a, generation, expected, target, at,
                                                     failure, message), Contents(), raised)
      ensures raised.None? <==>
                && a in old(attempts) && old(attempts)[a].status == expected && old(attempts)[a].taskId == t
                && old(attempts)[a].generation == generation && t in tasks && tasks[t].current == Some(a)
    {
      if a !in attempts {
        return Some(AttemptNotFound);
      }
      var row := attempts[a];
      if row.taskId != t || row.generation != generation || row.status != expected
         || t !in tasks || tasks[t].current != Some(a) {
        return Some(StateConflict);
      }
      hide Moved;
      row := MovedRow(row, target, at, failure, message);
      attempts := attempts[a := row];
      AppendEvent(t, Some(a), AttemptStatusChanged(expected, target, generation, failure), at);
      return None;
    }

    method AppendNote(t: string, note: Note, at: string, a: Option<string>) returns (raised: Option<Error>)
      modifies this
      ensures Commits(old(Contents()), Repositories.AppendNote(old(Contents()), t, note, at, a), Contents(), raised)
    {
      raised := RefError(tasks, attempts, t, a);
      if raised.None? {
        AppendEvent(t, a, Noted(note), at);
      }
    }

    method RegisterArtifact(artifact: Artifact, latest: bool) returns (raised: Option<Error>)
      modifies this
      ensures Commits(old(Contents()), Repositories.RegisterArtifact(old(Contents()), artifact, latest), Contents(), raised)
    {
      var t := artifact.taskId;
      raised := RefError(tasks, attempts, t, artifact.attempt);
      if raised.Some? {
        return;
      }
      if exists i :: 0 <= i < |artifacts| && artifacts[i].id == artifact.id {
        return Some(DuplicateRecord);
      }
      artifacts := artifacts + [artifact];
      if latest {
        tasks := tasks[t := tasks[t].(checkpoint := Some(artifact.uri), updatedAt := artifact.createdAt)];
      }
      AppendEvent(t, artifact.attempt,
                  ArtifactRegistered(artifact.id, artifact.kind, artifact.uri, artifact.sha, latest), artifact.createdAt);
    }

    method RecordCost(cost: Cost) returns (raised: Option<Error>)
      modifies this
      ensures Commits(old(Contents()), Repositories.RecordCost(old(Contents()), cost), Contents(), raised)
    {
      raised := RefError(tasks, attempts, cost.taskId, cost.attempt);
      if raised.Some? {
        return;
      }
      costs := costs + [cost];
      AppendEvent(cost.taskId, cost.attempt,
                  CostRecorded(|costs|, cost.channel, cost.billing, cost.usd, cost.inputTokens, cost.outputTokens),
                  cost.createdAt);
    }

    method RecordMetric(id: string, metric: Metric, a: Option<string>) returns (raised: Option<Error>)
      modifies this
      ensures Commits(old(Contents()), Repositories.RecordMetric(old(Contents()), id, metric, a), Contents(), raised)
    {
      raised := RefError(tasks, attempts, metric.taskId, a);
      if raised.Some? {
        return;
      }
      if id in metrics {
        return Some(DuplicateRecord);
      }
      metrics := metrics[id := metric];
      AppendEvent(metric.taskId, a, MetricsRecorded(id, metric.measures), metric.createdAt);
    }

    method RequestApproval(id: string, approval: Approval) returns (raised: Option<Error>)
      modifies this
      ensures Commits(old(Contents()), Repositories.RequestApproval(old(Contents()), id, approval), Contents(), raised)
    {
      var t, at := approval.taskId, approval.requestedAt;
      if approval.status != PENDING {
        return Some(ValueError);
      }
      if t !in tasks {
        return Some(TaskNotFound);
      }
      if tasks[t].status != RUNNING {
        return Some(StateConflict);
      }
      if id in approvals {
        return Some(DuplicateRecord);
      }
      approvals := approvals[id := approval.(decidedAt := None, decidedBy := None)];
      AppendEvent(t, None, ApprovalRequested(id, approval.action, approval.reason, approval.payload), at);
      tasks := tasks[t := tasks[t].(status := WAITING_APPROVAL, updatedAt := at)];
      AppendEvent(t, None, TaskStatusChanged(RUNNING, WAITING_APPROVAL), at);
      return None;
    }

    method DecideApproval(id: string, status: ApprovalStatus, decidedBy: string, at: string)
      returns (raised: Option<Error>)
      modifies this
      ensures Commits(old(Contents()), Repositories.DecideApproval(old(Contents()), id, status, decidedBy, at), Contents(), raised)
    {
      if status == PENDING || decidedBy == "" {
        return Some(ValueError);
      }
      if id !in approvals {
        return Some(TaskNotFound);
      }
      var approval := approvals[id];
      if approval.status != PENDING {
        return Some(StateConflict);
      }
      var t := approval.taskId;
      if t !in tasks {
        return Some(TaskNotFound);
      }
      approvals := approvals[id := approval.(status := status, decidedAt := Some(at), decidedBy := Some(decidedBy))];
      if tasks[t].status == WAITING_APPROVAL {
        var target := if status == APPROVED then RUNNING else FAILED;
        tasks := tasks[t := tasks[t].(status := target, updatedAt := at)];
        AppendEvent(t, None, TaskStatusChanged(WAITING_APPROVAL, target), at);
      }
      AppendEvent(t, None, ApprovalDecided(id, status, decidedBy), at);
      return None;
    }
  }
}
