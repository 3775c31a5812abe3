/** Lifecycle policy over the repositories (core/task_service.py), for callers nothing interleaves with. */
module TaskPolicy {
  import opened Prelude
  import opened Records
  import opened StateMachine
  import Repositories

  function ValidateFence(db: Db, t: string, a: Option<string>, g: Option<int>): Result<Attempt> {
    if a.None? || a.value == "" || g.None? then Err(InvalidGeneration)
    else if t !in db.tasks then Err(TaskNotFound)
    else if a.value !in db.attempts then Err(AttemptNotFound)
    else
      var row := db.attempts[a.value];
      if row.taskId != t || db.tasks[t].current != a || row.generation != g.value then Err(InvalidGeneration)
      else Ok(row)
  }

  function TransitionTask(db: Db, t: string, target: Status, at: string, a: Option<string>, g: Option<int>): Result<Db> {
    if t !in db.tasks then Err(TaskNotFound)
    else
      var status := db.tasks[t].status;
      if !Allowed(status, target) then Err(InvalidTransition)
      else if (a.Some? || g.Some?) && ValidateFence(db, t, a, g).Err? then Err(ValidateFence(db, t, a, g).error)
      else Repositories.Transition(db, t, status, target, at, a, g)
  }

  function CreateAttempt(db: Db, t: string, a: string, worker: string, channel: Option<string>,
                         at: string, g: Option<int>): Result<Db> {
    if worker == "" then Err(ValueError)
    else if t !in db.tasks then Err(TaskNotFound)
    else if db.tasks[t].status in TERMINAL then Err(InvalidTransition)
    else Repositories.CreateAttempt(db, t, a, worker, channel, at, g)
  }

  function TransitionAttempt(db: Db, t: string, a: string, g: int, target: Status, at: string,
                             failure: Option<FailureType>, message: Option<string>): Result<Db> {
    var fence := ValidateFence(db, t, Some(a), Some(g));
    if fence.Err? then Err(fence.error)
    else if !Allowed(fence.value.status, target) then Err(InvalidTransition)
    else if target != FAILED && (failure.Some? || message.Some?) then Err(ValueError)
    else Repositories.TransitionAttempt(db, t, a, g, fence.value.status, target, at, failure, message)
  }

  /**
    The token is accepted exactly when it names, with its generation, the current attempt of the
    task; an unknown task and an unknown attempt have their own errors.
   */
  lemma FenceMeaning(db: Db, t: string, a: Option<string>, g: Option<int>)
    ensures var named := a.Some? && a.value != "" && g.Some?;
            match ValidateFence(db, t, a, g)
            case Ok(row) =>
              && named && t in db.tasks && a.value in db.attempts && row == db.attempts[a.value]
              && db.tasks[t].current == a && row.taskId == t && row.generation == g.value
            case Err(e) =>
              e == if !named then InvalidGeneration
                   else if t !in db.tasks then TaskNotFound
                   else if a.value !in db.attempts then AttemptNotFound
                   else InvalidGeneration
    ensures a.Some? && a.value != "" && g.Some? && t in db.tasks && a.value in db.attempts && db.tasks[t].current == a
            && db.attempts[a.value].taskId == t && db.attempts[a.value].generation == g.value
            ==> ValidateFence(db, t, a, g).Ok?
  {
  }

  /**
    Read, validate and commit without interference: the compare-and-set cannot fail, so the call
    succeeds exactly when the table allows the change and a token, if any is given, names the
    current attempt with its generation.
   */
  lemma UninterruptedTransition(db: Db, t: string, target: Status, at: string, a: Option<string>, g: Option<int>)
    ensures TransitionTask(db, t, target, at, a, g).Ok? <==>
              && t in db.tasks && Allowed(db.tasks[t].status, target)
              && (a.Some? || g.Some? ==>
                    && a.Some? && g.Some? && a.value != "" && db.tasks[t].current == a && a.value in db.attempts
                    && db.attempts[a.value].taskId == t && db.attempts[a.value].generation == g.value)
    ensures TransitionTask(db, t, target, at, a, g).Ok? ==>
              var d := TransitionTask(db, t, target, at, a, g).value;
              && d.tasks == db.tasks[t := db.tasks[t].(status := target, updatedAt := at)]
              && d.log == db.log + [EventRow(t, a, TaskStatusChanged(db.tasks[t].status, target), at)]
              && d == db.(tasks := d.tasks, log := d.log)
    ensures match TransitionTask(db, t, target, at, a, g)
            case Ok(_) => true
            case Err(e) =>
              if t !in db.tasks then e == TaskNotFound
              else if !Allowed(db.tasks[t].status, target) then e == InvalidTransition
              else e == if a.Some? && a.value != "" && g.Some? && a.value !in db.attempts then AttemptNotFound else InvalidGeneration
  {
  }

  /**
    The same of an attempt, with failure details. The new row differs in its status, in the start
    time when it first runs, in the end time when it ends, and in the failure details it is given.
   */
  lemma UninterruptedAttemptTransition(db: Db, t: string, a: string, g: int, target: Status, at: string,
                                       failure: Option<FailureType>, message: Option<string>)
    ensures TransitionAttempt(db, t, a, g, target, at, failure, message).Ok? <==>
              && a != "" && t in db.tasks && a in db.attempts && db.tasks[t].current == Some(a)
              && db.attempts[a].taskId == t && db.attempts[a].generation == g
              && Allowed(db.attempts[a].status, target) && (target == FAILED || (failure.None? && message.None?))
    ensures TransitionAttempt(db, t, a, g, target, at, failure, message).Ok? ==>
              var d := TransitionAttempt(db, t, a, g, target, at, failure, message).value;
              var was := db.attempts[a];
              && a in d.attempts && d.attempts == db.attempts[a := d.attempts[a]]
              && d.log == db.log + [EventRow(t, Some(a), AttemptStatusChanged(was.status, target, g, failure), at)]
              && d == db.(attempts := d.attempts, log := d.log)
              && d.attempts[a].status == target && d.attempts[a].failure == failure && d.attempts[a].message == message
              && d.attempts[a].startedAt == (if target == RUNNING && was.startedAt.None? then Some(at) else was.startedAt)
              && d.attempts[a].endedAt == (if target in {COMPLETED, FAILED, CANCELLED} then Some(at) else was.endedAt)
              && d.attempts[a].taskId == was.taskId && d.attempts[a].no == was.no && d.attempts[a].generation == was.generation
              && d.attempts[a].worker == was.worker && d.attempts[a].channel == was.channel
  {
  }

  /** The next generation of task t, which is also its next attempt number. */
  predicate IsNext(db: Db, t: string, g: Option<int>) {
    g.Some? ==> g.value == Repositories.MaxOrZero(Repositories.Generations(db.attempts, t)) + 1
  }

  /**
    Without interference create_attempt succeeds exactly for a named worker, a known task that is
    not finished, a fresh id and, when one is given, the next generation. It never leaves an attempt
    on a finished task; the new attempt is ASSIGNED and current and no other attempt changes.
   */
  lemma UninterruptedCreateAttempt(db: Db, t: string, a: string, worker: string, channel: Option<string>,
                                   at: string, g: Option<int>)
    ensures CreateAttempt(db, t, a, worker, channel, at, g).Ok? <==>
              && worker != "" && t in db.tasks && db.tasks[t].status !in TERMINAL
              && a !in db.attempts && IsNext(db, t, g)
    ensures CreateAttempt(db, t, a, worker, channel, at, g).Ok? ==>
              var d := CreateAttempt(db, t, a, worker, channel, at, g).value;
              && a in d.attempts && d.attempts[a].status == ASSIGNED && d.attempts[a].taskId == t
              && IsNext(db, t, Some(d.attempts[a].generation)) && d.attempts == db.attempts[a := d.attempts[a]]
              && t in d.tasks && d.tasks[t].current == Some(a) && d.tasks[t].status == db.tasks[t].status && d.tasks[t].status !in TERMINAL
  {
    hide Repositories.MaxOrZero;
  }
}

/** The service object: each method reads, validates and commits on the shared database. */
module TaskService {
  import opened Prelude
  import opened Records
  import opened StateMachine
  import TaskPolicy
  import Store

  class Service {
    const store: Store.Database

    constructor (store: Store.Database)
      ensures this.store == store
    {
      this.store := store;
    }

    method ValidateFence(t: string, a: Option<string>, g: Option<int>) returns (fence: Result<Attempt>)
      ensures fence == TaskPolicy.ValidateFence(store.Contents(), t, a, g)
    {
      if a.None? || a.value == "" || g.None? {
        return Err(InvalidGeneration);
      }
      if t !in store.tasks {
        return Err(TaskNotFound);
      }
      if a.value !in store.attempts {
        return Err(AttemptNotFound);
      }
      var row := store.attempts[a.value];
      if row.taskId != t || store.tasks[t].current != a || row.generation != g.value {
        return Err(InvalidGeneration);
      }
      return Ok(row);
    }

    method TransitionTask(t: string, target: Status, at: string, a: Option<string>, g: Option<int>)
      returns (raised: Option<Error>)
      modifies store
      ensures Store.Commits(old(store.Contents()), TaskPolicy.TransitionTask(old(store.Contents()), t, target, at, a, g),
                            store.Contents(), raised)
    {
      if t !in store.tasks {
        return Some(TaskNotFound);
      }
      var status := store.tasks[t].status;
      if !Allowed(status, target) {
        return Some(InvalidTransition);
      }
      if a.Some? || g.Some? {
        var fence := ValidateFence(t, a, g);
        if fence.Err? {
          return Some(fence.error);
        }
      }
      raised := store.Transition(t, status, target, at, a, g);
    }

    method CreateAttempt(t: string, a: string, worker: string, channel: Option<string>, at: string, g: Option<int>)
      returns (raised: Option<Error>)
      modifies store
      ensures Store.Commits(old(store.Contents()),
                            TaskPolicy.CreateAttempt(old(store.Contents()), t, a, worker, channel, at, g),
                            store.Contents(), raised)
    {
      if worker == "" {
        return Some(ValueError);
      }
      if t !in store.tasks {
        return Some(TaskNotFound);
      }
      if store.tasks[t].status in TERMINAL {
        return Some(InvalidTransition);
      }
      raised := store.CreateAttempt(t, a, worker, channel, at, g);
    }

    method TransitionAttempt(t: string, a: string, g: int, target: Status, at: string,
                             failure: Option<FailureType>, message: Option<string>) returns (raised: Option<Error>)
      modifies store
      ensures Store.Commits(old(store.Contents()),
                            TaskPolicy.TransitionAttempt(old(store.Contents()), t, a, g, target, at, failure, message),
                            store.Contents(), raised)
    {
      var fence := ValidateFence(t, Some(a), Some(g));
      if fence.Err? {
        return Some(fence.error);
      }
      if !Allowed(fence.value.status, target) {
        return Some(InvalidTransition);
      }
      if target != FAILED && (failure.Some? || message.Some?) {
        return Some(ValueError);
      }
      raised := store.TransitionAttempt(t, a, g, fence.value.status, target, at, failure, message);
    }
  }
}
