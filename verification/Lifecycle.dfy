/**
  What every run of validated repository calls keeps: attempt numbering, time stamps, row ownership,
  and status histories that follow the transition table.
 */
module Lifecycle {
  import opened Prelude
  import opened Records
  import opened StateMachine
  import opened Repositories
  import opened EventLog

  /** The calls TaskService lets through: its checks look at the expected status, not at the database. */
  predicate Lawful(x: Txn) {
    match x
    case TxTransition(_, expected, target, _, _, _) => Allowed(expected, target)
    case TxTransitionAttempt(_, _, _, expected, target, _, failure, message) =>
      Allowed(expected, target) && (target != FAILED ==> failure.None? && message.None?)
    case _ => true
  }

  predicate AllLawful(xs: seq<Txn>) {
    forall x :: x in xs ==> Lawful(x)
  }

  ghost predicate IsHighest(db: Db, t: string, a: string) {
    && a in db.attempts && db.attempts[a].taskId == t
    && forall b :: b in db.attempts && db.attempts[b].taskId == t ==> db.attempts[b].no <= db.attempts[a].no
  }

  ghost predicate HasNumber(db: Db, t: string, k: int) {
    exists a :: a in db.attempts && db.attempts[a].taskId == t && db.attempts[a].no == k
  }

  /** Attempts of a task are numbered 1..n without gaps or repeats and the current one is number n. */
  ghost predicate Numbered(db: Db, t: string)
    requires t in db.tasks
  {
    && (forall a, b :: a in db.attempts && b in db.attempts && a != b && db.attempts[a].taskId == t ==>
          db.attempts[b].taskId == t ==> db.attempts[a].no != db.attempts[b].no)
    && (forall a, k :: a in db.attempts && db.attempts[a].taskId == t && 1 <= k <= db.attempts[a].no ==>
          HasNumber(db, t, k))
    && (db.tasks[t].current.None? ==> forall a :: a in db.attempts ==> db.attempts[a].taskId != t)
    && (db.tasks[t].current.Some? ==> IsHighest(db, t, db.tasks[t].current.value))
  }

  ghost predicate AllNumbered(db: Db) {
    forall t :: t in db.tasks ==> Numbered(db, t)
  }

  predicate AttemptRow(tasks: map<string, Task>, r: Attempt) {
    && r.taskId in tasks
    && r.no == r.generation >= 1
    && (r.endedAt.Some? <==> r.status in TERMINAL)
    && (r.failure.Some? || r.message.Some? ==> r.status == FAILED)
  }

  ghost predicate AllRows(db: Db) {
    forall a :: a in db.attempts ==> AttemptRow(db.tasks, db.attempts[a])
  }

  /** A row that names an attempt names one of its own task. */
  predicate Owned(db: Db, t: string, a: Option<string>) {
    t in db.tasks && (a.Some? ==> a.value in db.attempts && db.attempts[a.value].taskId == t)
  }

  ghost predicate Ownership(db: Db) {
    && (forall i :: 0 <= i < |db.artifacts| ==> Owned(db, db.artifacts[i].taskId, db.artifacts[i].attempt))
    && (forall i :: 0 <= i < |db.costs| ==> Owned(db, db.costs[i].taskId, db.costs[i].attempt))
    && (forall i :: 0 <= i < |db.log| ==> Owned(db, db.log[i].taskId, db.log[i].attempt))
    && (forall p :: p in db.approvals ==> db.approvals[p].taskId in db.tasks)
    && (forall t :: t in db.tasks ==> db.tasks[t].env.taskId == t)
  }

  ghost predicate Valid(db: Db) {
    AllNumbered(db) && AllRows(db) && Ownership(db)
  }

  // ---- numbering

  lemma HighestIsMaximum(db: Db, t: string)
    requires AllNumbered(db) && AllRows(db) && t in db.tasks
    ensures db.tasks[t].current.None? ==> AttemptNumbers(db.attempts, t) == {} == Generations(db.attempts, t)
    ensures db.tasks[t].current.Some? ==>
              var a := db.tasks[t].current.value;
              && MaxOrZero(AttemptNumbers(db.attempts, t)) == db.attempts[a].no
              && MaxOrZero(Generations(db.attempts, t)) == db.attempts[a].generation
  {
    hide HasNumber;
    assert Numbered(db, t);
    if db.tasks[t].current.Some? {
      var a := db.tasks[t].current.value;
      assert db.attempts[a].no in AttemptNumbers(db.attempts, t);
      SameNumbers(db, t);
    }
  }

  /** Number and generation of an attempt are the same. */
  lemma SameNumbers(db: Db, t: string)
    requires AllRows(db)
    ensures AttemptNumbers(db.attempts, t) == Generations(db.attempts, t)
  {
    forall a | a in db.attempts ensures db.attempts[a].no == db.attempts[a].generation {
      assert AttemptRow(db.tasks, db.attempts[a]);
    }
  }

  /** Nothing about the numbering of t's attempts differs between db and d. */
  lemma NumberedSame(db: Db, d: Db, t: string)
    requires t in db.tasks && t in d.tasks && Numbered(db, t) && db.tasks[t].current == d.tasks[t].current
    requires forall a :: a in db.attempts && db.attempts[a].taskId == t ==>
                           a in d.attempts && d.attempts[a].taskId == t && d.attempts[a].no == db.attempts[a].no
    requires forall a :: a in d.attempts && d.attempts[a].taskId == t ==>
                           a in db.attempts && db.attempts[a].taskId == t
    ensures Numbered(d, t)
  {
    forall a, k | a in d.attempts && d.attempts[a].taskId == t && 1 <= k <= d.attempts[a].no ensures HasNumber(d, t, k) {
      assert HasNumber(db, t, k);
      var c :| c in db.attempts && db.attempts[c].taskId == t && db.attempts[c].no == k;
      assert c in d.attempts;
    }
  }

  /** Adding attempt n + 1 as the current one keeps the numbering of t. */
  lemma NumberedNext(db: Db, t: string, a: string, row: Attempt, d: Db)
    requires t in db.tasks && t in d.tasks && Numbered(db, t) && a !in db.attempts
    requires d.attempts == db.attempts[a := row] && row.taskId == t && d.tasks[t].current == Some(a)
    requires row.no == 1 + if db.tasks[t].current.Some? then db.attempts[db.tasks[t].current.value].no else 0
    ensures Numbered(d, t)
  {
    assert forall b :: b in db.attempts && db.attempts[b].taskId == t ==> db.attempts[b].no < row.no;
    forall b, k | b in d.attempts && d.attempts[b].taskId == t && 1 <= k <= d.attempts[b].no ensures HasNumber(d, t, k) {
      if k == row.no {
        assert d.attempts[a].no == k;
      } else {
        var c := if b == a then db.tasks[t].current.value else b;
        assert 1 <= k <= db.attempts[c].no;
        assert HasNumber(db, t, k);
        var e :| e in db.attempts && db.attempts[e].taskId == t && db.attempts[e].no == k;
        assert d.attempts[e] == db.attempts[e];
      }
    }
  }

  lemma NumberedAfter(db: Db, x: Txn)
    requires AllNumbered(db) && AllRows(db)
    ensures AllNumbered(After(db, x))
  {
    var d := After(db, x);
    forall t | t in d.tasks ensures Numbered(d, t) {
      assert t in db.tasks ==> Numbered(db, t);
      if Run(db, x).Ok? {
        if x.TxCreateAttempt? && x.t == t {
          HighestIsMaximum(db, t);
          NumberedNext(db, t, x.a, d.attempts[x.a], d);
        } else if t in db.tasks {
          SameAttempts(db, x, t);
          NumberedSame(db, d, t);
        } else {
          NewTaskHasNoAttempt(db, x, t);
        }
      }
    }
  }

  lemma SameAttempts(db: Db, x: Txn, t: string)
    requires t in db.tasks && !(x.TxCreateAttempt? && x.t == t)
    ensures After(db, x).tasks[t].current == db.tasks[t].current
    ensures forall a :: a in db.attempts ==>
                          && a in After(db, x).attempts
                          && After(db, x).attempts[a].taskId == db.attempts[a].taskId
                          && After(db, x).attempts[a].no == db.attempts[a].no
    ensures forall a :: a in After(db, x).attempts && After(db, x).attempts[a].taskId == t ==> a in db.attempts
  {
    if x.TxCreateAttempt? {
      assert t in After(db, x).tasks;
    } else if x.TxTransitionAttempt? {
      assert After(db, x).tasks == db.tasks;
    } else {
      SameAttemptTable(db, x);
      SameCurrent(db, x, t);
    }
  }

  lemma SameAttemptTable(db: Db, x: Txn)
    requires !x.TxCreateAttempt? && !x.TxTransitionAttempt?
    ensures After(db, x).attempts == db.attempts
  {
  }

  lemma SameCurrent(db: Db, x: Txn, t: string)
    requires t in db.tasks && !x.TxCreateAttempt?
    ensures After(db, x).tasks[t].current == db.tasks[t].current
  {
  }

  lemma NewTaskHasNoAttempt(db: Db, x: Txn, t: string)
    requires AllRows(db) && t !in db.tasks && t in After(db, x).tasks
    ensures Numbered(After(db, x), t)
  {
    assert After(db, x).attempts == db.attempts;
  }

  // ---- attempt rows

  lemma RowsAfter(db: Db, x: Txn)
    requires AllNumbered(db) && AllRows(db) && Lawful(x)
    ensures AllRows(After(db, x))
  {
    if Run(db, x).Ok? {
      if x.TxCreateAttempt? {
        NewRow(db, x);
      } else if x.TxTransitionAttempt? {
        MovedRow(db, x);
      } else {
        OtherRows(db, x);
      }
    }
  }

  /** A new attempt gets the same number and generation, one past every earlier one. */
  lemma NextNumbers(db: Db, t: string)
    requires AllNumbered(db) && AllRows(db) && t in db.tasks
    ensures MaxOrZero(AttemptNumbers(db.attempts, t)) == MaxOrZero(Generations(db.attempts, t)) >= 0
  {
    HighestIsMaximum(db, t);
    assert Numbered(db, t);
    if db.tasks[t].current.Some? {
      assert AttemptRow(db.tasks, db.attempts[db.tasks[t].current.value]);
    }
  }

  lemma NewRow(db: Db, x: Txn)
    requires AllNumbered(db) && AllRows(db) && x.TxCreateAttempt? && Run(db, x).Ok?
    ensures AllRows(After(db, x))
  {
    NextNumbers(db, x.t);
    NewRowFor(db, x.t, x.a, x.worker, x.channel, x.at, x.gen);
  }

  lemma NewRowFor(db: Db, t: string, a: string, worker: string, channel: Option<string>, at: string, g: Option<int>)
    requires AllRows(db) && t in db.tasks && CreateAttempt(db, t, a, worker, channel, at, g).Ok?
    requires MaxOrZero(AttemptNumbers(db.attempts, t)) == MaxOrZero(Generations(db.attempts, t)) >= 0
    ensures AllRows(CreateAttempt(db, t, a, worker, channel, at, g).value)
  {
    var d := CreateAttempt(db, t, a, worker, channel, at, g).value;
    forall b | b in d.attempts ensures AttemptRow(d.tasks, d.attempts[b]) {
      assert b != a ==> AttemptRow(db.tasks, db.attempts[b]);
    }
  }

  lemma MovedRow(db: Db, x: Txn)
    requires AllRows(db) && Lawful(x) && x.TxTransitionAttempt? && Run(db, x).Ok?
    ensures AllRows(After(db, x))
  {
    TerminalIffStuck(x.expected);
    assert AttemptRow(db.tasks, db.attempts[x.a]);
  }

  lemma OtherRows(db: Db, x: Txn)
    requires AllRows(db) && !x.TxCreateAttempt? && !x.TxTransitionAttempt?
    ensures AllRows(After(db, x))
  {
    var d := After(db, x);
    assert d.attempts == db.attempts;
    forall a | a in d.attempts ensures AttemptRow(d.tasks, d.attempts[a]) {
      assert AttemptRow(db.tasks, db.attempts[a]);
    }
  }

  // ---- row ownership

  /** Rows are added, never re-assigned to another task. */
  ghost predicate Keeps(db: Db, d: Db) {
    && (forall t :: t in db.tasks ==> t in d.tasks && d.tasks[t].env == db.tasks[t].env)
    && (forall a :: a in db.attempts ==> a in d.attempts && d.attempts[a].taskId == db.attempts[a].taskId)
  }

  lemma KeepsAfter(db: Db, x: Txn)
    ensures Keeps(db, After(db, x))
  {
    hide After;
    forall t | t in db.tasks ensures t in After(db, x).tasks && After(db, x).tasks[t].env == db.tasks[t].env {
      KeepsTask(db, x, t);
    }
    forall a | a in db.attempts ensures a in After(db, x).attempts && After(db, x).attempts[a].taskId == db.attempts[a].taskId {
      KeepsAttempt(db, x, a);
    }
  }

  lemma KeepsTask(db: Db, x: Txn, t: string)
    requires t in db.tasks
    ensures t in After(db, x).tasks && After(db, x).tasks[t].env == db.tasks[t].env
  {
  }

  lemma KeepsAttempt(db: Db, x: Txn, a: string)
    requires a in db.attempts
    ensures a in After(db, x).attempts && After(db, x).attempts[a].taskId == db.attempts[a].taskId
  {
  }

  lemma OwnershipKept(db: Db, d: Db)
    requires Ownership(db) && Keeps(db, d)
    requires db.artifacts <= d.artifacts && db.costs <= d.costs && db.log <= d.log
    requires forall i :: |db.artifacts| <= i < |d.artifacts| ==> Owned(d, d.artifacts[i].taskId, d.artifacts[i].attempt)
    requires forall i :: |db.costs| <= i < |d.costs| ==> Owned(d, d.costs[i].taskId, d.costs[i].attempt)
    requires forall i :: |db.log| <= i < |d.log| ==> Owned(d, d.log[i].taskId, d.log[i].attempt)
    requires forall p :: p in d.approvals ==> d.approvals[p].taskId in d.tasks
    requires forall t :: t in d.tasks && t !in db.tasks ==> d.tasks[t].env.taskId == t
    ensures Ownership(d)
  {
    forall i | 0 <= i < |d.log| ensures Owned(d, d.log[i].taskId, d.log[i].attempt) {
      if i < |db.log| { assert d.log[i] == db.log[i]; }
    }
    forall i | 0 <= i < |d.artifacts| ensures Owned(d, d.artifacts[i].taskId, d.artifacts[i].attempt) {
      if i < |db.artifacts| { assert d.artifacts[i] == db.artifacts[i]; }
    }
    forall i | 0 <= i < |d.costs| ensures Owned(d, d.costs[i].taskId, d.costs[i].attempt) {
      if i < |db.costs| { assert d.costs[i] == db.costs[i]; }
    }
  }

  /** The events a call appended. */
  ghost predicate EventsOwned(db: Db, d: Db) {
    forall i :: |db.log| <= i < |d.log| ==> Owned(d, d.log[i].taskId, d.log[i].attempt)
  }

  lemma NewEventsOwned(db: Db, x: Txn)
    requires Ownership(db)
    ensures db.log <= After(db, x).log && EventsOwned(db, After(db, x))
  {
    AppendsRows(db, x);
    if x.TxRequestApproval? || x.TxDecideApproval? {
      ApprovalEventsOwned(db, x);
    } else {
      OtherEventsOwned(db, x);
    }
  }

  lemma ApprovalEventsOwned(db: Db, x: Txn)
    requires Ownership(db) && (x.TxRequestApproval? || x.TxDecideApproval?)
    ensures EventsOwned(db, After(db, x))
  {
  }

  lemma OtherEventsOwned(db: Db, x: Txn)
    requires !x.TxRequestApproval? && !x.TxDecideApproval?
    ensures EventsOwned(db, After(db, x))
  {
  }

  lemma NewRowsOwned(db: Db, x: Txn)
    requires Ownership(db)
    ensures var d := After(db, x);
            && db.artifacts <= d.artifacts && db.costs <= d.costs
            && (forall i :: |db.artifacts| <= i < |d.artifacts| ==> Owned(d, d.artifacts[i].taskId, d.artifacts[i].attempt))
            && (forall i :: |db.costs| <= i < |d.costs| ==> Owned(d, d.costs[i].taskId, d.costs[i].attempt))
  {
    hide Owned, Ownership;
    var d := After(db, x);
    assert d.artifacts[..|db.artifacts|] == db.artifacts;
    assert d.costs[..|db.costs|] == db.costs;
    if x.TxRegisterArtifact? {
      RefsAreOwned(db, x.artifact.taskId, x.artifact.attempt, d);
    } else if x.TxRecordCost? {
      RefsAreOwned(db, x.cost.taskId, x.cost.attempt, d);
    }
  }

  /** validate_task_attempt_refs lets exactly the owned rows through. */
  lemma RefsAreOwned(db: Db, t: string, a: Option<string>, d: Db)
    requires d.tasks.Keys == db.tasks.Keys && d.attempts == db.attempts
    ensures RefError(db.tasks, db.attempts, t, a).None? <==> Owned(d, t, a)
    ensures RefError(db.tasks, db.attempts, t, a).None? <==>
              t in d.tasks && (a.Some? ==> a.value in d.attempts && d.attempts[a.value].taskId == t)
    ensures match RefError(db.tasks, db.attempts, t, a)
            case None => true
            case Some(e) =>
              e == if t !in d.tasks then TaskNotFound else if a.Some? && a.value in d.attempts then StateConflict else AttemptNotFound
  {
  }

  lemma KeyedRowsOwned(db: Db, x: Txn)
    requires Ownership(db)
    ensures var d := After(db, x);
            && (forall p :: p in d.approvals ==> d.approvals[p].taskId in d.tasks)
            && (forall t :: t in d.tasks && t !in db.tasks ==> d.tasks[t].env.taskId == t)
  {
    if x.TxRequestApproval? || x.TxDecideApproval? || x.TxCreateTask? {
      KeyedRowsChanged(db, x);
    } else {
      KeyedRowsSame(db, x);
    }
  }

  lemma KeyedRowsSame(db: Db, x: Txn)
    requires !x.TxRequestApproval? && !x.TxDecideApproval? && !x.TxCreateTask?
    ensures After(db, x).approvals == db.approvals && After(db, x).tasks.Keys == db.tasks.Keys
  {
  }

  lemma KeyedRowsChanged(db: Db, x: Txn)
    requires Ownership(db) && (x.TxRequestApproval? || x.TxDecideApproval? || x.TxCreateTask?)
    ensures var d := After(db, x);
            && (forall p :: p in d.approvals ==> d.approvals[p].taskId in d.tasks)
            && (forall t :: t in d.tasks && t !in db.tasks ==> d.tasks[t].env.taskId == t)
  {
  }

  lemma OwnershipAfter(db: Db, x: Txn)
    requires Ownership(db)
    ensures Ownership(After(db, x))
  {
    KeepsAfter(db, x);
    NewEventsOwned(db, x);
    NewRowsOwned(db, x);
    KeyedRowsOwned(db, x);
    OwnershipKept(db, After(db, x));
  }

  // ---- runs

  lemma ValidAfter(db: Db, x: Txn)
    requires Valid(db) && Lawful(x)
    ensures Valid(After(db, x))
  {
    NumberedAfter(db, x);
    RowsAfter(db, x);
    OwnershipAfter(db, x);
  }

  /** Every database that validated calls can produce is valid. */
  lemma {:induction false} RunsStayValid(xs: seq<Txn>)
    requires AllLawful(xs)
    ensures Valid(Exec(EMPTY, xs))
  {
    if xs != [] {
      RunsStayValid(xs[..|xs| - 1]);
      ValidAfter(Exec(EMPTY, xs[..|xs| - 1]), xs[|xs| - 1]);
    }
  }

  // ---- status histories

  /** Every status change in the log is one the table permits. */
  ghost predicate LogAllowed(log: seq<EventRow>) {
    forall i :: 0 <= i < |log| ==> RowAllowed(log[i])
  }

  predicate RowAllowed(row: EventRow) {
    match row.event
    case TaskStatusChanged(from, to) => Allowed(from, to)
    case AttemptStatusChanged(from, to, _, _) => Allowed(from, to)
    case _ => true
  }

  lemma LogAllowedAfter(db: Db, x: Txn)
    requires LogAllowed(db.log) && Lawful(x)
    ensures LogAllowed(After(db, x).log)
  {
    assert Allowed(RUNNING, WAITING_APPROVAL) && Allowed(WAITING_APPROVAL, RUNNING) && Allowed(WAITING_APPROVAL, FAILED);
  }

  lemma {:induction false} RunsLogAllowed(xs: seq<Txn>)
    requires AllLawful(xs)
    ensures LogAllowed(Exec(EMPTY, xs).log)
  {
    if xs != [] {
      RunsLogAllowed(xs[..|xs| - 1]);
      LogAllowedAfter(Exec(EMPTY, xs[..|xs| - 1]), xs[|xs| - 1]);
    }
  }

  /** A task or attempt is created once: its creation row finds an empty history. */
  ghost predicate CreatedOnce(log: seq<EventRow>) {
    forall i :: 0 <= i < |log| ==>
      && (log[i].event.TaskCreated? ==> TaskHistory(log[..i], log[i].taskId) == [])
      && (log[i].event.AttemptCreated? ==> log[i].attempt.Some? && AttemptHistory(log[..i], log[i].attempt.value) == [])
  }

  lemma GrowCreatedOnce(log: seq<EventRow>, row: EventRow)
    requires CreatedOnce(log)
    requires row.event.TaskCreated? ==> TaskHistory(log, row.taskId) == []
    requires row.event.AttemptCreated? ==> row.attempt.Some? && AttemptHistory(log, row.attempt.value) == []
    ensures CreatedOnce(log + [row])
  {
    var more := log + [row];
    forall i | 0 <= i < |more|
      ensures more[i].event.TaskCreated? ==> TaskHistory(more[..i], more[i].taskId) == []
      ensures more[i].event.AttemptCreated? ==> more[i].attempt.Some? && AttemptHistory(more[..i], more[i].attempt.value) == []
    {
      if i < |log| { assert more[..i] == log[..i]; } else { assert more[..i] == log; }
    }
  }

  lemma CreatedOnceAfter(db: Db, x: Txn)
    requires Faithful(db) && CreatedOnce(db.log)
    ensures CreatedOnce(After(db, x).log)
  {
    hide After, CreatedOnce, TaskHistory, AttemptHistory;
    var log := After(db, x).log;
    AppendsRows(db, x);
    FewRows(db, x);
    if |log| == |db.log| + 1 {
      assert log == db.log + [log[|db.log|]];
      GrowCreatedOnce(db.log, log[|db.log|]);
    } else if |log| == |db.log| + 2 {
      var mid := db.log + [log[|db.log|]];
      assert log == mid + [log[|db.log| + 1]];
      GrowCreatedOnce(db.log, log[|db.log|]);
      GrowCreatedOnce(mid, log[|db.log| + 1]);
    }
  }

  lemma FewRows(db: Db, x: Txn)
    ensures |After(db, x).log| <= |db.log| + 2
    ensures |After(db, x).log| == |db.log| ==> After(db, x).log == db.log
    ensures |After(db, x).log| == |db.log| + 2 ==>
              forall i :: |db.log| <= i < |db.log| + 2 ==>
                !After(db, x).log[i].event.TaskCreated? && !After(db, x).log[i].event.AttemptCreated?
    ensures |After(db, x).log| == |db.log| + 1 ==>
              var row := After(db, x).log[|db.log|];
              && (row.event.TaskCreated? ==> row.taskId !in db.tasks)
              && (row.event.AttemptCreated? ==> row.attempt.Some? && row.attempt.value !in db.attempts)
  {
  }

  lemma {:induction false} RunsCreatedOnce(xs: seq<Txn>)
    ensures CreatedOnce(Exec(EMPTY, xs).log)
  {
    if xs != [] {
      LogIsEventSource(xs[..|xs| - 1]);
      RunsCreatedOnce(xs[..|xs| - 1]);
      CreatedOnceAfter(Exec(EMPTY, xs[..|xs| - 1]), xs[|xs| - 1]);
    }
  }

  lemma {:induction false} TaskHistoryIsPath(log: seq<EventRow>, t: string)
    requires LogAllowed(log) && Linked(log) && CreatedOnce(log)
    ensures IsPath(TaskHistory(log, t))
    ensures TaskHistory(log, t) != [] ==> TaskHistory(log, t)[0] == CREATED
  {
    if log != [] {
      var n := |log| - 1;
      Prefixes(log, n);
      TaskHistoryIsPath(log[..n], t);
      assert LinkedAt(log, n) && RowAllowed(log[n]);
    }
  }

  lemma {:induction false} AttemptHistoryIsPath(log: seq<EventRow>, a: string)
    requires LogAllowed(log) && Linked(log) && CreatedOnce(log)
    ensures IsPath(AttemptHistory(log, a))
    ensures AttemptHistory(log, a) != [] ==> AttemptHistory(log, a)[0] == ASSIGNED
  {
    if log != [] {
      var n := |log| - 1;
      Prefixes(log, n);
      AttemptHistoryIsPath(log[..n], a);
      assert LinkedAt(log, n) && RowAllowed(log[n]);
    }
  }

  lemma Prefixes(log: seq<EventRow>, n: nat)
    requires n <= |log| && LogAllowed(log) && Linked(log) && CreatedOnce(log)
    ensures LogAllowed(log[..n]) && Linked(log[..n]) && CreatedOnce(log[..n])
  {
    forall i | 0 <= i < n ensures LinkedAt(log[..n], i) {
      assert LinkedAt(log, i);
      assert log[..n][..i] == log[..i];
    }
    forall i | 0 <= i < n
      ensures log[i].event.TaskCreated? ==> TaskHistory(log[..n][..i], log[i].taskId) == []
      ensures log[i].event.AttemptCreated? ==> log[i].attempt.Some? && AttemptHistory(log[..n][..i], log[i].attempt.value) == []
    {
      assert log[..n][..i] == log[..i];
    }
  }

  /**
    In every run of validated calls, the log's history of each task is a path of the transition
    table from CREATED to the stored status, and of each attempt a path from ASSIGNED.
   */
  lemma HistoriesFollowTheTable(xs: seq<Txn>)
    requires AllLawful(xs)
    ensures var db := Exec(EMPTY, xs);
            && (forall t :: t in db.tasks ==>
                  && IsPath(TaskHistory(db.log, t)) && EndsIn(TaskHistory(db.log, t), db.tasks[t].status)
                  && TaskHistory(db.log, t)[0] == CREATED)
            && (forall a :: a in db.attempts ==>
                  && IsPath(AttemptHistory(db.log, a)) && EndsIn(AttemptHistory(db.log, a), db.attempts[a].status)
                  && AttemptHistory(db.log, a)[0] == ASSIGNED)
  {
    var db := Exec(EMPTY, xs);
    LogIsEventSource(xs);
    RunsLogAllowed(xs);
    RunsCreatedOnce(xs);
    forall t { TaskHistoryIsPath(db.log, t); }
    forall a { AttemptHistoryIsPath(db.log, a); }
  }

  // ---- what later calls cannot change

  /** A finished task stays finished, a finished attempt's row is never written again. */
  lemma {:induction false} TerminalIsForever(db: Db, xs: seq<Txn>)
    requires AllLawful(xs)
    ensures forall t :: t in db.tasks && db.tasks[t].status in TERMINAL ==>
                          t in Exec(db, xs).tasks && Exec(db, xs).tasks[t].status == db.tasks[t].status
    ensures forall a :: a in db.attempts && db.attempts[a].status in TERMINAL ==>
                          a in Exec(db, xs).attempts && Exec(db, xs).attempts[a] == db.attempts[a]
  {
    if xs != [] {
      TerminalIsForever(db, xs[..|xs| - 1]);
      TerminalKept(Exec(db, xs[..|xs| - 1]), xs[|xs| - 1]);
    }
  }

  lemma TerminalKept(db: Db, x: Txn)
    requires Lawful(x)
    ensures forall t :: t in db.tasks && db.tasks[t].status in TERMINAL ==>
                          t in After(db, x).tasks && After(db, x).tasks[t].status == db.tasks[t].status
    ensures forall a :: a in db.attempts && db.attempts[a].status in TERMINAL ==>
                          a in After(db, x).attempts && After(db, x).attempts[a] == db.attempts[a]
  {
    hide After;
    forall t | t in db.tasks && db.tasks[t].status in TERMINAL
      ensures t in After(db, x).tasks && After(db, x).tasks[t].status == db.tasks[t].status
    {
      TerminalTaskKept(db, x, t);
    }
    forall a | a in db.attempts && db.attempts[a].status in TERMINAL
      ensures a in After(db, x).attempts && After(db, x).attempts[a] == db.attempts[a]
    {
      TerminalAttemptKept(db, x, a);
    }
  }

  lemma TerminalTaskKept(db: Db, x: Txn, t: string)
    requires Lawful(x) && t in db.tasks && db.tasks[t].status in TERMINAL
    ensures t in After(db, x).tasks && After(db, x).tasks[t].status == db.tasks[t].status
  {
    if x.TxTransition? {
      TerminalIffStuck(x.expected);
    }
  }

  lemma TerminalAttemptKept(db: Db, x: Txn, a: string)
    requires Lawful(x) && a in db.attempts && db.attempts[a].status in TERMINAL
    ensures a in After(db, x).attempts && After(db, x).attempts[a] == db.attempts[a]
  {
    if x.TxTransitionAttempt? {
      TerminalIffStuck(x.expected);
    }
  }

  ghost predicate Superseded(db: Db, a: string) {
    && a in db.attempts
    && exists b :: b in db.attempts && db.attempts[b].taskId == db.attempts[a].taskId
                   && db.attempts[b].generation > db.attempts[a].generation
  }

  lemma CurrentIsNotSuperseded(db: Db, a: string)
    requires Valid(db) && Superseded(db, a)
    ensures db.attempts[a].taskId in db.tasks && db.tasks[db.attempts[a].taskId].current != Some(a)
  {
    var b :| b in db.attempts && db.attempts[b].taskId == db.attempts[a].taskId
             && db.attempts[b].generation > db.attempts[a].generation;
    assert AttemptRow(db.tasks, db.attempts[a]) && AttemptRow(db.tasks, db.attempts[b]);
    assert Numbered(db, db.attempts[a].taskId);
  }

  lemma OnlyCurrentChanges(db: Db, x: Txn, a: string)
    requires a in db.attempts
    requires db.attempts[a].taskId in db.tasks && db.tasks[db.attempts[a].taskId].current != Some(a)
    ensures a in After(db, x).attempts && After(db, x).attempts[a] == db.attempts[a]
  {
  }

  lemma SupersededKept(db: Db, x: Txn, a: string)
    requires Valid(db) && Superseded(db, a)
    ensures Superseded(After(db, x), a) && After(db, x).attempts[a] == db.attempts[a]
  {
    CurrentIsNotSuperseded(db, a);
    OnlyCurrentChanges(db, x, a);
    var b :| b in db.attempts && db.attempts[b].taskId == db.attempts[a].taskId
             && db.attempts[b].generation > db.attempts[a].generation;
    GenerationKept(db, x, b);
  }

  lemma GenerationKept(db: Db, x: Txn, b: string)
    requires b in db.attempts
    ensures b in After(db, x).attempts && After(db, x).attempts[b].taskId == db.attempts[b].taskId
    ensures After(db, x).attempts[b].generation == db.attempts[b].generation
  {
  }

  /** Once a newer generation exists, the row of an attempt never changes again. */
  lemma {:induction false} SupersededIsFrozen(xs: seq<Txn>, ys: seq<Txn>, a: string)
    requires AllLawful(xs) && AllLawful(ys) && Superseded(Exec(EMPTY, xs), a)
    ensures Superseded(Exec(EMPTY, xs + ys), a)
    ensures Exec(EMPTY, xs + ys).attempts[a] == Exec(EMPTY, xs).attempts[a]
  {
    if ys == [] {
      assert xs + ys == xs;
    } else {
      hide After, Superseded, Valid;
      var n := |ys| - 1;
      SupersededIsFrozen(xs, ys[..n], a);
      var zs := xs + ys[..n];
      assert (xs + ys)[..|xs + ys| - 1] == zs && (xs + ys)[|zs|] == ys[n];
      RunsStayValid(zs);
      SupersededKept(Exec(EMPTY, zs), ys[n], a);
    }
  }

  /** The start time is there exactly when the attempt has been RUNNING, and is never moved. */
  lemma {:induction false} StartTime(xs: seq<Txn>, a: string)
    requires a in Exec(EMPTY, xs).attempts
    ensures var db := Exec(EMPTY, xs);
            db.attempts[a].startedAt.Some? <==> RUNNING in AttemptHistory(db.log, a)
  {
    if xs != [] {
      var n := |xs| - 1;
      var db := Exec(EMPTY, xs[..n]);
      LogIsEventSource(xs[..n]);
      if a in db.attempts {
        StartTime(xs[..n], a);
      }
      StartTimeStep(db, xs[n], a);
    }
  }

  lemma StartTimeStep(db: Db, x: Txn, a: string)
    requires Faithful(db) && a in After(db, x).attempts
    requires a in db.attempts ==> (db.attempts[a].startedAt.Some? <==> RUNNING in AttemptHistory(db.log, a))
    ensures After(db, x).attempts[a].startedAt.Some? <==> RUNNING in AttemptHistory(After(db, x).log, a)
    ensures a in db.attempts && db.attempts[a].startedAt.Some? ==>
              After(db, x).attempts[a].startedAt == db.attempts[a].startedAt
  {
    hide AttemptHistory, Replay, Linked;
    var d := After(db, x);
    if Run(db, x).Ok? {
      if x.TxTransitionAttempt? || x.TxCreateAttempt? {
        GrowAttemptHistory(db.log, d.log[|db.log|], a);
      } else {
        AppendsRows(db, x);
        FewRows(db, x);
        HistoryUnmoved(db, x, a);
      }
    }
  }

  lemma NoAttemptRows(db: Db, x: Txn)
    requires !x.TxTransitionAttempt? && !x.TxCreateAttempt?
    ensures After(db, x).attempts == db.attempts
    ensures var log := After(db, x).log;
            forall i :: |db.log| <= i < |log| ==> !log[i].event.AttemptCreated? && !log[i].event.AttemptStatusChanged?
  {
  }

  lemma HistoryUnmoved(db: Db, x: Txn, a: string)
    requires !x.TxTransitionAttempt? && !x.TxCreateAttempt?
    ensures AttemptHistory(After(db, x).log, a) == AttemptHistory(db.log, a)
    ensures After(db, x).attempts == db.attempts
  {
    hide After;
    var log := After(db, x).log;
    AppendsRows(db, x);
    FewRows(db, x);
    NoAttemptRows(db, x);
    if |log| == |db.log| + 1 {
      assert log == db.log + [log[|db.log|]];
      GrowAttemptHistory(db.log, log[|db.log|], a);
    } else if |log| == |db.log| + 2 {
      var mid := db.log + [log[|db.log|]];
      assert log == mid + [log[|db.log| + 1]];
      GrowAttemptHistory(db.log, log[|db.log|], a);
      GrowAttemptHistory(mid, log[|db.log| + 1], a);
    }
  }
}
