/**
  Many clients of TaskService at once. Each service call is several reads followed by one
  compare-and-set transaction, and other clients may commit between any two of them.
 */
module StaleWriters {
  import opened Prelude
  import opened Records
  import opened StateMachine
  import opened Repositories
  import opened EventLog
  import opened Lifecycle
  import TaskPolicy

  datatype Call =
    | MoveTask(t: string, target: Status, att: Option<string>, gen: Option<int>)
    | MoveAttempt(t: string, a: string, g: int, target: Status, failure: Option<FailureType>, message: Option<string>)
    | NewAttempt(t: string, a: string, worker: string, channel: Option<string>, gen: Option<int>)

  /** What a client in the middle of a call remembers of the database it read earlier. */
  datatype Pending =
    | StatusSeen(call: Call, status: Status)
    | CurrentSeen(call: Call, seen: Option<Status>, current: Option<string>)
    | Validated(call: Call, status: Status)

  datatype System = System(db: Db, clients: map<nat, Pending>)

  datatype Action =
    | Start(c: nat, call: Call)
    | Continue(c: nat)
    | Commit(c: nat, at: string)
    | Direct(x: Txn)   // a repository call TaskService does not stand in front of

  function Forget(s: System, c: nat): System {
    s.(clients := s.clients - {c})
  }

  /** The first read of a call and the checks on it. */
  function Begin(db: Db, call: Call): Option<Pending> {
    if call.t !in db.tasks then None
    else
      var status := db.tasks[call.t].status;
      match call
      case MoveTask(t, target, a, g) =>
        if !Allowed(status, target) then None
        else if a.None? && g.None? then Some(Validated(call, status))
        else if a.None? || a.value == "" || g.None? then None
        else Some(StatusSeen(call, status))
      case MoveAttempt(t, a, g, _, _, _) =>
        if a == "" then None else Some(CurrentSeen(call, None, db.tasks[t].current))
      case NewAttempt(_, _, worker, _, _) =>
        if worker == "" || status in TERMINAL then None else Some(Validated(call, status))
  }

  /** The next read: validate_fence reads the task, then the attempt. */
  function Proceed(db: Db, p: Pending): Option<Pending> {
    match p
    case StatusSeen(call, status) =>
      if call.t !in db.tasks then None else Some(CurrentSeen(call, Some(status), db.tasks[call.t].current))
    case CurrentSeen(call, seen, current) =>
      (match call
       case MoveTask(t, target, a, g) =>
         if a.None? || a.value !in db.attempts || seen.None? then None
         else if db.attempts[a.value].taskId != t || current != a || Some(db.attempts[a.value].generation) != g then None
         else Some(Validated(call, seen.value))
       case MoveAttempt(t, a, g, target, failure, message) =>
         if a !in db.attempts then None
         else
           var row := db.attempts[a];
           if row.taskId != t || current != Some(a) || row.generation != g then None
           else if !Allowed(row.status, target) then None
           else if target != FAILED && (failure.Some? || message.Some?) then None
           else Some(Validated(call, row.status))
       case NewAttempt(_, _, _, _, _) => None)
    case Validated(_, _) => Some(p)
  }

  /** The transaction a validated call commits. */
  function Write(call: Call, status: Status, at: string): Txn {
    match call
    case MoveTask(t, target, a, g) => TxTransition(t, status, target, at, a, g)
    case MoveAttempt(t, a, g, target, failure, message) =>
      TxTransitionAttempt(t, a, g, status, target, at, failure, message)
    case NewAttempt(t, a, worker, channel, g) => TxCreateAttempt(t, a, worker, channel, at, g)
  }

  predicate Unguarded(x: Txn) {
    !x.TxTransition? && !x.TxTransitionAttempt? && !x.TxCreateAttempt?
  }

  function Remember(s: System, c: nat, p: Option<Pending>): System {
    if p.None? then Forget(s, c) else s.(clients := s.clients[c := p.value])
  }

  function Next(s: System, action: Action): System {
    match action
    case Start(c, call) => if c in s.clients then s else Remember(s, c, Begin(s.db, call))
    case Continue(c) => if c !in s.clients then s else Remember(s, c, Proceed(s.db, s.clients[c]))
    case Commit(c, at) =>
      if c !in s.clients || !s.clients[c].Validated? then s
      else Forget(s.(db := After(s.db, Write(s.clients[c].call, s.clients[c].status, at))), c)
    case Direct(x) => if Unguarded(x) then s.(db := After(s.db, x)) else s
  }

  const IDLE: System := System(EMPTY, map[])

  function Interleave(s: System, actions: seq<Action>): System {
    if actions == [] then s else Next(Interleave(s, actions[..|actions| - 1]), actions[|actions| - 1])
  }

  /** Whatever a client has read, the write it would commit is one the table allows. */
  ghost predicate ClientsChecked(s: System) {
    forall c :: c in s.clients ==> PendingChecked(s.clients[c])
  }

  predicate PendingChecked(p: Pending) {
    match p
    case StatusSeen(call, status) => call.MoveTask? && Allowed(status, call.target)
    case CurrentSeen(call, seen, _) =>
      (call.MoveTask? ==> seen.Some? && Allowed(seen.value, call.target))
    case Validated(call, status) => Lawful(Write(call, status, ""))
  }

  lemma CheckedAfter(s: System, action: Action)
    requires ClientsChecked(s)
    ensures ClientsChecked(Next(s, action))
  {
  }

  /** What an action commits, if anything. */
  function Committed(s: System, action: Action): seq<Txn> {
    match action
    case Commit(c, at) =>
      if c in s.clients && s.clients[c].Validated? then [Write(s.clients[c].call, s.clients[c].status, at)] else []
    case Direct(x) => if Unguarded(x) then [x] else []
    case _ => []
  }

  /** The committed writes of an interleaving, in commit order. */
  function CommitOrder(actions: seq<Action>): seq<Txn> {
    if actions == [] then [] else
      var before := actions[..|actions| - 1];
      CommitOrder(before) + Committed(Interleave(IDLE, before), actions[|actions| - 1])
  }

  lemma CommittedIsLawful(s: System, action: Action)
    requires ClientsChecked(s)
    ensures AllLawful(Committed(s, action))
  {
    if action.Commit? && action.c in s.clients && s.clients[action.c].Validated? {
      assert PendingChecked(s.clients[action.c]);
    }
  }

  lemma NextIsCommitted(s: System, action: Action)
    ensures Next(s, action).db == s.db || exists x :: Committed(s, action) == [x] && Next(s, action).db == After(s.db, x)
    ensures Committed(s, action) == [] ==> Next(s, action).db == s.db
  {
    if Committed(s, action) != [] {
      var x := Committed(s, action)[0];
      assert Committed(s, action) == [x] && Next(s, action).db == After(s.db, x);
    }
  }

  lemma ExecCommitted(s: System, action: Action)
    ensures Next(s, action).db == Exec(s.db, Committed(s, action))
  {
    NextIsCommitted(s, action);
    if Committed(s, action) != [] {
      var x := Committed(s, action)[0];
      assert Committed(s, action) == [x] && [x][..0] == [];
      assert Next(s, action).db == After(s.db, x);
    }
  }

  /** An interleaving of clients is a run of lawful transactions: the ones it committed. */
  lemma {:induction false} CommitsAreLawful(actions: seq<Action>)
    ensures AllLawful(CommitOrder(actions)) && Interleave(IDLE, actions).db == Exec(EMPTY, CommitOrder(actions))
    ensures ClientsChecked(Interleave(IDLE, actions))
  {
    if actions != [] {
      var earlier := actions[..|actions| - 1];
      var s := Interleave(IDLE, earlier);
      var action := actions[|actions| - 1];
      CommitsAreLawful(earlier);
      CheckedAfter(s, action);
      CommittedIsLawful(s, action);
      ExecCommitted(s, action);
      ExecAppend(EMPTY, CommitOrder(earlier), Committed(s, action));
    }
  }

  lemma InterleaveMore(before: seq<Action>, action: Action)
    ensures Interleave(IDLE, before + [action]) == Next(Interleave(IDLE, before), action)
    ensures CommitOrder(before + [action]) == CommitOrder(before) + Committed(Interleave(IDLE, before), action)
  {
    assert (before + [action])[..|before|] == before;
  }

  /** A longer interleaving commits on top of what its beginning committed. */
  lemma {:induction false} CommitOrderGrows(before: seq<Action>, more: seq<Action>)
    ensures CommitOrder(before) <= CommitOrder(before + more)
  {
    if more == [] {
      assert before + more == before;
    } else {
      var n := |more| - 1;
      CommitOrderGrows(before, more[..n]);
      assert before + more == before + more[..n] + [more[n]];
      InterleaveMore(before + more[..n], more[n]);
    }
  }

  /**
    Stale writers are harmless: after any interleaving the log still rebuilds the tables, the row
    invariants hold, and every task's and attempt's recorded history is a path of the table.
   */
  lemma StaleWritersAreHarmless(actions: seq<Action>)
    ensures var db := Interleave(IDLE, actions).db;
            && Valid(db) && Faithful(db)
            && (forall t :: t in db.tasks ==>
                  IsPath(TaskHistory(db.log, t)) && EndsIn(TaskHistory(db.log, t), db.tasks[t].status))
            && (forall a :: a in db.attempts ==>
                  IsPath(AttemptHistory(db.log, a)) && EndsIn(AttemptHistory(db.log, a), db.attempts[a].status))
  {
    var xs := CommitOrder(actions);
    CommitsAreLawful(actions);
    RunsStayValid(xs);
    LogIsEventSource(xs);
    HistoriesFollowTheTable(xs);
  }

  /**
    However stale the readers are: a terminal status is never left, a terminal attempt's row is
    never written, and no attempt row changes once a newer generation of its task exists.
   */
  lemma StaleWritersCannotRevive(before: seq<Action>, more: seq<Action>)
    ensures var db, d := Interleave(IDLE, before).db, Interleave(IDLE, before + more).db;
            && (forall t :: t in db.tasks && db.tasks[t].status in TERMINAL ==>
                  t in d.tasks && d.tasks[t].status == db.tasks[t].status)
            && (forall a :: a in db.attempts && db.attempts[a].status in TERMINAL ==>
                  a in d.attempts && d.attempts[a] == db.attempts[a])
            && (forall a :: Superseded(db, a) ==> a in d.attempts && d.attempts[a] == db.attempts[a])
            && db.log <= d.log
  {
    hide After, Next;
    var xs := CommitOrder(before);
    CommitOrderGrows(before, more);
    var ys := CommitOrder(before + more)[|xs|..];
    assert CommitOrder(before + more) == xs + ys;
    CommitsAreLawful(before);
    CommitsAreLawful(before + more);
    NothingRevives(xs, ys);
  }

  /** The same of any two stretches of validated calls, one after the other. */
  lemma NothingRevives(xs: seq<Txn>, ys: seq<Txn>)
    requires AllLawful(xs + ys)
    ensures var db, d := Exec(EMPTY, xs), Exec(EMPTY, xs + ys);
            && (forall t :: t in db.tasks && db.tasks[t].status in TERMINAL ==>
                  t in d.tasks && d.tasks[t].status == db.tasks[t].status)
            && (forall a :: a in db.attempts && db.attempts[a].status in TERMINAL ==>
                  a in d.attempts && d.attempts[a] == db.attempts[a])
            && (forall a :: Superseded(db, a) ==> a in d.attempts && d.attempts[a] == db.attempts[a])
            && db.log <= d.log
  {
    hide After, Lawful;
    ExecAppend(EMPTY, xs, ys);
    assert forall x :: x in xs || x in ys ==> x in xs + ys;
    TerminalIsForever(Exec(EMPTY, xs), ys);
    LogIsAppendOnly(Exec(EMPTY, xs), ys);
    forall a | Superseded(Exec(EMPTY, xs), a)
      ensures a in Exec(EMPTY, xs + ys).attempts && Exec(EMPTY, xs + ys).attempts[a] == Exec(EMPTY, xs).attempts[a]
    {
      SupersededIsFrozen(xs, ys, a);
    }
  }

  /**
    A validated fenced write succeeds exactly when, at the moment it commits, the status is still
    the one that was read and the attempt is still the current one with that generation.
   */
  lemma FencedCommit(s: System, c: nat, at: string)
    requires c in s.clients && s.clients[c].Validated?
    ensures var p := s.clients[c];
            var ok := Run(s.db, Write(p.call, p.status, at)).Ok?;
            match p.call
            case MoveTask(t, _, a, g) =>
              ok <==>
                && t in s.db.tasks && s.db.tasks[t].status == p.status
                && (a.Some? ==>
                      && s.db.tasks[t].current == a && a.value in s.db.attempts
                      && s.db.attempts[a.value].taskId == t && g == Some(s.db.attempts[a.value].generation))
            case MoveAttempt(t, a, g, _, _, _) =>
              ok <==>
                && a in s.db.attempts && s.db.attempts[a].status == p.status
                && s.db.attempts[a].taskId == t && s.db.attempts[a].generation == g
                && t in s.db.tasks && s.db.tasks[t].current == Some(a)
            case NewAttempt(t, a, _, _, g) =>
              ok <==> t in s.db.tasks && a !in s.db.attempts
                      && (g.Some? ==> g.value == MaxOrZero(Generations(s.db.attempts, t)) + 1)
  {
  }

  /** The commit adds attempt a to a task that is finished. */
  predicate AddsToFinished(db: Db, t: string, a: string, d: Db) {
    a !in db.attempts && a in d.attempts && d.attempts[a].taskId == t && t in d.tasks && d.tasks[t].status in TERMINAL
  }

  /**
    Exactly when a validated create_attempt puts an attempt on a finished task: the task has become
    terminal by the time it commits, the id is fresh and the generation is absent or still the next.
    As long as the task is not terminal at the commit, it never does.
   */
  lemma AttemptOnFinishedExactlyWhen(s: System, c: nat, at: string)
    requires c in s.clients && s.clients[c].Validated? && s.clients[c].call.NewAttempt?
    ensures var call := s.clients[c].call;
            AddsToFinished(s.db, call.t, call.a, Next(s, Commit(c, at)).db) <==>
              && call.t in s.db.tasks && s.db.tasks[call.t].status in TERMINAL
              && call.a !in s.db.attempts && TaskPolicy.IsNext(s.db, call.t, call.gen)
  {
    var call := s.clients[c].call;
    assert Write(call, s.clients[c].status, at) == TxCreateAttempt(call.t, call.a, call.worker, call.channel, at, call.gen);
    CommitRuns(s, c, at);
    CreateAttemptAnyway(s.db, call.t, call.a, call.worker, call.channel, at, call.gen);
  }

  lemma CommitRuns(s: System, c: nat, at: string)
    requires c in s.clients && s.clients[c].Validated?
    ensures Next(s, Commit(c, at)).db == After(s.db, Write(s.clients[c].call, s.clients[c].status, at))
  {
    hide After;
  }

  /** The repository transaction itself does not look at the task's status. */
  lemma CreateAttemptAnyway(db: Db, t: string, a: string, worker: string, channel: Option<string>, at: string, g: Option<int>)
    ensures var d := After(db, TxCreateAttempt(t, a, worker, channel, at, g));
            AddsToFinished(db, t, a, d) <==>
              t in db.tasks && db.tasks[t].status in TERMINAL && a !in db.attempts && TaskPolicy.IsNext(db, t, g)
  {
    hide MaxOrZero;
  }

  /**
    An instance: create_attempt checks for a terminal task only before its transaction. A client that read the
    task while it was CREATED still gets its attempt in after another client cancelled the task.
   */
  lemma AttemptOnFinishedTask(env: Envelope) returns (actions: seq<Action>)
    ensures var db := Interleave(IDLE, actions).db;
            && env.taskId in db.tasks && db.tasks[env.taskId].status == CANCELLED
            && db.tasks[env.taskId].current == Some("A-1")
            && "A-1" in db.attempts && db.attempts["A-1"].status == ASSIGNED
  {
    var t := env.taskId;
    actions := BothValidated(env);
    hide Interleave;
    var s4 := AfterAction(actions, Commit(1, ""));
    actions := actions + [Commit(1, "")];
    assert s4.db.tasks[t].status == CANCELLED && s4.db.attempts == map[];
    assert s4.clients[0] == Validated(Late(t), CREATED);
    var s5 := AfterAction(actions, Commit(0, ""));
    actions := actions + [Commit(0, "")];
    assert s5.db == After(s4.db, TxCreateAttempt(t, "A-1", "pc-main", None, "", None));
  }

  function Late(t: string): Call {
    NewAttempt(t, "A-1", "pc-main", None, None)
  }

  /** One client about to create an attempt and another about to cancel, both having read CREATED. */
  lemma BothValidated(env: Envelope) returns (actions: seq<Action>)
    ensures var s := Interleave(IDLE, actions);
            && env.taskId in s.db.tasks && s.db.tasks[env.taskId].status == CREATED && s.db.attempts == map[]
            && s.clients == map[0 := Validated(Late(env.taskId), CREATED),
                                1 := Validated(MoveTask(env.taskId, CANCELLED, None, None), CREATED)]
  {
    var t := env.taskId;
    actions := [];
    var s1 := AfterAction(actions, Direct(TxCreateTask(env, "")));
    actions := actions + [Direct(TxCreateTask(env, ""))];
    assert s1.db.tasks[t].status == CREATED && s1.db.attempts == map[] && s1.clients == map[];
    hide Interleave;
    var s2 := AfterAction(actions, Start(0, Late(t)));
    actions := actions + [Start(0, Late(t))];
    assert s2 == System(s1.db, map[0 := Validated(Late(t), CREATED)]);
    var s3 := AfterAction(actions, Start(1, MoveTask(t, CANCELLED, None, None)));
    actions := actions + [Start(1, MoveTask(t, CANCELLED, None, None))];
  }

  lemma AfterAction(before: seq<Action>, action: Action) returns (s: System)
    ensures s == Next(Interleave(IDLE, before), action) == Interleave(IDLE, before + [action])
  {
    InterleaveMore(before, action);
    s := Next(Interleave(IDLE, before), action);
  }
}
