/**
  What a fencing token is worth: one client alone does what TaskPolicy says, and in every
  interleaving the only attempt whose token moves a status is the newest one of its task.
 */
module Fencing {
  import opened Prelude
  import opened Records
  import opened Repositories
  import opened EventLog
  import opened Lifecycle
  import opened StaleWriters
  import TaskPolicy

  // ---- one client alone

  /** What a call of TaskService does when nothing comes between its reads and its commit. */
  function Uninterrupted(db: Db, call: Call, at: string): Result<Db> {
    match call
    case MoveTask(t, target, a, g) => TaskPolicy.TransitionTask(db, t, target, at, a, g)
    case MoveAttempt(t, a, g, target, failure, message) =>
      TaskPolicy.TransitionAttempt(db, t, a, g, target, at, failure, message)
    case NewAttempt(t, a, worker, channel, g) => TaskPolicy.CreateAttempt(db, t, a, worker, channel, at, g)
  }

  function Committing(db: Db, r: Result<Db>): Db {
    match r
    case Ok(d) => d
    case Err(_) => db
  }

  /** What the client remembers after its reads. */
  function Validates(db: Db, call: Call): Option<Pending> {
    var first := Begin(db, call);
    if first.None? then None
    else
      var second := Proceed(db, first.value);
      if second.None? then None else Proceed(db, second.value)
  }

  /** It gets through its checks exactly when the uninterrupted call comes to its transaction. */
  lemma ValidatedCommits(db: Db, call: Call, at: string)
    ensures match Validates(db, call)
            case None => Uninterrupted(db, call, at).Err?
            case Some(p) => p.Validated? && p.call == call && Uninterrupted(db, call, at) == Run(db, Write(call, p.status, at))
  {
    hide Repositories.Transition, Repositories.TransitionAttempt, Repositories.CreateAttempt;
  }

  lemma ReadsOnly(s: System, c: nat, call: Call)
    requires c !in s.clients
    ensures Next(Next(Next(s, Start(c, call)), Continue(c)), Continue(c)) == Remember(s, c, Validates(s.db, call))
  {
    hide Begin, Proceed;
    assert s.clients - {c} == s.clients;
  }

  /**
    A client that nobody interrupts does exactly what the uninterrupted call does: it commits its
    result, or nothing when that raises, and remembers nothing afterwards.
   */
  lemma AloneIsUninterrupted(s: System, c: nat, call: Call, at: string)
    requires c !in s.clients
    ensures var v := Next(Next(Next(Next(s, Start(c, call)), Continue(c)), Continue(c)), Commit(c, at));
            v.db == Committing(s.db, Uninterrupted(s.db, call, at)) && v.clients == s.clients
  {
    hide Repositories.Run, Begin, Proceed;
    var p := Validates(s.db, call);
    ReadsOnly(s, c, call);
    ValidatedCommits(s.db, call, at);
    assert Remember(s, c, p).clients - {c} == s.clients;
  }

  // ---- the newest attempt

  /** The row that created the latest attempt of t. */
  function Newest(log: seq<EventRow>, t: string): Option<EventRow> {
    if log == [] then None
    else
      var row := log[|log| - 1];
      if row.taskId == t && row.event.AttemptCreated? then Some(row) else Newest(log[..|log| - 1], t)
  }

  lemma GrowNewest(log: seq<EventRow>, row: EventRow, t: string)
    ensures Newest(log + [row], t) == if row.taskId == t && row.event.AttemptCreated? then Some(row) else Newest(log, t)
  {
    assert (log + [row])[..|log|] == log;
  }

  /** The attempt and the generation that the newest creation row of t names. */
  predicate NewestIs(log: seq<EventRow>, t: string, a: string, g: int) {
    var row := Newest(log, t);
    row.Some? && row.value.attempt == Some(a) && row.value.event.AttemptCreated? && row.value.event.generation == g
  }

  /** The current attempt of a task is the one created last. */
  ghost predicate CurrentIsNewest(db: Db, t: string) {
    && (t !in db.tasks || db.tasks[t].current.None? ==> Newest(db.log, t).None?)
    && (t in db.tasks && db.tasks[t].current.Some? ==>
          var a := db.tasks[t].current.value;
          a in db.attempts && NewestIs(db.log, t, a, db.attempts[a].generation))
  }

  /** A status row that names an attempt names the newest one; if it carries a generation, its generation. */
  predicate TokenIsNewest(log: seq<EventRow>, i: nat)
    requires i < |log|
  {
    match log[i].event
    case TaskStatusChanged(_, _) =>
      log[i].attempt.Some? ==>
        Newest(log[..i], log[i].taskId).Some? && Newest(log[..i], log[i].taskId).value.attempt == log[i].attempt
    case AttemptStatusChanged(_, _, g, _) =>
      log[i].attempt.Some? && NewestIs(log[..i], log[i].taskId, log[i].attempt.value, g)
    case _ => true
  }

  ghost predicate TokensAreNewest(db: Db) {
    && (forall t :: CurrentIsNewest(db, t))
    && (forall i :: 0 <= i < |db.log| ==> TokenIsNewest(db.log, i))
  }

  lemma GrowTokens(log: seq<EventRow>, row: EventRow)
    requires forall i :: 0 <= i < |log| ==> TokenIsNewest(log, i)
    requires row.event.TaskStatusChanged? && row.attempt.Some? ==>
               Newest(log, row.taskId).Some? && Newest(log, row.taskId).value.attempt == row.attempt
    requires row.event.AttemptStatusChanged? ==>
               row.attempt.Some? && NewestIs(log, row.taskId, row.attempt.value, row.event.generation)
    ensures forall i :: 0 <= i < |log| + 1 ==> TokenIsNewest(log + [row], i)
  {
    var more := log + [row];
    forall i | 0 <= i < |more| ensures TokenIsNewest(more, i) {
      if i < |log| {
        assert TokenIsNewest(log, i) && more[..i] == log[..i];
      } else {
        assert more[..i] == log;
      }
    }
  }

  /** The fence at the commit: the row's attempt is the current one of its task, with its generation. */
  predicate RowIsFenced(db: Db, row: EventRow) {
    match row.event
    case AttemptCreated(_, _, _, _) => false
    case TaskStatusChanged(_, _) => row.attempt.Some? ==> row.taskId in db.tasks && db.tasks[row.taskId].current == row.attempt
    case AttemptStatusChanged(_, _, g, _) =>
      && row.attempt.Some? && row.taskId in db.tasks && db.tasks[row.taskId].current == row.attempt
      && row.attempt.value in db.attempts && db.attempts[row.attempt.value].generation == g
    case _ => true
  }

  lemma RowsAreFenced(db: Db, x: Txn)
    requires !x.TxCreateAttempt?
    ensures var log := After(db, x).log;
            forall i :: |db.log| <= i < |log| ==> RowIsFenced(db, log[i])
  {
  }

  /** One more row that creates no attempt. */
  lemma GrowFenced(db: Db, log: seq<EventRow>, row: EventRow)
    requires TokensAreNewest(db) && RowIsFenced(db, row)
    requires forall t :: Newest(log, t) == Newest(db.log, t)
    requires forall i :: 0 <= i < |log| ==> TokenIsNewest(log, i)
    ensures forall t :: Newest(log + [row], t) == Newest(db.log, t)
    ensures forall i :: 0 <= i < |log| + 1 ==> TokenIsNewest(log + [row], i)
  {
    forall t ensures Newest(log + [row], t) == Newest(db.log, t) {
      GrowNewest(log, row, t);
    }
    assert CurrentIsNewest(db, row.taskId);
    GrowTokens(log, row);
  }

  lemma LogStaysFenced(db: Db, x: Txn)
    requires TokensAreNewest(db) && !x.TxCreateAttempt?
    ensures var log := After(db, x).log;
            && (forall t :: Newest(log, t) == Newest(db.log, t))
            && (forall i :: 0 <= i < |log| ==> TokenIsNewest(log, i))
  {
    hide After, TokenIsNewest, RowIsFenced, CurrentIsNewest;
    var log := After(db, x).log;
    AppendsRows(db, x);
    FewRows(db, x);
    RowsAreFenced(db, x);
    if |log| == |db.log| + 1 {
      assert log == db.log + [log[|db.log|]];
      GrowFenced(db, db.log, log[|db.log|]);
    } else if |log| == |db.log| + 2 {
      var mid := db.log + [log[|db.log|]];
      assert log == mid + [log[|db.log| + 1]];
      GrowFenced(db, db.log, log[|db.log|]);
      GrowFenced(db, mid, log[|db.log| + 1]);
    }
  }

  lemma CurrentStays(db: Db, x: Txn, t: string)
    requires !x.TxCreateAttempt?
    ensures var d := After(db, x);
            && (t in db.tasks ==> t in d.tasks && d.tasks[t].current == db.tasks[t].current)
            && (t in d.tasks && t !in db.tasks ==> d.tasks[t].current.None?)
  {
  }

  lemma OtherTokens(db: Db, x: Txn)
    requires TokensAreNewest(db) && !x.TxCreateAttempt?
    ensures TokensAreNewest(After(db, x))
  {
    hide After, TokenIsNewest;
    var d := After(db, x);
    LogStaysFenced(db, x);
    forall t ensures CurrentIsNewest(d, t) {
      CurrentStays(db, x, t);
      assert CurrentIsNewest(db, t);
      if t in db.tasks && db.tasks[t].current.Some? {
        GenerationKept(db, x, db.tasks[t].current.value);
      }
    }
  }

  lemma CreatedTokens(db: Db, x: Txn)
    requires TokensAreNewest(db) && x.TxCreateAttempt?
    ensures TokensAreNewest(After(db, x))
  {
    hide TokenIsNewest, MaxOrZero;
    var d := After(db, x);
    if Run(db, x).Ok? {
      var row := d.log[|db.log|];
      assert d.log == db.log + [row] && row.event.AttemptCreated?;
      GrowTokens(db.log, row);
      forall t ensures CurrentIsNewest(d, t) {
        GrowNewest(db.log, row, t);
        assert CurrentIsNewest(db, t);
      }
    }
  }

  lemma {:induction false} TokensStayNewest(xs: seq<Txn>)
    ensures TokensAreNewest(Exec(EMPTY, xs))
  {
    if xs != [] {
      var n := |xs| - 1;
      TokensStayNewest(xs[..n]);
      if xs[n].TxCreateAttempt? {
        CreatedTokens(Exec(EMPTY, xs[..n]), xs[n]);
      } else {
        OtherTokens(Exec(EMPTY, xs[..n]), xs[n]);
      }
    }
  }

  // ---- what that means in the log

  /** Row k creates an attempt of task t. */
  predicate Creates(log: seq<EventRow>, k: nat, t: string) {
    k < |log| && log[k].event.AttemptCreated? && log[k].taskId == t
  }

  lemma {:induction false} NewestRow(log: seq<EventRow>, t: string)
    ensures Newest(log, t).None? ==> forall k: nat :: !Creates(log, k, t)
    ensures Newest(log, t).Some? ==>
              exists k: nat :: Creates(log, k, t) && log[k] == Newest(log, t).value && forall l: nat :: k < l ==> !Creates(log, l, t)
  {
    if log != [] {
      var n := |log| - 1;
      NewestRow(log[..n], t);
      assert forall k: nat :: k < n ==> (Creates(log, k, t) <==> Creates(log[..n], k, t));
      if Creates(log, n, t) {
        assert forall l: nat :: n < l ==> !Creates(log, l, t);
      } else if Newest(log, t).Some? {
        var k: nat :| Creates(log[..n], k, t) && log[..n][k] == Newest(log[..n], t).value
                      && forall l: nat :: k < l ==> !Creates(log[..n], l, t);
        assert Creates(log, k, t) && log[k] == Newest(log, t).value;
      }
    }
  }

  /** Row j changes a status in the name of an attempt. */
  predicate MovesFor(log: seq<EventRow>, j: nat, a: string) {
    && j < |log| && log[j].attempt == Some(a)
    && (log[j].event.TaskStatusChanged? || log[j].event.AttemptStatusChanged?)
  }

  /**
    In every interleaving of clients, however stale: a row that moves the status of a task or an
    attempt in the name of attempt a comes after the row that created a, with no other attempt of
    that task created in between; the generation it carries is the one a was created with. A
    superseded attempt's token never moves anything.
   */
  lemma OnlyTheNewestMoves(actions: seq<Action>, j: nat, a: string)
    requires MovesFor(Interleave(IDLE, actions).db.log, j, a)
    ensures var log := Interleave(IDLE, actions).db.log;
            exists k: nat ::
              && k < j && log[k].event.AttemptCreated? && log[k].taskId == log[j].taskId && log[k].attempt == Some(a)
              && (log[j].event.AttemptStatusChanged? ==> log[j].event.generation == log[k].event.generation)
              && forall i: nat :: k < i < j && log[i].event.AttemptCreated? ==> log[i].taskId != log[j].taskId
  {
    hide Interleave, CommitOrder;
    CommitsAreLawful(actions);
    TokensStayNewest(CommitOrder(actions));
    var log := Interleave(IDLE, actions).db.log;
    var t := log[j].taskId;
    assert TokenIsNewest(log, j);
    NewestRow(log[..j], t);
    var k: nat :| Creates(log[..j], k, t) && log[..j][k] == Newest(log[..j], t).value
                  && forall l: nat :: k < l ==> !Creates(log[..j], l, t);
    assert forall i: nat :: k < i < j && log[i].event.AttemptCreated? && log[i].taskId == t ==> Creates(log[..j], i, t);
  }

  /** Put the other way round: after another attempt of the task was created, the token of the earlier one is dead. */
  lemma SupersededTokensAreDead(actions: seq<Action>, k: nat, i: nat, j: nat, a: string, b: string)
    requires var log := Interleave(IDLE, actions).db.log;
             && k < i < j < |log| && log[k].taskId == log[i].taskId == log[j].taskId
             && log[k].event.AttemptCreated? && log[k].attempt == Some(a)
             && log[i].event.AttemptCreated? && log[i].attempt == Some(b)
    ensures a != b && !MovesFor(Interleave(IDLE, actions).db.log, j, a)
  {
    hide Interleave, CommitOrder;
    var log := Interleave(IDLE, actions).db.log;
    CommitsAreLawful(actions);
    RunsCreatedOnce(CommitOrder(actions));
    CreatedTwice(log, k, i, a);
    if MovesFor(log, j, a) {
      OnlyTheNewestMoves(actions, j, a);
      var l: nat :|
        && l < j && log[l].event.AttemptCreated? && log[l].taskId == log[j].taskId && log[l].attempt == Some(a)
        && forall i: nat :: l < i < j && log[i].event.AttemptCreated? ==> log[i].taskId != log[j].taskId;
      assert l >= i;
      CreatedTwice(log, k, l, a);
    }
  }

  /** No attempt is created twice. */
  lemma CreatedTwice(log: seq<EventRow>, k: nat, l: nat, a: string)
    requires CreatedOnce(log) && k < l < |log|
    requires log[k].event.AttemptCreated? && log[k].attempt == Some(a) && log[l].event.AttemptCreated?
    ensures log[l].attempt != Some(a)
  {
    if log[l].attempt == Some(a) {
      assert AttemptHistory(log[..l], a) == [];
      HistoryHolds(log[..l], k, a);
    }
  }

  lemma {:induction false} HistoryHolds(log: seq<EventRow>, k: nat, a: string)
    requires k < |log| && log[k].event.AttemptCreated? && log[k].attempt == Some(a)
    ensures AttemptHistory(log, a) != []
  {
    var n := |log| - 1;
    if k < n {
      HistoryHolds(log[..n], k, a);
    }
  }
}
