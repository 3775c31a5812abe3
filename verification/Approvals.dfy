/** The approval sub-protocol: WAITING_APPROVAL and PENDING rows go together. */
module Approvals {
  import opened Prelude
  import opened Records
  import opened StateMachine
  import opened Repositories
  import opened Lifecycle

  predicate Pending(db: Db, p: string, t: string) {
    p in db.approvals && db.approvals[p].taskId == t && db.approvals[p].status == PENDING
  }

  ghost predicate Awaited(db: Db, t: string) {
    exists p :: Pending(db, p, t)
  }

  /** A waiting task has exactly one pending approval, any other unfinished task has none. */
  ghost predicate Matched(db: Db) {
    && (forall t, p, q :: Pending(db, p, t) && Pending(db, q, t) ==> p == q)
    && (forall t :: t in db.tasks && db.tasks[t].status == WAITING_APPROVAL ==> Awaited(db, t))
    && (forall t, p :: Pending(db, p, t) ==>
          t in db.tasks && (db.tasks[t].status == WAITING_APPROVAL || db.tasks[t].status in TERMINAL))
  }

  /**
    A plain transition puts a task into WAITING_APPROVAL, or takes it out without ending it. The
    table allows both; request_and_wait and decide are the calls meant to do it.
   */
  predicate Bypasses(db: Db, x: Txn) {
    && x.TxTransition? && Run(db, x).Ok?
    && (x.target == WAITING_APPROVAL || (x.expected == WAITING_APPROVAL && x.target !in TERMINAL))
  }

  /** One call keeps waiting tasks and pending approvals matched exactly when it bypasses no approval. */
  lemma MatchedAfter(db: Db, x: Txn)
    requires Matched(db) && Lawful(x)
    ensures Matched(After(db, x)) <==> !Bypasses(db, x)
  {
    if Run(db, x).Ok? {
      match x
      case TxTransition(_, _, _, _, _, _) => MatchedTransition(db, x);
      case TxRequestApproval(_, _) => MatchedRequest(db, x);
      case TxDecideApproval(_, _, _, _) => MatchedDecide(db, x);
      case _ => MatchedElsewhere(db, x);
    }
  }

  lemma MatchedElsewhere(db: Db, x: Txn)
    requires Matched(db) && !x.TxTransition? && !x.TxRequestApproval? && !x.TxDecideApproval?
    ensures Matched(After(db, x))
  {
    var d := After(db, x);
    SameApprovals(db, x);
    assert forall p, t :: Pending(d, p, t) <==> Pending(db, p, t);
    forall t | t in d.tasks && d.tasks[t].status == WAITING_APPROVAL ensures Awaited(d, t) {
      assert t in db.tasks;
      var p :| Pending(db, p, t);
      assert Pending(d, p, t);
    }
  }

  lemma SameApprovals(db: Db, x: Txn)
    requires !x.TxTransition? && !x.TxRequestApproval? && !x.TxDecideApproval?
    ensures After(db, x).approvals == db.approvals
    ensures forall t :: t in db.tasks ==> t in After(db, x).tasks && After(db, x).tasks[t].status == db.tasks[t].status
    ensures forall t :: t in After(db, x).tasks && t !in db.tasks ==> After(db, x).tasks[t].status == CREATED
  {
  }

  lemma MatchedTransition(db: Db, x: Txn)
    requires Matched(db) && x.TxTransition? && Run(db, x).Ok? && Lawful(x)
    ensures Matched(After(db, x)) <==> !Bypasses(db, x)
  {
    var d := After(db, x);
    TerminalIffStuck(x.expected);
    assert forall p, t :: Pending(d, p, t) <==> Pending(db, p, t);
    if !Bypasses(db, x) {
      forall t | t in d.tasks && d.tasks[t].status == WAITING_APPROVAL ensures Awaited(d, t) {
        var p :| Pending(db, p, t);
        assert Pending(d, p, t);
      }
    } else if x.target != WAITING_APPROVAL {
      var p :| Pending(db, p, x.t);
      assert Pending(d, p, x.t);
    } else {
      assert x.expected == RUNNING && d.tasks[x.t].status == WAITING_APPROVAL;
      assert forall p :: !Pending(d, p, x.t);
      assert !Awaited(d, x.t);
    }
  }

  lemma MatchedRequest(db: Db, x: Txn)
    requires Matched(db) && x.TxRequestApproval? && Run(db, x).Ok?
    ensures Matched(After(db, x))
  {
    var d := After(db, x);
    var u := x.approval.taskId;
    assert forall p, t :: Pending(d, p, t) <==> Pending(db, p, t) || (p == x.id && t == u);
    assert Pending(d, x.id, u);
    forall t | t in d.tasks && d.tasks[t].status == WAITING_APPROVAL ensures Awaited(d, t) {
      if t != u {
        var p :| Pending(db, p, t);
        assert Pending(d, p, t);
      }
    }
  }

  lemma MatchedDecide(db: Db, x: Txn)
    requires Matched(db) && x.TxDecideApproval? && Run(db, x).Ok?
    ensures Matched(After(db, x))
  {
    var d := After(db, x);
    var u := db.approvals[x.id].taskId;
    assert Pending(db, x.id, u);
    assert forall p, t :: Pending(d, p, t) <==> Pending(db, p, t) && p != x.id;
    forall t | t in d.tasks && d.tasks[t].status == WAITING_APPROVAL ensures Awaited(d, t) {
      var p :| Pending(db, p, t);
      assert Pending(d, p, t);
    }
  }

  /** No call of the sequence bypasses an approval. */
  ghost predicate NeverBypassed(xs: seq<Txn>) {
    forall i :: 0 <= i < |xs| ==> !Bypasses(Exec(EMPTY, xs[..i]), xs[i])
  }

  /**
    As long as WAITING_APPROVAL is entered by a request and left by a decision or for good, a
    waiting task has exactly one pending approval and no running one has any.
   */
  lemma {:induction false} ApprovalsMatch(xs: seq<Txn>)
    requires AllLawful(xs) && NeverBypassed(xs)
    ensures Matched(Exec(EMPTY, xs))
  {
    if xs != [] {
      var n := |xs| - 1;
      assert forall i :: 0 <= i < n ==> xs[..n][..i] == xs[..i];
      assert !Bypasses(Exec(EMPTY, xs[..n]), xs[n]);
      ApprovalsMatch(xs[..n]);
      MatchedAfter(Exec(EMPTY, xs[..n]), xs[n]);
    }
  }

  lemma DecidedKept(db: Db, x: Txn)
    ensures forall p :: p in db.approvals && db.approvals[p].status != PENDING ==>
                          p in After(db, x).approvals && After(db, x).approvals[p] == db.approvals[p]
  {
  }

  /** Each approval is decided once: the verdict, its time and its author never change afterwards. */
  lemma {:induction false} DecidedOnce(db: Db, xs: seq<Txn>)
    ensures forall p :: p in db.approvals && db.approvals[p].status != PENDING ==>
                          p in Exec(db, xs).approvals && Exec(db, xs).approvals[p] == db.approvals[p]
  {
    if xs != [] {
      DecidedOnce(db, xs[..|xs| - 1]);
      DecidedKept(Exec(db, xs[..|xs| - 1]), xs[|xs| - 1]);
    }
  }

  /**
    A request goes through exactly for a RUNNING task, a PENDING approval and a fresh id. The task
    then waits, the approval is stored undecided, and no other row changes.
   */
  lemma RequestMeaning(db: Db, id: string, approval: Approval)
    ensures RequestApproval(db, id, approval).Ok? <==>
              && approval.status == PENDING && approval.taskId in db.tasks
              && db.tasks[approval.taskId].status == RUNNING && id !in db.approvals
    ensures RequestApproval(db, id, approval).Ok? ==>
              var d := RequestApproval(db, id, approval).value;
              var t := approval.taskId;
              && d.tasks == db.tasks[t := db.tasks[t].(status := WAITING_APPROVAL, updatedAt := approval.requestedAt)]
              && d.approvals == db.approvals[id := approval.(decidedAt := None, decidedBy := None)]
              && d.log == db.log + [
                   EventRow(t, None, ApprovalRequested(id, approval.action, approval.reason, approval.payload), approval.requestedAt),
                   EventRow(t, None, TaskStatusChanged(RUNNING, WAITING_APPROVAL), approval.requestedAt)]
              && d == db.(tasks := d.tasks, approvals := d.approvals, log := d.log)
    ensures match RequestApproval(db, id, approval)
            case Ok(_) => true
            case Err(e) =>
              e == if approval.status != PENDING then ValueError
                   else if approval.taskId !in db.tasks then TaskNotFound
                   else if db.tasks[approval.taskId].status != RUNNING then StateConflict
                   else DuplicateRecord
  {
  }

  /** A decision goes through exactly when it is one, is signed, and the approval of a known task is still PENDING. */
  lemma DecisionMeaning(db: Db, id: string, verdict: ApprovalStatus, by_: string, at: string)
    ensures DecideApproval(db, id, verdict, by_, at).Ok? <==>
              && verdict in {APPROVED, DENIED} && by_ != ""
              && id in db.approvals && db.approvals[id].status == PENDING && db.approvals[id].taskId in db.tasks
    ensures DecideApproval(db, id, verdict, by_, at).Ok? ==>
              var d := DecideApproval(db, id, verdict, by_, at).value;
              && id in d.approvals && d.approvals == db.approvals[id := d.approvals[id]]
              && d.approvals[id] == db.approvals[id].(status := verdict, decidedAt := Some(at), decidedBy := Some(by_))
              && d.log == db.log
                   + (var u := db.approvals[id].taskId;
                      if db.tasks[u].status == WAITING_APPROVAL
                      then [EventRow(u, None, TaskStatusChanged(WAITING_APPROVAL, if verdict == APPROVED then RUNNING else FAILED), at)]
                      else [])
                   + [EventRow(db.approvals[id].taskId, None, ApprovalDecided(id, verdict, by_), at)]
              && d == db.(tasks := d.tasks, approvals := d.approvals, log := d.log)
    ensures match DecideApproval(db, id, verdict, by_, at)
            case Ok(_) => true
            case Err(e) =>
              e == if verdict == PENDING || by_ == "" then ValueError
                   else if id in db.approvals && db.approvals[id].status != PENDING then StateConflict
                   else TaskNotFound
  {
  }

  /** Deciding an approval moves its task only out of WAITING_APPROVAL; a finished task is left alone. */
  lemma DecisionMovesOnlyWaitingTasks(db: Db, id: string, verdict: ApprovalStatus, by_: string, at: string)
    requires DecideApproval(db, id, verdict, by_, at).Ok?
    ensures var d := DecideApproval(db, id, verdict, by_, at).value;
            var u := db.approvals[id].taskId;
            && d.approvals[id].status == verdict != PENDING
            && (forall t :: t in db.tasks && t != u ==> d.tasks[t] == db.tasks[t])
            && d.tasks[u].status == (if db.tasks[u].status != WAITING_APPROVAL then db.tasks[u].status
                                     else if verdict == APPROVED then RUNNING else FAILED)
            && (db.tasks[u].status in TERMINAL ==> d.tasks == db.tasks)
  {
  }

  /**
    Without that discipline the table lets a task collect a second pending approval, and approving
    the first one then releases a task that waits for the second.
   */
  lemma BypassReleasesTheWrongWait(env: Envelope) returns (xs: seq<Txn>)
    ensures AllLawful(xs)
    ensures var db := Exec(EMPTY, xs);
            && Pending(db, "AP-2", env.taskId)
            && env.taskId in db.tasks && db.tasks[env.taskId].status == RUNNING
            && "AP-1" in db.approvals && db.approvals["AP-1"].status == APPROVED
  {
    var t := env.taskId;
    xs := RunningTask(env);
    xs := AskTwice(xs, t);
    var d := Append(xs, TxDecideApproval("AP-1", APPROVED, "owner", ""));
    xs := xs + [TxDecideApproval("AP-1", APPROVED, "owner", "")];
  }

  lemma AskTwice(before: seq<Txn>, t: string) returns (xs: seq<Txn>)
    requires AllLawful(before)
    requires t in Exec(EMPTY, before).tasks && Exec(EMPTY, before).tasks[t].status == RUNNING
    requires Exec(EMPTY, before).approvals == map[]
    ensures AllLawful(xs)
    ensures var db := Exec(EMPTY, xs);
            && t in db.tasks && db.tasks[t].status == WAITING_APPROVAL
            && Pending(db, "AP-1", t) && Pending(db, "AP-2", t)
  {
    hide Exec;
    var ask := Approval(t, "EXCEED_API_HARD_LIMIT", "limit", Quote("api", "api", 4, 4, 4, 4, [], ["task"]), PENDING, "", None, None);
    var d5 := Append(before, TxRequestApproval("AP-1", ask));
    assert d5.tasks[t].status == WAITING_APPROVAL && d5.approvals == map["AP-1" := ask];
    xs := before + [TxRequestApproval("AP-1", ask)];
    var d6 := Append(xs, TxTransition(t, WAITING_APPROVAL, RUNNING, "", None, None));
    assert d6.tasks[t].status == RUNNING && d6.approvals == d5.approvals;
    xs := xs + [TxTransition(t, WAITING_APPROVAL, RUNNING, "", None, None)];
    var d7 := Append(xs, TxRequestApproval("AP-2", ask));
    xs := xs + [TxRequestApproval("AP-2", ask)];
  }

  lemma Moved(before: seq<Txn>, t: string, from: Status, target: Status) returns (xs: seq<Txn>)
    requires AllLawful(before) && Allowed(from, target) && Exec(EMPTY, before).approvals == map[]
    requires t in Exec(EMPTY, before).tasks && Exec(EMPTY, before).tasks[t].status == from
    ensures AllLawful(xs) && Exec(EMPTY, xs).approvals == map[]
    ensures t in Exec(EMPTY, xs).tasks && Exec(EMPTY, xs).tasks[t].status == target
  {
    hide Exec;
    var d := Append(before, TxTransition(t, from, target, "", None, None));
    xs := before + [TxTransition(t, from, target, "", None, None)];
  }

  lemma RunningTask(env: Envelope) returns (xs: seq<Txn>)
    ensures AllLawful(xs)
    ensures var db := Exec(EMPTY, xs);
            env.taskId in db.tasks && db.tasks[env.taskId].status == RUNNING && db.approvals == map[]
  {
    var d := Append([], TxCreateTask(env, ""));
    xs := Moved([] + [TxCreateTask(env, "")], env.taskId, CREATED, QUEUED);
    xs := Moved(xs, env.taskId, QUEUED, ASSIGNED);
    xs := Moved(xs, env.taskId, ASSIGNED, RUNNING);
  }

  lemma Append(xs: seq<Txn>, x: Txn) returns (d: Db)
    ensures d == Exec(EMPTY, xs + [x]) == After(Exec(EMPTY, xs), x)
  {
    assert (xs + [x])[..|xs|] == xs;
    d := After(Exec(EMPTY, xs), x);
  }
}
