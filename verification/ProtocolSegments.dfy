/** Every durable state inside the stretches of code between two awaits is a resting state. */
module ProtocolSegments {
  import opened Prelude
  import opened Records
  import opened StateMachine
  import opened CheckpointPolicy
  import opened ChannelPolicy
  import opened Effects
  import opened Protocol
  import opened ProtocolStates
  import Repositories
  import TaskPolicy
  import CheckpointNames

  /** The task's statuses, with its attempt and checkpoint pointer. */
  predicate At(c: Config, s: Durable, task: Option<Status>, attempt: Option<Status>, a: Option<string>, pointer: Option<Uri>) {
    T(c, s.db) == task && A(c, s.db) == attempt && Current(c, s.db) == a && Pointer(c, s.db) == pointer
  }

  lemma Advance(c: Config, tr: Trail, e: Effect, at: string, task: Option<Status>, attempt: Option<Status>)
    requires AllRest(c, tr) && !tr.failed && Moves(c, tr.last, e, at, task, attempt)
    requires PairOk(task, attempt) && (task == Some(PAUSED) ==> Pointer(c, tr.last.db).Some?)
    ensures var d := Emit(c, tr, e, at);
            && AllRest(c, d) && !d.failed
            && At(c, d.last, task, attempt, Current(c, tr.last.db), Pointer(c, tr.last.db))
            && d.last.db.artifacts == tr.last.db.artifacts && d.last.disk == tr.last.disk
  {
    MoveRests(c, tr.last, e, at, task, attempt);
  }

  lemma Refused(c: Config, tr: Trail, e: Effect, at: string)
    requires AllRest(c, tr) && (tr.failed || Apply(c.env.taskId, tr.last, e, at).Err?)
    ensures AllRest(c, Emit(c, tr, e, at)) && Emit(c, tr, e, at) == tr.(failed := true)
  {
  }

  predicate Bound(c: Config, s: Durable, run: Run) {
    Current(c, s.db) == Some(run.attempt) && run.generation == 1
  }

  /** d ends where s was, apart from the statuses. */
  predicate Keeps(c: Config, s: Durable, d: Durable) {
    && Current(c, d.db) == Current(c, s.db) && Pointer(c, d.db) == Pointer(c, s.db)
    && d.db.artifacts == s.db.artifacts && d.disk == s.disk
  }

  /** _finish succeeds exactly when the table lets the attempt reach the target; the task then can too. */
  lemma FinishRests(c: Config, tr: Trail, run: Run, target: Status, at: string)
    requires AllRest(c, tr) && Bound(c, tr.last, run) && (target == COMPLETED || target == FAILED)
    ensures var d := Finish(c, tr, run, target, at);
            && AllRest(c, d) && Keeps(c, tr.last, d.last)
            && (d.failed <==> tr.failed || !Allowed(A(c, tr.last.db).value, target))
            && (d.failed ==> d.last == tr.last)
            && (!d.failed ==> T(c, d.last.db) == Some(target) == A(c, d.last.db))
  {
    var one := MoveAttempt(run.attempt, run.generation, target);
    var two := MoveTask(target, run.attempt, run.generation);
    MovesAttempt(c, tr.last, target, run.attempt, at);
    if tr.failed || !Allowed(A(c, tr.last.db).value, target) {
      Refused(c, tr, one, at);
      Refused(c, Emit(c, tr, one, at), two, at);
    } else {
      FinishGoesThrough(c, tr, run, target, at);
    }
  }

  lemma FinishGoesThrough(c: Config, tr: Trail, run: Run, target: Status, at: string)
    requires AllRest(c, tr) && Bound(c, tr.last, run) && (target == COMPLETED || target == FAILED)
    requires !tr.failed && Allowed(A(c, tr.last.db).value, target)
    ensures var d := Finish(c, tr, run, target, at);
            && AllRest(c, d) && !d.failed && Keeps(c, tr.last, d.last)
            && T(c, d.last.db) == Some(target) == A(c, d.last.db)
  {
    var one := MoveAttempt(run.attempt, run.generation, target);
    var two := MoveTask(target, run.attempt, run.generation);
    var task := T(c, tr.last.db);
    TaskCanFollow(task, A(c, tr.last.db), target);
    MovesAttempt(c, tr.last, target, run.attempt, at);
    Advance(c, tr, one, at, task, Some(target));
    var mid := Emit(c, tr, one, at);
    MovesTask(c, mid.last, target, run.attempt, at);
    Advance(c, mid, two, at, Some(target), Some(target));
  }

  lemma TaskCanFollow(task: Option<Status>, attempt: Option<Status>, target: Status)
    requires PairOk(task, attempt) && attempt.Some? && Allowed(attempt.value, target) && target in {COMPLETED, FAILED}
    ensures task.Some? && Allowed(task.value, target) && PairOk(task, Some(target)) && PairOk(Some(target), Some(target))
  {
  }

  /** The exception handler leaves PAUSED alone; anything else it fails, unless the attempt is FAILED already. */
  lemma AbortRests(c: Config, tr: Trail, run: Run, at: string)
    requires AllRest(c, tr) && Bound(c, tr.last, run)
    ensures var d := Abort(c, tr, run, at);
            && AllRest(c, d)
            && Current(c, d.last.db) == Current(c, tr.last.db) && Pointer(c, d.last.db) == Pointer(c, tr.last.db)
            && (T(c, tr.last.db) == Some(PAUSED) ==> d.last == tr.last)
            && (T(c, tr.last.db) != Some(PAUSED) && Allowed(A(c, tr.last.db).value, FAILED) ==>
                  T(c, d.last.db) == Some(FAILED) == A(c, d.last.db))
            && (T(c, tr.last.db) != Some(PAUSED) && !Allowed(A(c, tr.last.db).value, FAILED) ==>
                  T(c, d.last.db) == T(c, tr.last.db) && A(c, d.last.db) == A(c, tr.last.db))
  {
    if T(c, tr.last.db) != Some(PAUSED) {
      var handler := tr.(failed := false);
      MovesNothing(c, handler.last, PluginFailed, run.attempt, at);
      Advance(c, handler, Write(PluginFailed, run.attempt), at, T(c, tr.last.db), A(c, tr.last.db));
      FinishRests(c, Emit(c, handler, Write(PluginFailed, run.attempt), at), run, FAILED, at);
    }
  }

  // ---- claiming and launching

  lemma CreateRests(c: Config, s: Durable, at: string)
    requires Rest(c, s)
    ensures var d := Emit(c, Begin(s), Create(c.env), at);
            && AllRest(c, d)
            && (d.failed <==> T(c, s.db).Some?) && (d.failed ==> d == Begin(s).(failed := true))
            && (!d.failed ==> At(c, d.last, Some(CREATED), None, None, None))
  {
    if T(c, s.db).None? {
      var d := Apply(c.env.taskId, s, Create(c.env), at).value;
      assert forall a :: Of(c, d.db, a) <==> Of(c, s.db, a);
      NoCheckpointsYet(c, s.db, d.db);
    }
  }

  lemma NoAttemptsYet(c: Config, db: Db)
    requires Shape(c, db) && T(c, db).Some? && Current(c, db).None?
    ensures Repositories.AttemptNumbers(db.attempts, c.env.taskId) == {} == Repositories.Generations(db.attempts, c.env.taskId)
  {
    forall a | a in db.attempts ensures db.attempts[a].taskId != c.env.taskId {
      assert !Of(c, db, a);
    }
  }

  lemma OursIsBound(c: Config, db: Db, row: Artifact)
    requires RowOurs(c, db, row)
    ensures Current(c, db).Some?
  {
    var body :| Ours(c, db, row, body);
  }

  lemma NoCheckpointsYet(c: Config, db: Db, d: Db)
    requires RowsOurs(c, db) && Current(c, db).None? && d.artifacts == db.artifacts
    ensures RowsOurs(c, d)
  {
    forall i | 0 <= i < |db.artifacts| && LocalHashed(db.artifacts[i], c.env.taskId) ensures false {
      OursIsBound(c, db, db.artifacts[i]);
    }
  }

  lemma AssignRests(c: Config, tr: Trail, a: string, worker: string, channel: string, at: string)
    requires AllRest(c, tr) && !tr.failed && a != "" && At(c, tr.last, Some(CREATED), None, None, None)
    ensures var d := Emit(c, tr, Assign(a, worker, channel), at);
            && AllRest(c, d)
            && (d.failed ==> d.last == tr.last)
            && (!d.failed ==> At(c, d.last, Some(CREATED), Some(ASSIGNED), Some(a), None))
  {
    var t := c.env.taskId;
    var r := Apply(t, tr.last, Assign(a, worker, channel), at);
    NoAttemptsYet(c, tr.last.db);
    if r.Ok? {
      var d := r.value;
      forall b ensures Of(c, d.db, b) <==> b == a {
        assert !Of(c, tr.last.db, b);
      }
      NoCheckpointsYet(c, tr.last.db, d.db);
    }
  }

  /** Of any number of run commands only one that finds no task gets past the claim. */
  lemma ClaimRests(c: Config, s: Durable, a: string, worker: string, channel: string, at: string)
    requires Rest(c, s) && a != ""
    ensures var d := Claim(c, s, a, worker, channel, at);
            && AllRest(c, d)
            && (T(c, s.db).Some? ==> d == Begin(s).(failed := true))
            && (T(c, s.db).None? ==> T(c, d.last.db) == Some(CREATED))
            && (d.failed && T(c, s.db).None? ==> At(c, d.last, Some(CREATED), None, None, None))
            && (!d.failed ==> At(c, d.last, Some(CREATED), Some(ASSIGNED), Some(a), None))
  {
    CreateRests(c, s, at);
    var created := Emit(c, Begin(s), Create(c.env), at);
    if created.failed {
      Refused(c, created, Assign(a, worker, channel), at);
    } else {
      AssignRests(c, created, a, worker, channel, at);
    }
  }

  /** From the healthcheck on: an ASSIGNED or PAUSED attempt is started, a FAILED one is refused. */
  lemma LaunchRests(c: Config, s: Durable, run: Run, at: string)
    requires Rest(c, s) && Bound(c, s, run) && T(c, s.db) in {Some(CREATED), Some(QUEUED)}
    ensures var d := Launch(c, s, run, at);
            && AllRest(c, d) && (d.failed <==> A(c, s.db) == Some(FAILED))
            && At(c, d.last, Some(RUNNING), if d.failed then Some(FAILED) else Some(RUNNING), Current(c, s.db), Pointer(c, s.db))
            && d.last.db.artifacts == s.db.artifacts && d.last.disk == s.disk
  {
    var a := A(c, s.db);
    MovesPromote(c, s, QUEUED, at);
    if a == None {
      assert false;
    }
    Advance(c, Begin(s), Promote(QUEUED), at, Some(QUEUED), a);
    var queued := Emit(c, Begin(s), Promote(QUEUED), at);
    MovesPromote(c, queued.last, ASSIGNED, at);
    Advance(c, queued, Promote(ASSIGNED), at, Some(ASSIGNED), a);
    var placed := Emit(c, queued, Promote(ASSIGNED), at);
    MovesPromote(c, placed.last, RUNNING, at);
    Advance(c, placed, Promote(RUNNING), at, Some(RUNNING), a);
    StartRests(c, Emit(c, placed, Promote(RUNNING), at), run, at);
  }

  lemma StartRests(c: Config, tr: Trail, run: Run, at: string)
    requires AllRest(c, tr) && !tr.failed && Bound(c, tr.last, run) && T(c, tr.last.db) == Some(RUNNING)
    requires A(c, tr.last.db) in {Some(ASSIGNED), Some(PAUSED), Some(FAILED)}
    ensures var d := Emit(c, Emit(c, tr, MoveAttempt(run.attempt, run.generation, RUNNING), at),
                          Write(PluginStarted(c.env.plugin), run.attempt), at);
            && AllRest(c, d) && (d.failed <==> A(c, tr.last.db) == Some(FAILED))
            && At(c, d.last, Some(RUNNING), if d.failed then Some(FAILED) else Some(RUNNING),
                  Current(c, tr.last.db), Pointer(c, tr.last.db))
            && d.last.db.artifacts == tr.last.db.artifacts && d.last.disk == tr.last.disk
  {
    var move := MoveAttempt(run.attempt, run.generation, RUNNING);
    var note := Write(PluginStarted(c.env.plugin), run.attempt);
    MovesAttempt(c, tr.last, RUNNING, run.attempt, at);
    if A(c, tr.last.db) == Some(FAILED) {
      Refused(c, tr, move, at);
      Refused(c, Emit(c, tr, move, at), note, at);
    } else {
      Advance(c, tr, move, at, Some(RUNNING), Some(RUNNING));
      var started := Emit(c, tr, move, at);
      MovesNothing(c, started.last, PluginStarted(c.env.plugin), run.attempt, at);
      Advance(c, started, note, at, Some(RUNNING), Some(RUNNING));
    }
  }

  // ---- rows

  /** Effects that add a row and change neither statuses nor checkpoints. */
  predicate AddsRow(c: Config, e: Effect) {
    e.Accept? || e.Charge? || e.Measure? || (e.Register? && !LocalHashed(e.artifact, c.env.taskId))
  }

  lemma RowRests(c: Config, tr: Trail, e: Effect, at: string)
    requires AllRest(c, tr) && AddsRow(c, e)
    ensures var d := Emit(c, tr, e, at);
            && AllRest(c, d) && (d.failed ==> d.last == tr.last)
            && d.last.disk == tr.last.disk && d.last.db.tasks == tr.last.db.tasks && d.last.db.attempts == tr.last.db.attempts
            && At(c, d.last, T(c, tr.last.db), A(c, tr.last.db), Current(c, tr.last.db), Pointer(c, tr.last.db))
  {
    hide PairOk, RowsOurs, PointerOk;
    var r := Apply(c.env.taskId, tr.last, e, at);
    if r.Ok? {
      assert r.value.db.artifacts[..|tr.last.db.artifacts|] == tr.last.db.artifacts;
      assert Similar(c, tr.last.db, r.value.db);
      SimilarKeeps(c, tr.last.db, r.value.db);
    }
  }

  /** The effects of a channel response move no status and make no checkpoint. */
  lemma ReceiveRests(c: Config, s: Durable, a: string, g: int, channel: Channel, response: ChannelResponse, ids: Ids, at: string)
    requires Rest(c, s) && Current(c, s.db) == Some(a)
    ensures var d := Receive(c.env.taskId, s, c.env, a, g, channel, response, ids, at);
            && AllRest(c, d)
            && d.last.disk == s.disk && d.last.db.tasks == s.db.tasks && d.last.db.attempts == s.db.attempts
  {
    var t := c.env.taskId;
    var start := Begin(s);
    if Refusal(s.db, t, a, g).None? && (response.success ==> HasOutput(response)) {
      var registered := start;
      if response.success {
        var e := Register(OutputRow(s.disk, t, a, response.output.value, ids.artifact, at));
        registered := Emit(c, start, e, at);
        RowRests(c, start, e, at);
      }
      MeasuredRests(c, registered, a, channel, response, ids.metric, at);
      NoteRests(c, Measured(t, registered, c.env, a, channel, response, ids.metric, at), Finished(channel, response, ids), a, at);
    }
  }

  lemma MeasuredRests(c: Config, tr: Trail, a: string, channel: Channel, response: ChannelResponse, id: string, at: string)
    requires AllRest(c, tr)
    ensures var d := Measured(c.env.taskId, tr, c.env, a, channel, response, id, at);
            && AllRest(c, d)
            && d.last.disk == tr.last.disk && d.last.db.tasks == tr.last.db.tasks && d.last.db.attempts == tr.last.db.attempts
  {
    var t := c.env.taskId;
    RowRests(c, tr, Charge(CostRow(t, a, channel, response, at)), at);
    RowRests(c, Emit(c, tr, Charge(CostRow(t, a, channel, response, at)), at),
             Measure(id, MetricRow(t, c.env, channel, response, at), a), at);
  }

  lemma NoteRests(c: Config, tr: Trail, note: Note, a: string, at: string)
    requires AllRest(c, tr) && Current(c, tr.last.db) == Some(a)
    ensures var d := Emit(c, tr, Write(note, a), at);
            && AllRest(c, d) && d.failed == tr.failed
            && d.last.disk == tr.last.disk && d.last.db.tasks == tr.last.db.tasks && d.last.db.attempts == tr.last.db.attempts
            && d.last.db.artifacts == tr.last.db.artifacts
  {
    if !tr.failed {
      MovesNothing(c, tr.last, note, a, at);
      Advance(c, tr, Write(note, a), at, T(c, tr.last.db), A(c, tr.last.db));
    }
  }

  /** Storing a result: the statuses move to its status together, or neither moves. */
  lemma SettleRests(c: Config, s: Durable, run: Run, r: PluginResult, id: string, at: string)
    requires Rest(c, s) && Bound(c, s, run) && r.status in {COMPLETED, FAILED}
    ensures var d := Settle(c, s, run, r, id, at);
            && AllRest(c, d) && Current(c, d.last.db) == Current(c, s.db) && Pointer(c, d.last.db) == Pointer(c, s.db)
            && (d.failed ==> T(c, d.last.db) == T(c, s.db) && A(c, d.last.db) == A(c, s.db))
            && (!d.failed ==> T(c, d.last.db) == Some(r.status) == A(c, d.last.db))
            && (!d.failed ==> Allowed(A(c, s.db).value, r.status) && !run.cancelled && r.learning <= c.learning)
            && (!d.failed && |r.outputs| > 0 ==> HashMatches(s.disk, r.outputs[0]))
  {
    hide Rest;
    var start := Begin(s);
    var fence := TaskPolicy.ValidateFence(s.db, c.env.taskId, Some(run.attempt), Some(run.generation));
    if !run.cancelled && r.learning <= c.learning && fence.Ok? {
      var accepted := start;
      if |r.outputs| > 0 {
        var e := Accept(r.outputs[0], id, run.attempt);
        RowRests(c, start, e, at);
        accepted := Emit(c, start, e, at);
        assert !accepted.failed ==> HashMatches(s.disk, r.outputs[0]);
      }
      var note := ResultAccepted(c.env.plugin, r.status, |r.outputs|);
      NoteRests(c, accepted, note, run.attempt, at);
      FinishRests(c, Emit(c, accepted, Write(note, run.attempt), at), run, r.status, at);
    }
  }

  // ---- pausing and recovering

  /** A status change of the attempt, then of the task, to PAUSED. */
  lemma PauseBothRests(c: Config, tr: Trail, a: string, at: string)
    requires AllRest(c, tr) && Current(c, tr.last.db) == Some(a) && Pointer(c, tr.last.db).Some?
    requires T(c, tr.last.db) == Some(RUNNING) || T(c, tr.last.db) in {Some(COMPLETED), Some(FAILED)}
    ensures var d := Emit(c, Emit(c, tr, MoveAttempt(a, 1, PAUSED), at), MoveTask(PAUSED, a, 1), at);
            && AllRest(c, d) && Keeps(c, tr.last, d.last)
            && (d.failed <==> tr.failed || !Allowed(A(c, tr.last.db).value, PAUSED))
            && (d.failed ==> d == tr.(failed := true))
            && (!d.failed ==> T(c, tr.last.db) == Some(RUNNING) && T(c, d.last.db) == Some(PAUSED) == A(c, d.last.db))
  {
    var one, two := MoveAttempt(a, 1, PAUSED), MoveTask(PAUSED, a, 1);
    MovesAttempt(c, tr.last, PAUSED, a, at);
    if tr.failed || !Allowed(A(c, tr.last.db).value, PAUSED) {
      Refused(c, tr, one, at);
      Refused(c, Emit(c, tr, one, at), two, at);
    } else {
      Advance(c, tr, one, at, T(c, tr.last.db), Some(PAUSED));
      var mid := Emit(c, tr, one, at);
      MovesTask(c, mid.last, PAUSED, a, at);
      Advance(c, mid, two, at, Some(PAUSED), Some(PAUSED));
    }
  }

  lemma RecoverRests(c: Config, s: Durable, a: string, at: string)
    requires Rest(c, s) && Current(c, s.db) == Some(a) && Pointer(c, s.db).Some? && T(c, s.db) == Some(RUNNING)
    ensures var d := Recover(c, s, a, at);
            && AllRest(c, d) && Keeps(c, s, d.last)
            && (d.failed <==> !Allowed(A(c, s.db).value, PAUSED)) && (d.failed ==> d == Begin(s).(failed := true))
            && (!d.failed ==> T(c, d.last.db) == Some(PAUSED) == A(c, d.last.db))
  {
    PauseBothRests(c, Begin(s), a, at);
    var paused := Emit(c, Emit(c, Begin(s), MoveAttempt(a, 1, PAUSED), at), MoveTask(PAUSED, a, 1), at);
    NoteRests(c, paused, InterruptedResumeRecovered(1), a, at);
  }

  /** The row that Seal registers for the draft of a pause request. */
  ghost predicate Drafted(c: Config, q: CheckpointPolicy.Request, draft: Draft) {
    && q.env == c.env && q.generation == 1 && q.scope == c.scope && q.stateRef != ""
    && LocalPath(c.env.workspace).Some?
    && draft.body.revision >= 1 && draft.body == BodyOf(q, draft.body.revision)
    && exists machine :: draft.path == CheckpointNames.TargetPath(LocalPath(c.env.workspace).value, machine, c.scope, draft.body.revision)
  }

  lemma PreparedIsDrafted(c: Config, disk: Disk, db: Db, q: CheckpointPolicy.Request)
    requires q.env == c.env && q.generation == 1 && q.scope == c.scope && Prepare(disk, db, q).Ok?
    ensures Drafted(c, q, Prepare(disk, db, q).value)
  {
    PrepareMeaning(disk, db, q);
  }

  lemma SealedRowIsOurs(c: Config, s: Durable, q: CheckpointPolicy.Request, draft: Draft, id: string, at: string, d: Db)
    requires Shape(c, s.db) && RowsOurs(c, s.db) && Current(c, s.db) == Some(q.attemptId) && Drafted(c, q, draft)
    requires draft.path in s.disk.files && s.disk.files[draft.path] == Written(draft.body)
    requires d.artifacts == s.db.artifacts + [RowFor(s.disk, draft, id, at)]
    requires c.env.taskId in d.tasks && d.tasks[c.env.taskId].env == c.env && Current(c, d) == Current(c, s.db)
    ensures RowsOurs(c, d)
  {
    var row := RowFor(s.disk, draft, id, at);
    assert Ours(c, d, row, draft.body);
    forall i | 0 <= i < |d.artifacts| && LocalHashed(d.artifacts[i], c.env.taskId) ensures RowOurs(c, d, d.artifacts[i]) {
      if i < |s.db.artifacts| {
        assert RowOurs(c, s.db, s.db.artifacts[i]);
        var body :| Ours(c, s.db, s.db.artifacts[i], body);
        assert Ours(c, d, d.artifacts[i], body);
      }
    }
  }

  lemma SealRests(c: Config, tr: Trail, q: CheckpointPolicy.Request, draft: Draft, id: string, at: string)
    requires AllRest(c, tr) && !tr.failed && Current(c, tr.last.db) == Some(q.attemptId) && Drafted(c, q, draft)
    requires draft.path in tr.last.disk.files && tr.last.disk.files[draft.path] == Written(draft.body)
    ensures var d := Emit(c, tr, Seal(draft, id), at);
            && AllRest(c, d) && (d.failed ==> d.last == tr.last)
            && (!d.failed ==>
                  && At(c, d.last, T(c, tr.last.db), A(c, tr.last.db), Some(q.attemptId), Some(Plain(draft.path)))
                  && LatestIs(c, d.last.db, draft.body))
  {
    var r := Apply(c.env.taskId, tr.last, Seal(draft, id), at);
    if r.Ok? {
      var d := r.value.db;
      var row := RowFor(tr.last.disk, draft, id, at);
      SealedRowIsOurs(c, tr.last, q, draft, id, at, d);
      assert forall b :: Of(c, d, b) <==> Of(c, tr.last.db, b);
      assert d.artifacts[|tr.last.db.artifacts|] == row;
      assert LastByUri(d.artifacts, c.env.taskId, row.uri) == Some(row);
    }
  }

  /**
    The second half of pause either takes a RUNNING task and attempt to PAUSED, with the handoff in
    the latest registered checkpoint, or leaves both statuses alone; every state in between rests.
   */
  lemma PersistRests(c: Config, s: Durable, a: string, handoff: string, id: string, at: string)
    requires Rest(c, s) && Current(c, s.db) == Some(a)
    requires T(c, s.db) == Some(RUNNING) || T(c, s.db) in {Some(COMPLETED), Some(FAILED)}
    ensures var d := Persist(c, s, a, handoff, id, at);
            && AllRest(c, d) && Current(c, d.last.db) == Some(a)
            && (d.failed ==> T(c, d.last.db) == T(c, s.db) && A(c, d.last.db) == A(c, s.db))
            && (!d.failed ==>
                  && T(c, s.db) == Some(RUNNING) && T(c, d.last.db) == Some(PAUSED) == A(c, d.last.db)
                  && exists body :: LatestIs(c, d.last.db, body) && body.stateRef == handoff)
  {
    var q := CheckpointRequest(c, s, a, handoff, at);
    var prepared := Prepare(s.disk, s.db, q);
    if prepared.Ok? {
      var draft := prepared.value;
      PreparedIsDrafted(c, s.disk, s.db, q);
      var saved := Emit(c, Begin(s), Save(draft), at);
      assert AllRest(c, saved);
      SealRests(c, saved, q, draft, id, at);
      var sealed := Emit(c, saved, Seal(draft, id), at);
      if sealed.failed {
        Refused(c, sealed, MoveAttempt(a, 1, PAUSED), at);
        Refused(c, Emit(c, sealed, MoveAttempt(a, 1, PAUSED), at), MoveTask(PAUSED, a, 1), at);
      } else {
        PauseBothRests(c, sealed, a, at);
        var d := Persist(c, s, a, handoff, id, at);
        assert LatestIs(c, sealed.last.db, draft.body);
        assert !d.failed ==> LatestIs(c, d.last.db, draft.body);
      }
    }
  }
}
