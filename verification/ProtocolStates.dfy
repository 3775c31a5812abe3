/** What holds of the durable state between any two effects of the protocol. */
module ProtocolStates {
  import opened Prelude
  import opened Records
  import opened StateMachine
  import opened CheckpointPolicy
  import opened Effects
  import opened Protocol

  /** Attempt a belongs to the task. */
  predicate Of(c: Config, db: Db, a: string) {
    a in db.attempts && db.attempts[a].taskId == c.env.taskId
  }

  /** The task keeps its envelope and has at most one attempt, its first, which is current. */
  ghost predicate Shape(c: Config, db: Db) {
    var t := c.env.taskId;
    && (t in db.tasks ==> db.tasks[t].env == c.env)
    && (Current(c, db).None? ==> Pointer(c, db).None? && forall a :: !Of(c, db, a))
    && (Current(c, db).Some? ==>
          var a := Current(c, db).value;
          a != "" && Of(c, db, a) && db.attempts[a].generation == 1 && forall b :: Of(c, db, b) ==> b == a)
  }

  /** The pairs of task status and status of its current attempt. */
  predicate PairOk(task: Option<Status>, attempt: Option<Status>) {
    match task
    case None => attempt.None?
    case Some(CREATED) => attempt in {None, Some(ASSIGNED), Some(FAILED)}
    case Some(QUEUED) => attempt in {Some(ASSIGNED), Some(PAUSED), Some(FAILED)}
    case Some(ASSIGNED) => attempt in {Some(ASSIGNED), Some(PAUSED), Some(FAILED)}
    case Some(RUNNING) => attempt in {Some(ASSIGNED), Some(RUNNING), Some(PAUSED), Some(FAILED), Some(COMPLETED)}
    case Some(PAUSED) => attempt in {Some(PAUSED), Some(FAILED)}
    case Some(FAILED) => attempt == Some(FAILED)
    case Some(COMPLETED) => attempt == Some(COMPLETED)
    case Some(_) => false
  }

  /** The row is a checkpoint that create registered for the task's attempt. */
  ghost predicate RowOurs(c: Config, db: Db, row: Artifact) {
    exists body :: Ours(c, db, row, body)
  }

  ghost predicate Ours(c: Config, db: Db, row: Artifact, body: CheckpointBody) {
    FromCreate(db, c.scope, row, body) && body.generation == 1 && Current(c, db) == Some(body.attemptId)
  }

  ghost predicate RowsOurs(c: Config, db: Db) {
    forall i :: 0 <= i < |db.artifacts| && LocalHashed(db.artifacts[i], c.env.taskId) ==> RowOurs(c, db, db.artifacts[i])
  }

  /** The latest-checkpoint pointer names a registered checkpoint. */
  predicate PointerOk(c: Config, db: Db) {
    Pointer(c, db).Some? ==>
      exists i :: 0 <= i < |db.artifacts| && LocalHashed(db.artifacts[i], c.env.taskId) && db.artifacts[i].uri == Pointer(c, db).value
  }

  /** A paused attempt has been checkpointed. */
  predicate PausedOk(c: Config, db: Db) {
    T(c, db) == Some(PAUSED) ==> Pointer(c, db).Some?
  }

  ghost predicate Rest(c: Config, s: Durable) {
    && Shape(c, s.db) && PairOk(T(c, s.db), A(c, s.db)) && RowsOurs(c, s.db) && PointerOk(c, s.db) && PausedOk(c, s.db)
  }

  ghost predicate AllRest(c: Config, tr: Trail) {
    (forall i :: 0 <= i < |tr.before| ==> Rest(c, tr.before[i])) && Rest(c, tr.last)
  }

  /**
    The most recently registered checkpoint of the task is this one: the row the pointer leads to
    (the last one under its uri) carries the hash of exactly this document.
   */
  predicate LatestIs(c: Config, db: Db, body: CheckpointBody) {
    && Pointer(c, db).Some? && Current(c, db) == Some(body.attemptId) && body.generation == 1
    && var row := LastByUri(db.artifacts, c.env.taskId, Pointer(c, db).value);
       row.Some? && row.value.sha == Some(Sha256(Written(body)))
  }

  // ---- effects that change nothing but statuses and add no checkpoint

  ghost predicate Similar(c: Config, db: Db, d: Db) {
    && (c.env.taskId in db.tasks <==> c.env.taskId in d.tasks)
    && (c.env.taskId in db.tasks ==> d.tasks[c.env.taskId].env == db.tasks[c.env.taskId].env)
    && Current(c, d) == Current(c, db) && Pointer(c, d) == Pointer(c, db)
    && SameAttempts(c, db, d)
    && OnlyOtherRows(c, db, d)
  }

  ghost predicate SameAttempts(c: Config, db: Db, d: Db) {
    forall a :: (Of(c, db, a) <==> Of(c, d, a)) && (Of(c, db, a) ==> d.attempts[a].generation == db.attempts[a].generation)
  }

  predicate OnlyOtherRows(c: Config, db: Db, d: Db) {
    && db.artifacts <= d.artifacts
    && forall i :: |db.artifacts| <= i < |d.artifacts| ==> !LocalHashed(d.artifacts[i], c.env.taskId)
  }

  lemma SimilarKeeps(c: Config, db: Db, d: Db)
    requires Shape(c, db) && RowsOurs(c, db) && PointerOk(c, db) && Similar(c, db, d)
    ensures Shape(c, d) && RowsOurs(c, d) && PointerOk(c, d)
  {
    var t := c.env.taskId;
    forall i | 0 <= i < |d.artifacts| && LocalHashed(d.artifacts[i], t) ensures RowOurs(c, d, d.artifacts[i]) {
      assert i < |db.artifacts| && d.artifacts[i] == db.artifacts[i];
      assert RowOurs(c, db, db.artifacts[i]);
      var body :| Ours(c, db, db.artifacts[i], body);
      assert Ours(c, d, d.artifacts[i], body);
    }
    if Pointer(c, db).Some? {
      var i :| 0 <= i < |db.artifacts| && LocalHashed(db.artifacts[i], t) && db.artifacts[i].uri == Pointer(c, db).value;
      assert d.artifacts[i] == db.artifacts[i];
    }
  }

  /** What an effect that goes through leaves unchanged, and the statuses after it. */
  ghost predicate Moves(c: Config, s: Durable, e: Effect, at: string, task: Option<Status>, attempt: Option<Status>) {
    && Apply(c.env.taskId, s, e, at).Ok?
    && var d := Apply(c.env.taskId, s, e, at).value;
       && d.disk == s.disk && d.db.artifacts == s.db.artifacts && Similar(c, s.db, d.db)
       && T(c, d.db) == task && A(c, d.db) == attempt
  }

  lemma MovesTask(c: Config, s: Durable, target: Status, a: string, at: string)
    requires Shape(c, s.db) && Current(c, s.db) == Some(a)
    ensures var e := MoveTask(target, a, 1);
            if Allowed(T(c, s.db).value, target) then Moves(c, s, e, at, Some(target), A(c, s.db))
            else Apply(c.env.taskId, s, e, at).Err?
  {
  }

  lemma MovesAttempt(c: Config, s: Durable, target: Status, a: string, at: string)
    requires Shape(c, s.db) && Current(c, s.db) == Some(a)
    ensures var e := MoveAttempt(a, 1, target);
            if Allowed(A(c, s.db).value, target) then Moves(c, s, e, at, T(c, s.db), Some(target))
            else Apply(c.env.taskId, s, e, at).Err?
  {
  }

  lemma MovesPromote(c: Config, s: Durable, target: Status, at: string)
    requires Shape(c, s.db) && T(c, s.db).Some?
    ensures var e := Promote(target);
            if T(c, s.db) == Some(target) || Allowed(T(c, s.db).value, target) then Moves(c, s, e, at, Some(target), A(c, s.db))
            else Apply(c.env.taskId, s, e, at).Err?
  {
  }

  lemma MovesNothing(c: Config, s: Durable, note: Note, a: string, at: string)
    requires Shape(c, s.db) && Current(c, s.db) == Some(a)
    ensures Moves(c, s, Write(note, a), at, T(c, s.db), A(c, s.db))
  {
  }

  lemma MoveRests(c: Config, s: Durable, e: Effect, at: string, task: Option<Status>, attempt: Option<Status>)
    requires Rest(c, s) && Moves(c, s, e, at, task, attempt)
    requires PairOk(task, attempt) && (task == Some(PAUSED) ==> Pointer(c, s.db).Some?)
    ensures Rest(c, Apply(c.env.taskId, s, e, at).value)
  {
    SimilarKeeps(c, s.db, Apply(c.env.taskId, s, e, at).value.db);
  }
}
