/** Commands, pauses, outside changes and crashes keep the protocol's invariant. */
module ProtocolCommands {
  import opened Prelude
  import opened Records
  import opened CheckpointPolicy
  import opened Effects
  import opened Protocol
  import opened ProtocolStates
  import opened ProtocolSegments
  import opened ProtocolInvariant
  import Repositories
  import Lifecycle

  // ---- resume

  /** What load accepts is the most recently registered checkpoint of the current attempt. */
  lemma LoadedIsLatest(c: Config, s: Durable)
    requires Rest(c, s) && T(c, s.db).Some? && Load(s.disk, s.db, c.env.taskId, None).Ok?
    ensures var cp := Load(s.disk, s.db, c.env.taskId, None).value;
            LatestIs(c, s.db, cp.body) && cp.body.stateRef != ""
  {
    var t := c.env.taskId;
    var i :| 0 <= i < |s.db.artifacts| && LocalHashed(s.db.artifacts[i], t) && s.db.artifacts[i].uri == Pointer(c, s.db).value;
    var path := Pointer(c, s.db).value.path;
    var row := LastByUri(s.db.artifacts, t, Plain(path)).value;
    LastByUriMeaning(s.db.artifacts, t, Plain(path));
    var j :| 0 <= j < |s.db.artifacts| && s.db.artifacts[j] == row;
    assert RowOurs(c, s.db, s.db.artifacts[j]);
    var body :| Ours(c, s.db, row, body);
    assert s.disk.files[path] == Written(body);
  }

  /** With nobody past the probes, the durable state may move from one resting state to another. */
  lemma NobodyMoves(c: Config, w: World, s: Durable)
    requires Inv(c, w) && w.m.active.None? && T(c, w.s.db) in {Some(RUNNING), Some(PAUSED)} && Rest(c, s)
    ensures Inv(c, World(s, w.m)) && Alone(w.m, w.m.next) && w.m.pause.NoPause?
  {
    forall q | q in w.m.runs ensures !Claims(w.m.runs[q]) {
      assert RunOk(c, w.s, w.m.runs[q]);
    }
    forall q | q in w.m.runs ensures q < w.m.next && RunOk(c, s, w.m.runs[q]) {
      assert RunOk(c, w.s, w.m.runs[q]);
    }
  }

  /** The task goes back to QUEUED under the fence of the loaded checkpoint. */
  lemma QueueRests(c: Config, tr: Trail, at: string)
    requires AllRest(c, tr) && !tr.failed && T(c, tr.last.db) == Some(PAUSED)
    requires Load(tr.last.disk, tr.last.db, c.env.taskId, None).Ok?
    ensures var body := Load(tr.last.disk, tr.last.db, c.env.taskId, None).value.body;
            var d := Emit(c, tr, MoveTask(QUEUED, body.attemptId, body.generation), at);
            && AllRest(c, d) && !d.failed && T(c, d.last.db) == Some(QUEUED) && A(c, d.last.db) == A(c, tr.last.db)
            && Current(c, tr.last.db) == Some(body.attemptId) == Current(c, d.last.db) && LatestIs(c, d.last.db, body)
  {
    hide Load, Emit;
    LoadedIsLatest(c, tr.last);
    var body := Load(tr.last.disk, tr.last.db, c.env.taskId, None).value.body;
    MovesTask(c, tr.last, QUEUED, body.attemptId, at);
    Advance(c, tr, MoveTask(QUEUED, body.attemptId, body.generation), at, Some(QUEUED), A(c, tr.last.db));
  }

  lemma QueuedAgain(c: Config, w: World, tr: Trail, at: string)
    requires Inv(c, w) && w.m.active.None? && T(c, w.s.db) in {Some(RUNNING), Some(PAUSED)}
    requires AllRest(c, tr) && !tr.failed && T(c, tr.last.db) == Some(PAUSED)
    requires Load(tr.last.disk, tr.last.db, c.env.taskId, None).Ok?
    ensures var cp := Load(tr.last.disk, tr.last.db, c.env.taskId, None).value;
            var d := Emit(c, tr, MoveTask(QUEUED, cp.body.attemptId, cp.body.generation), at);
            var run := NewRun(Resumed(cp.body.stateRef), cp.body.attemptId);
            && Current(c, tr.last.db) == Some(cp.body.attemptId)
            && Good(c, Outcome(d, Spawn(w.m, run))) && !d.failed && Current(c, d.last.db) == Some(run.attempt)
  {
    hide Load, Emit;
    var cp := Load(tr.last.disk, tr.last.db, c.env.taskId, None).value;
    QueueRests(c, tr, at);
    var d := Emit(c, tr, MoveTask(QUEUED, cp.body.attemptId, cp.body.generation), at);
    var run := NewRun(Resumed(cp.body.stateRef), cp.body.attemptId);
    PausedPair(c, tr.last);
    assert RunOk(c, d.last, run);
    NobodyMoves(c, w, tr.last);
    hide Rest;
    Assemble(c, w, w.m.next, World(d.last, Spawn(w.m, run)));
  }

  lemma PausedPair(c: Config, s: Durable)
    requires Rest(c, s) && T(c, s.db) == Some(PAUSED)
    ensures A(c, s.db) in {Some(PAUSED), Some(FAILED)}
  {
  }

  lemma ResumeStep(c: Config, w: World, at: string)
    requires Inv(c, w)
    ensures Good(c, DoResume(c, w, at))
  {
    var recovered := Begin(w.s);
    if Interrupted(c, w) {
      RecoverRests(c, w.s, Current(c, w.s.db).value, at);
      recovered := Recover(c, w.s, Current(c, w.s.db).value, at);
      NobodyMoves(c, w, recovered.last);
    }
    var s := recovered.last;
    if !recovered.failed && T(c, s.db) == Some(PAUSED) && Load(s.disk, s.db, c.env.taskId, None).Ok? && w.m.active.None? {
      QueuedAgain(c, w, recovered, at);
    }
  }

  // ---- pause

  lemma PauseStep(c: Config, w: World)
    requires Inv(c, w)
    ensures Good(c, DoPause(c, w))
  {
    var o := DoPause(c, w);
    if o.m != w.m {
      var r := w.m.active.value;
      assert RunOk(c, w.s, w.m.runs[r]);
      assert PauseOk(c, World(w.s, o.m));
      assert RunsOk(c, World(w.s, o.m));
    }
  }

  /** A change of a live run that concerns neither its position nor its attempt. */
  lemma FlagStep(c: Config, w: World, r: nat, run': Run)
    requires Inv(c, w) && r in w.m.runs && Live(w.m.runs[r].pc)
    requires run' == w.m.runs[r].(exited := run'.exited, cancelled := run'.cancelled)
    ensures Inv(c, World(w.s, Update(w.m, r, run')))
  {
    assert RunOk(c, w.s, w.m.runs[r]);
    MoveStep(c, w, r, run');
  }

  lemma StopStep(c: Config, w: World)
    requires Inv(c, w)
    ensures Good(c, DoStop(w)) && Good(c, DoProcessExits(w))
  {
    if w.m.active.Some? && Live(w.m.runs[w.m.active.value].pc) {
      var run := w.m.runs[w.m.active.value];
      FlagStep(c, w, w.m.active.value, run.(cancelled := true));
      FlagStep(c, w, w.m.active.value, run.(exited := true));
    }
  }

  lemma AnswerStep(c: Config, w: World, handoff: string)
    requires Inv(c, w)
    ensures Good(c, DoPauseAnswered(w, handoff))
  {
    var o := DoPauseAnswered(w, handoff);
    assert RunsOk(c, World(w.s, o.m));
  }

  /** complete_pause without success ends the pause and tells at most a live run. */
  lemma GiveUpStep(c: Config, w: World)
    requires Inv(c, w) && !w.m.pause.NoPause?
    ensures Inv(c, World(w.s, CompletePause(w.m, w.m.pause.run, false)))
  {
    var r := w.m.pause.run;
    var w1 := World(w.s, w.m.(pause := NoPause));
    assert RunsOk(c, w1);
    if r in w.m.runs && Live(w.m.runs[r].pc) && w.m.runs[r].outcome.None? {
      assert RunOk(c, w.s, w.m.runs[r]);
      MoveStep(c, w1, r, w.m.runs[r].(outcome := Some(false)));
    }
  }

  lemma SavedStep(c: Config, w: World, id: string, at: string)
    requires Inv(c, w)
    ensures Good(c, DoPauseSaved(c, w, id, at))
  {
    match w.m.pause
    case Answered(r, a, handoff) =>
      if !(r in w.m.runs && !w.m.runs[r].exited) {
        PersistRests(c, w.s, a, handoff, id, at);
        var tr := Persist(c, w.s, a, handoff, id, at);
        if tr.failed {
          NotPersisted(c, w, tr);
        } else {
          Persisted(c, w, tr);
        }
      }
    case _ =>
  }

  lemma NotPersisted(c: Config, w: World, tr: Trail)
    requires Inv(c, w) && w.m.pause.Answered? && AllRest(c, tr)
    requires Current(c, tr.last.db) == Current(c, w.s.db) && T(c, tr.last.db) == T(c, w.s.db) && A(c, tr.last.db) == A(c, w.s.db)
    ensures Inv(c, World(tr.last, CompletePause(w.m, w.m.pause.run, false)))
  {
    GiveUpStep(c, w);
    var v := World(w.s, CompletePause(w.m, w.m.pause.run, false));
    forall q | q in v.m.runs ensures q < v.m.next && RunOk(c, tr.last, v.m.runs[q]) {
      assert RunOk(c, w.s, v.m.runs[q]);
      if Claims(w.m.runs[q]) {
        ResumedIsLate(c, w, q);
      }
    }
  }

  /** While a pause is in flight no run is on its way to its first process. */
  lemma ResumedIsLate(c: Config, w: World, q: nat)
    requires Inv(c, w) && !w.m.pause.NoPause? && q in w.m.runs && Claims(w.m.runs[q])
    ensures Live(w.m.runs[q].pc)
  {
    assert RunOk(c, w.s, w.m.runs[q]);
  }

  lemma Persisted(c: Config, w: World, tr: Trail)
    requires Inv(c, w) && w.m.pause.Answered? && AllRest(c, tr)
    requires T(c, w.s.db) == Some(RUNNING) && Current(c, tr.last.db) == Current(c, w.s.db) && Pair(c, tr.last, PAUSED, PAUSED)
    ensures Inv(c, World(tr.last, CompletePause(w.m, w.m.pause.run, true)))
  {
    var r := w.m.pause.run;
    assert RunOk(c, w.s, w.m.runs[r]);
    OwnerIsAlone(c, w, r);
    var m := CompletePause(w.m, r, true);
    assert RunOk(c, tr.last, m.runs[r]);
    Assemble(c, w, r, World(tr.last, m));
  }

  // ---- what others do

  /** Nothing about the task differs between s and d. */
  ghost predicate Untouched(c: Config, db: Db, d: Db) {
    var t := c.env.taskId;
    && (t in db.tasks <==> t in d.tasks) && (t in db.tasks ==> d.tasks[t] == db.tasks[t])
    && (forall a :: Of(c, db, a) || Of(c, d, a) ==> Of(c, db, a) && Of(c, d, a) && d.attempts[a] == db.attempts[a])
    && (d.artifacts == db.artifacts
        || exists row :: ForeignRow(c, row) && d.artifacts == db.artifacts + [row])
  }

  predicate ForeignRow(c: Config, row: Artifact) {
    row.taskId != c.env.taskId
  }

  lemma OthersTasks(c: Config, db: Db, x: Repositories.Txn)
    requires Subject(db, x) != Some(c.env.taskId)
    ensures var d := Repositories.After(db, x);
            && (c.env.taskId in db.tasks <==> c.env.taskId in d.tasks)
            && (c.env.taskId in db.tasks ==> d.tasks[c.env.taskId] == db.tasks[c.env.taskId])
  {
  }

  lemma OthersAttempts(c: Config, db: Db, x: Repositories.Txn, a: string)
    requires Subject(db, x) != Some(c.env.taskId)
    ensures var d := Repositories.After(db, x);
            Of(c, db, a) || Of(c, d, a) ==> Of(c, db, a) && Of(c, d, a) && d.attempts[a] == db.attempts[a]
  {
  }

  lemma OthersUntouched(c: Config, db: Db, x: Repositories.Txn)
    requires Subject(db, x) != Some(c.env.taskId)
    ensures Untouched(c, db, Repositories.After(db, x))
  {
    OthersTasks(c, db, x);
    forall a { OthersAttempts(c, db, x, a); }
    assert x.TxRegisterArtifact? ==> ForeignRow(c, x.artifact);
  }

  lemma UntouchedLatest(c: Config, db: Db, d: Db, body: CheckpointBody)
    requires Untouched(c, db, d) && LatestIs(c, db, body)
    ensures LatestIs(c, d, body)
  {
    if d.artifacts != db.artifacts {
      var row :| ForeignRow(c, row) && d.artifacts == db.artifacts + [row];
      assert d.artifacts[..|d.artifacts| - 1] == db.artifacts;
    }
  }

  lemma UntouchedRests(c: Config, s: Durable, d: Durable)
    requires Rest(c, s) && Untouched(c, s.db, d.db)
    ensures Rest(c, d) && T(c, d.db) == T(c, s.db) && A(c, d.db) == A(c, s.db) && Current(c, d.db) == Current(c, s.db)
  {
    assert Current(c, s.db).Some? ==> Of(c, s.db, Current(c, s.db).value);
    assert s.db.artifacts <= d.db.artifacts;
    assert Similar(c, s.db, d.db);
    SimilarKeeps(c, s.db, d.db);
  }

  lemma UntouchedKeeps(c: Config, w: World, s: Durable)
    requires Inv(c, w) && Untouched(c, w.s.db, s.db)
    ensures Inv(c, World(s, w.m))
  {
    UntouchedRests(c, w.s, s);
    forall q | q in w.m.runs ensures q < w.m.next && RunOk(c, s, w.m.runs[q]) {
      assert RunOk(c, w.s, w.m.runs[q]);
      if HandsOver(c, w.s, w.m.runs[q]) {
        UntouchedHandover(c, w.s, s, w.m.runs[q]);
      }
    }
  }

  lemma UntouchedHandover(c: Config, s: Durable, d: Durable, run: Run)
    requires HandsOver(c, s, run) && Untouched(c, s.db, d.db)
    ensures HandsOver(c, d, run)
  {
    if run.kind.Resumed? {
      var body :| LatestIs(c, s.db, body) && body.stateRef == run.kind.handoff;
      UntouchedLatest(c, s.db, d.db, body);
    }
  }

  lemma OutsideStep(c: Config, w: World, a: Action)
    requires Inv(c, w) && (a.FilesChange? || a.Elsewhere?)
    ensures Good(c, Perform(c, w, a))
  {
    hide Repositories.After;
    if a.FilesChange? {
      UntouchedKeeps(c, w, w.s.(disk := a.disk));
    } else if Subject(w.s.db, a.x) != Some(c.env.taskId) {
      OthersUntouched(c, w.s.db, a.x);
      UntouchedKeeps(c, w, w.s.(db := Repositories.After(w.s.db, a.x)));
    }
  }

  // ---- every step

  lemma RunCommandStep(c: Config, w: World)
    requires Inv(c, w)
    ensures Good(c, Perform(c, w, RunCommand))
  {
    if w.m.active.None? {
      var v := World(w.s, Spawn(w.m, NewRun(Fresh, "")));
      assert RunOk(c, v.s, NewRun(Fresh, ""));
      assert RunsOk(c, v);
    }
  }

  lemma PauseFailsStep(c: Config, w: World)
    requires Inv(c, w)
    ensures Good(c, DoPauseFails(w))
  {
    if !w.m.pause.NoPause? {
      GiveUpStep(c, w);
    }
  }

  /** Every action passes only through resting states and keeps the invariant. */
  lemma ActionStep(c: Config, w: World, a: Action)
    requires Inv(c, w)
    ensures Good(c, Perform(c, w, a))
  {
    hide Good, Inv;
    IdleStep(c, w);
    match a
    case RunCommand => RunCommandStep(c, w);
    case ResumeCommand(at) => ResumeStep(c, w, at);
    case PauseCommand => PauseStep(c, w);
    case StopCommand => StopStep(c, w);
    case Go(r, input, at) =>
      if r in w.m.runs {
        RunStep(c, w, r, input, at);
      }
    case ProcessExits => StopStep(c, w);
    case PauseAnswered(handoff) => AnswerStep(c, w, handoff);
    case PauseSaved(id, at) => SavedStep(c, w, id, at);
    case PauseFails => PauseFailsStep(c, w);
    case FilesChange(_) => OutsideStep(c, w, a);
    case Elsewhere(_) => OutsideStep(c, w, a);
  }

  lemma Step(c: Config, w: World, choice: Choice)
    requires Inv(c, w)
    ensures Inv(c, Next(c, w, choice))
  {
    ActionStep(c, w, choice.a);
  }

  lemma InitialInv(c: Config, w: World)
    requires Initial(c, w) && Lifecycle.Valid(w.s.db)
    ensures Inv(c, w)
  {
    var t := c.env.taskId;
    forall a ensures !Of(c, w.s.db, a) {
      assert a in w.s.db.attempts ==> Lifecycle.AttemptRow(w.s.db.tasks, w.s.db.attempts[a]);
    }
    forall i | 0 <= i < |w.s.db.artifacts| ensures !LocalHashed(w.s.db.artifacts[i], t) {
      assert Lifecycle.Owned(w.s.db, w.s.db.artifacts[i].taskId, w.s.db.artifacts[i].attempt);
    }
  }

  /** The invariant holds after every schedule of commands, awaits, outside changes and crashes. */
  lemma {:induction false} AlwaysInv(c: Config, w: World, choices: seq<Choice>)
    requires Initial(c, w) && Lifecycle.Valid(w.s.db)
    ensures Inv(c, After(c, w, choices))
  {
    if choices == [] {
      InitialInv(c, w);
    } else {
      AlwaysInv(c, w, choices[..|choices| - 1]);
      Step(c, After(c, w, choices[..|choices| - 1]), choices[|choices| - 1]);
    }
  }
}
