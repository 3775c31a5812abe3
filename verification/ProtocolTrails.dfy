/** Which durable effects each action can have, and that they are calls the task service lets through. */
module ProtocolTrails {
  import opened Prelude
  import opened Records
  import opened StateMachine
  import opened CheckpointPolicy
  import opened ChannelPolicy
  import opened Effects
  import opened Protocol
  import TaskPolicy

  /** The states of the trail are produced one after the other by these effects. */
  ghost predicate Chain(c: Config, s: Durable, tr: Trail, es: seq<Effect>, at: string) {
    && |tr.before| == |es| && StateAt(tr, 0) == s
    && forall i :: 0 <= i < |tr.before| ==> Links(c, tr, es, at, i)
  }

  predicate Links(c: Config, tr: Trail, es: seq<Effect>, at: string, i: nat)
    requires i < |tr.before| == |es|
  {
    Apply(c.env.taskId, tr.before[i], es[i], at) == Ok(StateAt(tr, i + 1))
  }

  /** One more effect, unless it raises. */
  function Extended(c: Config, tr: Trail, es: seq<Effect>, e: Effect, at: string): seq<Effect> {
    if Emit(c, tr, e, at).failed then es else es + [e]
  }

  lemma EmitChain(c: Config, s: Durable, tr: Trail, es: seq<Effect>, e: Effect, at: string)
    requires Chain(c, s, tr, es, at)
    ensures Chain(c, s, Emit(c, tr, e, at), Extended(c, tr, es, e, at), at)
  {
    var d := Emit(c, tr, e, at);
    var fs := Extended(c, tr, es, e, at);
    forall i | 0 <= i < |d.before| ensures Links(c, d, fs, at, i) {
      if i < |tr.before| {
        assert Links(c, tr, es, at, i);
      }
    }
  }

  lemma HandlerChain(c: Config, s: Durable, tr: Trail, es: seq<Effect>, at: string)
    requires Chain(c, s, tr, es, at)
    ensures Chain(c, s, tr.(failed := false), es, at)
  {
    forall i | 0 <= i < |tr.before| ensures Links(c, tr.(failed := false), es, at, i) {
      assert Links(c, tr, es, at, i);
    }
  }

  // ---- what a step may do

  predicate FailsRun(e: Effect) {
    match e
    case Write(note, _) => note.PluginFailed?
    case MoveAttempt(_, _, target) => target == FAILED
    case MoveTask(target, _, _) => target == FAILED
    case _ => false
  }

  /** The exception handler never writes to a PAUSED task. */
  predicate MayAbort(c: Config, s: Durable, e: Effect) {
    FailsRun(e) && T(c, s.db) != Some(PAUSED)
  }

  /**
    A result is stored: nobody stopped the run, the output file still has the claimed hash, its new
    artifact id is free and the attempt can take the result's status.
   */
  predicate Earned(c: Config, s: Durable, run: Run, r: PluginResult, id: string) {
    && !run.cancelled && r.learning <= c.learning
    && (|r.outputs| > 0 ==> HashMatches(s.disk, r.outputs[0]) && !IdTaken(s.db, id))
    && run.attempt in s.db.attempts && Allowed(s.db.attempts[run.attempt].status, r.status)
  }

  predicate MayConclude(c: Config, s: Durable, run: Run, r: PluginResult, id: string, e: Effect) {
    match e
    case Accept(o, _, _) => |r.outputs| > 0 && o == r.outputs[0]
    case Write(note, _) => note.ResultAccepted?
    case MoveAttempt(_, _, target) => target == r.status && Earned(c, s, run, r, id)
    case MoveTask(target, _, _) => target == r.status && Earned(c, s, run, r, id)
    case _ => false
  }

  predicate MayActivate(e: Effect) {
    match e
    case Promote(state) => state in {QUEUED, ASSIGNED, RUNNING}
    case MoveAttempt(_, _, target) => target == RUNNING
    case _ => false
  }

  predicate MayLaunch(e: Effect) {
    MayActivate(e) || (e.Write? && e.note.PluginStarted?)
  }

  predicate MayRun(c: Config, s: Durable, run: Run, input: Input, e: Effect) {
    match run.pc
    case Probing => input.Probed? && run.kind.Fresh? && (e.Create? || e.Assign?)
    case Health => (input.Proceeds? && MayLaunch(e)) || FailsRun(e)
    case Calling(_) => input.Responds? && (e.Register? || e.Charge? || e.Measure? || (e.Write? && e.note.ChannelFinished?))
    case Returning(result) => (input.Concludes? && MayConclude(c, s, run, result, input.id, e)) || MayAbort(c, s, e)
    case Spawning => MayAbort(c, s, e)
    case Signalling => MayAbort(c, s, e)
    case Winding => MayAbort(c, s, e)
    case _ => false
  }

  /** The attempt can be paused, so that its task is paused after it. */
  predicate CanPause(s: Durable, a: string) {
    a in s.db.attempts && Allowed(s.db.attempts[a].status, PAUSED)
  }

  predicate MayPause(s: Durable, a: string, e: Effect) {
    match e
    case Save(_) => true
    case Seal(_, _) => true
    case MoveAttempt(_, _, target) => target == PAUSED
    case MoveTask(target, _, _) => target == PAUSED && CanPause(s, a)
    case _ => false
  }

  predicate MayResume(c: Config, s: Durable, e: Effect) {
    match e
    case MoveAttempt(_, _, target) => target == PAUSED
    case MoveTask(target, _, _) =>
      target == QUEUED || (target == PAUSED && Current(c, s.db).Some? && CanPause(s, Current(c, s.db).value))
    case Write(note, _) => note.InterruptedResumeRecovered?
    case _ => false
  }

  predicate May(c: Config, w: World, a: Action, e: Effect) {
    match a
    case ResumeCommand(_) => MayResume(c, w.s, e)
    case Go(r, input, _) => r in w.m.runs && MayRun(c, w.s, w.m.runs[r], input, e)
    case PauseSaved(_, _) => w.m.pause.Answered? && MayPause(w.s, w.m.pause.attempt, e)
    case _ => false
  }

  ghost predicate AllMay(c: Config, w: World, a: Action, es: seq<Effect>) {
    forall e :: e in es ==> May(c, w, a, e)
  }

  // ---- the segments as lists of effects

  lemma AbortChain(c: Config, s: Durable, tr: Trail, run: Run, at: string, es: seq<Effect>) returns (fs: seq<Effect>)
    requires Chain(c, s, tr, es, at)
    ensures Chain(c, s, Abort(c, tr, run, at), fs, at)
    ensures forall e :: e in fs ==> e in es || MayAbort(c, tr.last, e)
  {
    if T(c, tr.last.db) == Some(PAUSED) {
      return es;
    }
    var handler := tr.(failed := false);
    var note := Write(PluginFailed, run.attempt);
    HandlerChain(c, s, tr, es, at);
    EmitChain(c, s, handler, es, note, at);
    fs := FinishChain(c, s, Emit(c, handler, note, at), run, FAILED, at, Extended(c, handler, es, note, at));
  }

  lemma FinishChain(c: Config, s: Durable, tr: Trail, run: Run, target: Status, at: string, es: seq<Effect>) returns (fs: seq<Effect>)
    requires Chain(c, s, tr, es, at)
    ensures Chain(c, s, Finish(c, tr, run, target, at), fs, at)
    ensures forall e :: e in fs ==> e in es || e == MoveAttempt(run.attempt, run.generation, target)
                                    || e == MoveTask(target, run.attempt, run.generation)
    ensures Finish(c, tr, run, target, at).failed ==> Finish(c, tr, run, target, at).last.db.tasks == tr.last.db.tasks
    ensures fs != es ==> !tr.failed && run.attempt in tr.last.db.attempts
                         && Allowed(tr.last.db.attempts[run.attempt].status, target)
  {
    var one, two := MoveAttempt(run.attempt, run.generation, target), MoveTask(target, run.attempt, run.generation);
    EmitChain(c, s, tr, es, one, at);
    EmitChain(c, s, Emit(c, tr, one, at), Extended(c, tr, es, one, at), two, at);
    fs := Extended(c, Emit(c, tr, one, at), Extended(c, tr, es, one, at), two, at);
  }

  lemma ActivateChain(c: Config, s: Durable, run: Run, at: string) returns (es: seq<Effect>)
    ensures Chain(c, s, Activate(c, s, run, at), es, at)
    ensures forall e :: e in es ==> MayActivate(e)
  {
    var tr := Begin(s);
    es := [];
    var e := Promote(QUEUED);
    EmitChain(c, s, tr, es, e, at);
    tr, es := Emit(c, tr, e, at), Extended(c, tr, es, e, at);
    e := Promote(ASSIGNED);
    EmitChain(c, s, tr, es, e, at);
    tr, es := Emit(c, tr, e, at), Extended(c, tr, es, e, at);
    e := Promote(RUNNING);
    EmitChain(c, s, tr, es, e, at);
    tr, es := Emit(c, tr, e, at), Extended(c, tr, es, e, at);
    e := MoveAttempt(run.attempt, run.generation, RUNNING);
    EmitChain(c, s, tr, es, e, at);
    es := Extended(c, tr, es, e, at);
  }

  lemma LaunchChain(c: Config, s: Durable, run: Run, at: string) returns (es: seq<Effect>)
    ensures Chain(c, s, Launch(c, s, run, at), es, at)
    ensures forall e :: e in es ==> MayLaunch(e)
    ensures Launch(c, s, run, at).failed ==> forall e :: e in es ==> MayActivate(e)
  {
    es := ActivateChain(c, s, run, at);
    var note := Write(PluginStarted(c.env.plugin), run.attempt);
    EmitChain(c, s, Activate(c, s, run, at), es, note, at);
    es := Extended(c, Activate(c, s, run, at), es, note, at);
  }

  lemma SettleChain(c: Config, s: Durable, run: Run, r: PluginResult, id: string, at: string) returns (es: seq<Effect>)
    ensures Chain(c, s, Settle(c, s, run, r, id, at), es, at)
    ensures forall e :: e in es ==> MayConclude(c, s, run, r, id, e)
    ensures Settle(c, s, run, r, id, at).failed ==> Settle(c, s, run, r, id, at).last.db.tasks == s.db.tasks
  {
    es := [];
    var fence := TaskPolicy.ValidateFence(s.db, c.env.taskId, Some(run.attempt), Some(run.generation));
    if !run.cancelled && r.learning <= c.learning && fence.Ok? {
      var tr := Begin(s);
      if |r.outputs| > 0 {
        var e := Accept(r.outputs[0], id, run.attempt);
        EmitChain(c, s, tr, es, e, at);
        tr, es := Emit(c, tr, e, at), Extended(c, tr, es, e, at);
      }
      var note := Write(ResultAccepted(c.env.plugin, r.status, |r.outputs|), run.attempt);
      EmitChain(c, s, tr, es, note, at);
      var logged := Extended(c, tr, es, note, at);
      assert Emit(c, tr, note, at).last.db.attempts == s.db.attempts;
      es := FinishChain(c, s, Emit(c, tr, note, at), run, r.status, at, logged);
      assert es != logged ==> Earned(c, s, run, r, id);
    }
  }

  lemma ReceiveChain(c: Config, s: Durable, a: string, g: int, channel: Channel, response: ChannelResponse, ids: Ids, at: string)
    returns (es: seq<Effect>)
    ensures Chain(c, s, Receive(c.env.taskId, s, c.env, a, g, channel, response, ids, at), es, at)
    ensures forall e :: e in es ==> e.Register? || e.Charge? || e.Measure? || e == Write(Finished(channel, response, ids), a)
  {
    var t := c.env.taskId;
    es := [];
    if Refusal(s.db, t, a, g).None? && (response.success ==> HasOutput(response)) {
      var tr := Begin(s);
      var e: Effect;
      if response.success {
        e := Register(OutputRow(s.disk, t, a, response.output.value, ids.artifact, at));
        EmitChain(c, s, tr, es, e, at);
        tr, es := Emit(c, tr, e, at), Extended(c, tr, es, e, at);
      }
      e := Charge(CostRow(t, a, channel, response, at));
      EmitChain(c, s, tr, es, e, at);
      tr, es := Emit(c, tr, e, at), Extended(c, tr, es, e, at);
      e := Measure(ids.metric, MetricRow(t, c.env, channel, response, at), a);
      EmitChain(c, s, tr, es, e, at);
      tr, es := Emit(c, tr, e, at), Extended(c, tr, es, e, at);
      e := Write(Finished(channel, response, ids), a);
      EmitChain(c, s, tr, es, e, at);
      es := Extended(c, tr, es, e, at);
    }
  }

  lemma SealChain(c: Config, s: Durable, q: CheckpointPolicy.Request, id: string, at: string) returns (es: seq<Effect>)
    ensures Chain(c, s, SaveAndSeal(c, s, q, id, at), es, at)
    ensures forall e :: e in es ==> e.Save? || e.Seal?
    ensures SaveAndSeal(c, s, q, id, at).last.db.attempts == s.db.attempts
  {
    es := [];
    var prepared := Prepare(s.disk, s.db, q);
    if prepared.Ok? {
      SealKeepsAttempts(c, Emit(c, Begin(s), Save(prepared.value), at), prepared.value, id, at);
      hide Prepare;
      assert Emit(c, Begin(s), Save(prepared.value), at).last.db == s.db;
      hide Emit;
      var tr := Begin(s);
      var e := Save(prepared.value);
      EmitChain(c, s, tr, es, e, at);
      tr, es := Emit(c, tr, e, at), Extended(c, tr, es, e, at);
      e := Seal(prepared.value, id);
      EmitChain(c, s, tr, es, e, at);
      es := Extended(c, tr, es, e, at);
    }
  }

  lemma SealKeepsAttempts(c: Config, tr: Trail, draft: Draft, id: string, at: string)
    ensures Emit(c, tr, Seal(draft, id), at).last.db.attempts == tr.last.db.attempts
  {
  }

  lemma PausingNeedsAttempt(c: Config, tr: Trail, a: string, g: int, at: string)
    ensures !Emit(c, tr, MoveAttempt(a, g, PAUSED), at).failed ==> CanPause(tr.last, a)
  {
  }

  /** Attempt, then task: the second only after the first. */
  lemma PauseBothChain(c: Config, s: Durable, tr: Trail, a: string, g: int, at: string, es: seq<Effect>) returns (fs: seq<Effect>)
    requires Chain(c, s, tr, es, at) && tr.last.db.attempts == s.db.attempts
    ensures Chain(c, s, Emit(c, Emit(c, tr, MoveAttempt(a, g, PAUSED), at), MoveTask(PAUSED, a, g), at), fs, at)
    ensures forall e :: e in fs ==> e in es || e == MoveAttempt(a, g, PAUSED) || (e == MoveTask(PAUSED, a, g) && CanPause(s, a))
  {
    var one, two := MoveAttempt(a, g, PAUSED), MoveTask(PAUSED, a, g);
    PausingNeedsAttempt(c, tr, a, g, at);
    EmitChain(c, s, tr, es, one, at);
    fs := Extended(c, tr, es, one, at);
    EmitChain(c, s, Emit(c, tr, one, at), fs, two, at);
    fs := Extended(c, Emit(c, tr, one, at), fs, two, at);
  }

  lemma PersistChain(c: Config, s: Durable, a: string, handoff: string, id: string, at: string) returns (es: seq<Effect>)
    ensures Chain(c, s, Persist(c, s, a, handoff, id, at), es, at)
    ensures forall e :: e in es ==> MayPause(s, a, e)
  {
    es := [];
    if a in s.db.attempts {
      hide SaveAndSeal, Emit;
      var q := CheckpointRequest(c, s, a, handoff, at);
      es := SealChain(c, s, q, id, at);
      es := PauseBothChain(c, s, SaveAndSeal(c, s, q, id, at), a, s.db.attempts[a].generation, at, es);
    }
  }

  lemma RecoverChain(c: Config, s: Durable, a: string, at: string) returns (es: seq<Effect>)
    requires Current(c, s.db) == Some(a)
    ensures Chain(c, s, Recover(c, s, a, at), es, at)
    ensures forall e :: e in es ==> MayResume(c, s, e)
  {
    es := [];
    if a in s.db.attempts {
      hide Emit;
      var g := s.db.attempts[a].generation;
      es := PauseBothChain(c, s, Begin(s), a, g, at, es);
      var tr := Emit(c, Emit(c, Begin(s), MoveAttempt(a, g, PAUSED), at), MoveTask(PAUSED, a, g), at);
      var e := Write(InterruptedResumeRecovered(g), a);
      EmitChain(c, s, tr, es, e, at);
      es := Extended(c, tr, es, e, at);
    }
  }

  // ---- actions

  lemma RunChain(c: Config, w: World, r: nat, input: Input, at: string) returns (es: seq<Effect>)
    requires r in w.m.runs
    ensures Chain(c, w.s, GoRun(c, w, r, w.m.runs[r], input, at).trail, es, at)
    ensures forall e :: e in es ==> MayRun(c, w.s, w.m.runs[r], input, e)
  {
    hide Abort, Settle, Launch, Receive, Emit;
    var run := w.m.runs[r];
    es := [];
    match run.pc
    case Probing =>
      if input.Probed? && run.kind.Fresh? && input.attempt != "" {
        var one, two := Create(c.env), Assign(input.attempt, input.worker, input.channel);
        EmitChain(c, w.s, Begin(w.s), es, one, at);
        var created := Emit(c, Begin(w.s), one, at);
        es := Extended(c, Begin(w.s), es, one, at);
        EmitChain(c, w.s, created, es, two, at);
        es := Extended(c, created, es, two, at);
      }
    case Health =>
      if input.Proceeds? {
        es := LaunchChain(c, w.s, run, at);
        if Launch(c, w.s, run, at).failed {
          es := AbortChain(c, w.s, Launch(c, w.s, run, at), run, at, es);
        }
      } else if input.Raises? {
        es := AbortChain(c, w.s, Begin(w.s), run, at, []);
      }
    case Calling(_) =>
      if input.Responds? && run.attempt in w.s.db.attempts {
        var channel := w.s.db.attempts[run.attempt].channel;
        if channel.Some? && channel.value in run.channels {
          es := ReceiveChain(c, w.s, run.attempt, run.generation, run.channels[channel.value], input.response, input.ids, at);
        }
      }
    case Returning(result) =>
      if input.Concludes? {
        es := SettleChain(c, w.s, run, result, input.id, at);
        if Settle(c, w.s, run, result, input.id, at).failed {
          es := AbortChain(c, w.s, Settle(c, w.s, run, result, input.id, at), run, at, es);
        }
      } else if input.Raises? {
        es := AbortChain(c, w.s, Begin(w.s), run, at, []);
      }
    case Spawning =>
      if input.Raises? {
        es := AbortChain(c, w.s, Begin(w.s), run, at, []);
      }
    case Signalling =>
      if input.Raises? {
        es := AbortChain(c, w.s, Begin(w.s), run, at, []);
      }
    case Winding =>
      if input.Raises? || input.Proceeds? {
        es := AbortChain(c, w.s, Begin(w.s), run, at, []);
      }
    case _ =>
  }

  lemma ResumeChain(c: Config, w: World, at: string) returns (es: seq<Effect>)
    ensures Chain(c, w.s, DoResume(c, w, at).trail, es, at)
    ensures forall e :: e in es ==> MayResume(c, w.s, e)
  {
    es := [];
    var recovered := Begin(w.s);
    if Interrupted(c, w) {
      es := RecoverChain(c, w.s, Current(c, w.s.db).value, at);
      recovered := Recover(c, w.s, Current(c, w.s.db).value, at);
    }
    var s := recovered.last;
    if !recovered.failed && T(c, s.db) == Some(PAUSED) && w.m.active.None? {
      var loaded := Load(s.disk, s.db, c.env.taskId, None);
      if loaded.Ok? {
        var e := MoveTask(QUEUED, loaded.value.body.attemptId, loaded.value.body.generation);
        EmitChain(c, w.s, recovered, es, e, at);
        es := Extended(c, recovered, es, e, at);
      }
    }
  }

  predicate Inside(a: Action) {
    !a.FilesChange? && !a.Elsewhere?
  }

  function Clock(a: Action): string {
    match a
    case ResumeCommand(at) => at
    case Go(_, _, at) => at
    case PauseSaved(_, at) => at
    case _ => ""
  }

  /** Everything an action of the controller does to the durable state is among the effects it may have. */
  lemma ActionChain(c: Config, w: World, a: Action) returns (es: seq<Effect>)
    requires Inside(a)
    ensures Chain(c, w.s, Perform(c, w, a).trail, es, Clock(a)) && AllMay(c, w, a, es)
  {
    es := [];
    match a
    case ResumeCommand(at) => es := ResumeChain(c, w, at);
    case Go(r, input, at) =>
      if r in w.m.runs {
        es := RunChain(c, w, r, input, at);
      }
    case PauseSaved(id, at) =>
      if w.m.pause.Answered? && !(w.m.pause.run in w.m.runs && !w.m.runs[w.m.pause.run].exited) {
        es := PersistChain(c, w.s, w.m.pause.attempt, w.m.pause.handoff, id, at);
      }
    case _ =>
  }
}
