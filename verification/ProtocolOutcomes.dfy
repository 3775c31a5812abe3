/** Stopping, pausing and resuming: which run ends how, and when an interrupted task can go on. */
module ProtocolOutcomes {
  import opened Prelude
  import opened Records
  import opened StateMachine
  import opened CheckpointPolicy
  import opened ChannelPolicy
  import opened Effects
  import opened Protocol
  import opened ProtocolStates
  import opened ProtocolSegments
  import opened ProtocolInvariant
  import opened ProtocolCommands
  import opened ProtocolTrails
  import opened ProtocolTheorems
  import Repositories
  import Lifecycle

  // ---- stop

  /** Run numbers are never given out twice. */
  lemma NoNewName(c: Config, w: World, choice: Choice, r: nat)
    requires Inv(c, w) && r < w.m.next && r !in w.m.runs
    ensures r !in Next(c, w, choice).m.runs && w.m.next <= Next(c, w, choice).m.next
  {
    var a := choice.a;
    if a.Go? && a.run in w.m.runs {
      GoNames(c, w, a.run, a.input, a.at);
    } else if a.ResumeCommand? {
      ResumeNames(c, w, a.at);
    } else if !a.Go? {
      CommandNames(c, w, a, r);
    }
  }

  lemma GoNames(c: Config, w: World, q: nat, input: Input, at: string)
    requires q in w.m.runs
    ensures GoRun(c, w, q, w.m.runs[q], input, at).m.runs.Keys <= w.m.runs.Keys
    ensures GoRun(c, w, q, w.m.runs[q], input, at).m.next == w.m.next
  {
  }

  lemma ResumeNames(c: Config, w: World, at: string)
    ensures DoResume(c, w, at).m.runs.Keys <= w.m.runs.Keys + {w.m.next}
    ensures DoResume(c, w, at).m.next >= w.m.next
  {
  }

  lemma CommandNames(c: Config, w: World, a: Action, r: nat)
    requires !a.Go? && !a.ResumeCommand? && r !in w.m.runs && r < w.m.next
    requires PauseOk(c, w)
    ensures r !in Perform(c, w, a).m.runs && w.m.next <= Perform(c, w, a).m.next
  {
  }

  lemma {:induction false} StoppedStays(c: Config, w: World, choices: seq<Choice>, r: nat)
    requires Inv(c, w) && r in w.m.runs && w.m.runs[r].cancelled
    ensures var u := After(c, w, choices);
            Inv(c, u) && r < u.m.next && (r in u.m.runs ==> u.m.runs[r].cancelled)
  {
    if choices != [] {
      var n := |choices| - 1;
      StoppedStays(c, w, choices[..n], r);
      var u := After(c, w, choices[..n]);
      Step(c, u, choices[n]);
      if r in u.m.runs {
        if r in Next(c, u, choices[n]).m.runs {
          FlagsStay(c, u, choices[n], r);
        }
        assert Next(c, u, choices[n]).m.next >= u.m.next by { NextGrows(c, u, choices[n]); }
      } else {
        NoNewName(c, u, choices[n], r);
      }
    }
  }

  lemma NextGrows(c: Config, w: World, choice: Choice)
    ensures w.m.next <= Next(c, w, choice).m.next
  {
    var a := choice.a;
    if a.Go? && a.run in w.m.runs {
      GoNames(c, w, a.run, a.input, a.at);
    } else if a.ResumeCommand? {
      ResumeNames(c, w, a.at);
    }
  }

  /** Once a stop has found a run's process, that run never completes the task, whatever happens later. */
  lemma StoppedRunNeverCompletes(c: Config, w: World, choices: seq<Choice>, choice: Choice, r: nat)
    requires Inv(c, w) && r in w.m.runs && w.m.runs[r].cancelled
    requires var u := After(c, w, choices);
             T(c, u.s.db) != Some(COMPLETED) && T(c, Next(c, u, choice).s.db) == Some(COMPLETED)
    ensures choice.a.Go? && choice.a.run != r
  {
    StoppedStays(c, w, choices, r);
    CompletionIsEarned(c, After(c, w, choices), choice);
  }

  // ---- pause

  /** The paused signal is raised only once task and attempt are durably PAUSED; so is a true outcome. */
  lemma SignalIsDurable(c: Config, w: World, choices: seq<Choice>, r: nat)
    requires Initial(c, w) && Lifecycle.Valid(w.s.db) && r in After(c, w, choices).m.runs
    requires var run := After(c, w, choices).m.runs[r]; run.pc.Signalling? || run.outcome == Some(true)
    ensures Pair(c, After(c, w, choices).s, PAUSED, PAUSED)
  {
    AlwaysInv(c, w, choices);
    assert RunOk(c, After(c, w, choices).s, After(c, w, choices).m.runs[r]);
  }

  /** The stored result of a run that was paused, when it is FAILED: what the abort path protects against. */
  predicate FailsAfterPause(c: Config, w: World, a: Action) {
    Storing(w, a, FAILED) && Earned(c, w.s, w.m.runs[a.run], w.m.runs[a.run].pc.result, a.input.id)
  }

  lemma OnlyStoringFailsPaused(c: Config, w: World, a: Action, e: Effect)
    requires Inv(c, w) && T(c, w.s.db) == Some(PAUSED) && May(c, w, a, e)
    requires Sets(e, FAILED) || (e.MoveAttempt? && e.target == FAILED)
    ensures FailsAfterPause(c, w, a)
  {
    if a.Go? {
      assert RunOk(c, w.s, w.m.runs[a.run]);
    }
  }

  /** A PAUSED task is failed only by a plugin that returned FAILED after it was paused: no abort does it. */
  lemma PausedFailsByResult(c: Config, w: World, choice: Choice)
    requires Inv(c, w) && T(c, w.s.db) == Some(PAUSED) && T(c, Next(c, w, choice).s.db) == Some(FAILED)
    ensures FailsAfterPause(c, w, choice.a)
  {
    var e := StepSets(c, w, choice, FAILED);
    OnlyStoringFailsPaused(c, w, choice.a, e);
  }

  /** An accepted result takes the accept, note, attempt and task effects in this order. */
  lemma SettleStates(c: Config, s: Durable, run: Run, r: PluginResult, id: string, at: string, k: nat)
    requires Rest(c, s) && Bound(c, s, run) && r.status in {COMPLETED, FAILED}
    requires Earned(c, s, run, r, id)
    ensures var d := Settle(c, s, run, r, id, at);
            var n := if |r.outputs| > 0 then 1 else 0;
            && !d.failed && |d.before| == n + 3
            && T(c, StateAt(d, k).db) == (if k <= n + 2 then T(c, s.db) else Some(r.status))
            && A(c, StateAt(d, k).db) == (if k <= n + 1 then A(c, s.db) else Some(r.status))
  {
    hide PairOk, RowsOurs;
    var start := Begin(s);
    var accepted := start;
    if |r.outputs| > 0 {
      var e := Accept(r.outputs[0], id, run.attempt);
      accepted := Emit(c, start, e, at);
      RowRests(c, start, e, at);
      assert Apply(c.env.taskId, s, e, at).Ok?;
    }
    var note := ResultAccepted(c.env.plugin, r.status, |r.outputs|);
    NoteRests(c, accepted, note, run.attempt, at);
    var logged := Emit(c, accepted, Write(note, run.attempt), at);
    assert logged.before == accepted.before + [accepted.last];
    FinishStates(c, logged, run, r.status, at);
  }

  lemma FinishStates(c: Config, tr: Trail, run: Run, target: Status, at: string)
    requires AllRest(c, tr) && Bound(c, tr.last, run) && target in {COMPLETED, FAILED} && !tr.failed
    requires Allowed(A(c, tr.last.db).value, target)
    ensures var d := Finish(c, tr, run, target, at);
            && !d.failed && |d.before| == |tr.before| + 2 && d.before[..|tr.before| + 1] == tr.before + [tr.last]
            && T(c, d.before[|tr.before| + 1].db) == T(c, tr.last.db) && A(c, d.before[|tr.before| + 1].db) == Some(target)
            && T(c, d.last.db) == Some(target) == A(c, d.last.db)
  {
    var one := MoveAttempt(run.attempt, run.generation, target);
    FinishGoesThrough(c, tr, run, target, at);
    MovesAttempt(c, tr.last, target, run.attempt, at);
    assert Emit(c, tr, one, at).before == tr.before + [tr.last];
  }

  lemma EffectSetsAttempt(c: Config, s: Durable, e: Effect, at: string, x: Status)
    requires Apply(c.env.taskId, s, e, at).Ok? && A(c, s.db) != Some(x) && x != ASSIGNED
    requires A(c, Apply(c.env.taskId, s, e, at).value.db) == Some(x)
    ensures e.MoveAttempt? && e.target == x
  {
  }

  lemma {:induction false} TrailSetsAttempt(c: Config, s: Durable, tr: Trail, es: seq<Effect>, at: string, k: nat, x: Status)
    returns (e: Effect)
    requires Chain(c, s, tr, es, at) && k <= |tr.before| && x != ASSIGNED
    requires A(c, s.db) != Some(x) && A(c, StateAt(tr, k).db) == Some(x)
    ensures e in es && e.MoveAttempt? && e.target == x
    decreases k
  {
    assert Links(c, tr, es, at, k - 1);
    if A(c, tr.before[k - 1].db) == Some(x) {
      e := TrailSetsAttempt(c, s, tr, es, at, k - 1, x);
    } else {
      e := es[k - 1];
      EffectSetsAttempt(c, tr.before[k - 1], e, at, x);
    }
  }

  lemma StepSetsAttempt(c: Config, w: World, choice: Choice, x: Status) returns (e: Effect)
    requires Inv(c, w) && x != ASSIGNED
    requires A(c, w.s.db) != Some(x) && A(c, Next(c, w, choice).s.db) == Some(x)
    ensures May(c, w, choice.a, e) && e.MoveAttempt? && e.target == x
  {
    var tr := Perform(c, w, choice.a).trail;
    if Inside(choice.a) {
      var es := ActionChain(c, w, choice.a);
      var k := if choice.Do? || choice.k > |tr.before| then |tr.before| else choice.k;
      e := TrailSetsAttempt(c, w.s, tr, es, Clock(choice.a), k, x);
    } else {
      if choice.a.Elsewhere? && Subject(w.s.db, choice.a.x) != Some(c.env.taskId) {
        OthersUntouched(c, w.s.db, choice.a.x);
        UntouchedRests(c, w.s, w.s.(db := Repositories.After(w.s.db, choice.a.x)));
      }
      assert false;
    }
  }

  /** The number of effects before the attempt moves. */
  function EffectsBefore(r: PluginResult): nat {
    if |r.outputs| > 0 then 2 else 1
  }

  lemma StoringStates(c: Config, w: World, a: Action, k: nat)
    requires Inv(c, w) && FailsAfterPause(c, w, a) && Pair(c, w.s, PAUSED, PAUSED)
    ensures var tr := Perform(c, w, a).trail;
            var n := EffectsBefore(w.m.runs[a.run].pc.result);
            && |tr.before| == n + 2
            && T(c, StateAt(tr, k).db) == Some(if k <= n + 1 then PAUSED else FAILED)
            && A(c, StateAt(tr, k).db) == Some(if k <= n then PAUSED else FAILED)
  {
    hide Settle, Rest;
    var run := w.m.runs[a.run];
    assert RunOk(c, w.s, run);
    SettleStates(c, w.s, run, run.pc.result, a.input.id, a.at, k);
  }

  /** From a paused pair: the crash between the two status changes of such a result, and nothing else. */
  lemma PausedAttemptLostFromPaused(c: Config, w: World, choice: Choice)
    requires Inv(c, w) && Pair(c, w.s, PAUSED, PAUSED)
    ensures Pair(c, Next(c, w, choice).s, PAUSED, FAILED) <==>
              && choice.Crash? && FailsAfterPause(c, w, choice.a)
              && choice.k == EffectsBefore(w.m.runs[choice.a.run].pc.result) + 1
  {
    if A(c, Next(c, w, choice).s.db) == Some(FAILED) {
      var e := StepSetsAttempt(c, w, choice, FAILED);
      OnlyStoringFailsPaused(c, w, choice.a, e);
    }
    if FailsAfterPause(c, w, choice.a) {
      var tr := Perform(c, w, choice.a).trail;
      StoringStates(c, w, choice.a, if choice.Do? then |tr.before| else choice.k);
    }
  }

  /** Only a pause or a resume makes a task PAUSED, and only with an attempt that can be paused. */
  lemma OnlyPausingPauses(c: Config, w: World, a: Action, e: Effect)
    requires Inv(c, w) && May(c, w, a, e) && Sets(e, PAUSED)
    ensures a.PauseSaved? || a.ResumeCommand?
    ensures Current(c, w.s.db).Some? && CanPause(w.s, Current(c, w.s.db).value)
  {
    assert a.Go? && a.run in w.m.runs ==> RunOk(c, w.s, w.m.runs[a.run]);
  }

  lemma PausingFailsNothing(c: Config, w: World, a: Action, e: Effect)
    requires (a.PauseSaved? || a.ResumeCommand?) && May(c, w, a, e) && e.MoveAttempt?
    ensures e.target == PAUSED
  {
  }

  /**
    A PAUSED task whose attempt is FAILED comes into being in exactly one way, from whatever state:
    task and attempt were paused, and the controller dies between the two status changes of a FAILED
    result accepted after the pause.
   */
  lemma PausedAttemptLost(c: Config, w: World, choice: Choice)
    requires Inv(c, w) && !Pair(c, w.s, PAUSED, FAILED)
    ensures Pair(c, Next(c, w, choice).s, PAUSED, FAILED) <==>
              && Pair(c, w.s, PAUSED, PAUSED) && choice.Crash? && FailsAfterPause(c, w, choice.a)
              && choice.k == EffectsBefore(w.m.runs[choice.a.run].pc.result) + 1
  {
    if T(c, w.s.db) == Some(PAUSED) {
      PausedPair(c, w.s);
      PausedAttemptLostFromPaused(c, w, choice);
    } else if Pair(c, Next(c, w, choice).s, PAUSED, FAILED) {
      NewPauseIsWhole(c, w, choice);
      assert false;
    }
  }

  lemma NewPauseIsWhole(c: Config, w: World, choice: Choice)
    requires Inv(c, w) && T(c, w.s.db) != Some(PAUSED) && T(c, Next(c, w, choice).s.db) == Some(PAUSED)
    ensures A(c, Next(c, w, choice).s.db) != Some(FAILED)
  {
    hide Next;
    var e := StepSets(c, w, choice, PAUSED);
    OnlyPausingPauses(c, w, choice.a, e);
    if A(c, Next(c, w, choice).s.db) == Some(FAILED) {
      var f := StepSetsAttempt(c, w, choice, FAILED);
      PausingFailsNothing(c, w, choice.a, f);
    }
  }

  /** Without a crash, a paused task is turned FAILED by an action exactly when that result is accepted. */
  lemma PausedTurnsFailed(c: Config, w: World, a: Action)
    requires Inv(c, w) && Pair(c, w.s, PAUSED, PAUSED)
    ensures T(c, Next(c, w, Do(a)).s.db) == Some(FAILED) <==> FailsAfterPause(c, w, a)
  {
    var tr := Perform(c, w, a).trail;
    if T(c, Next(c, w, Do(a)).s.db) == Some(FAILED) {
      PausedFailsByResult(c, w, Do(a));
    }
    if FailsAfterPause(c, w, a) {
      StoringStates(c, w, a, |tr.before|);
    }
  }

  // ---- resume

  predicate CanLoad(c: Config, s: Durable) {
    T(c, s.db).Some? && Load(s.disk, s.db, c.env.taskId, None).Ok?
  }

  /** Resume finds something to resume: a paused task, or a running one whose run is gone. */
  predicate Resumable(c: Config, w: World) {
    && w.m.active.None? && CanLoad(c, w.s)
    && (T(c, w.s.db) == Some(PAUSED)
        || (T(c, w.s.db) == Some(RUNNING) && A(c, w.s.db) in {Some(ASSIGNED), Some(RUNNING)}))
  }

  lemma LoadIgnoresStatus(c: Config, s: Durable, d: Durable)
    requires c.env.taskId in s.db.tasks && c.env.taskId in d.db.tasks && Keeps(c, s, d)
    requires d.db.tasks[c.env.taskId].env == s.db.tasks[c.env.taskId].env
    ensures Load(d.disk, d.db, c.env.taskId, None) == Load(s.disk, s.db, c.env.taskId, None)
  {
  }

  /** The new run that a resume starts. */
  predicate Resumes(c: Config, w: World, v: World) {
    w.m.next in v.m.runs && CanLoad(c, w.s)
    && var body := Load(w.s.disk, w.s.db, c.env.taskId, None).value.body;
       && v.m.runs[w.m.next] == NewRun(Resumed(body.stateRef), body.attemptId)
       && Current(c, w.s.db) == Some(body.attemptId) && body.generation == 1
       && LatestIs(c, w.s.db, body)
  }

  /** What resume does once any recovery is behind it. */
  predicate ResumeOutcome(c: Config, w: World, o: Outcome, starts: bool) {
    && (w.m.next in o.m.runs <==> starts)
    && (starts ==> Resumes(c, w, World(o.trail.last, o.m)) && T(c, o.trail.last.db) == Some(QUEUED)
                   && Current(c, o.trail.last.db) == Current(c, w.s.db))
  }

  lemma ResumeFromPaused(c: Config, w: World, at: string)
    requires Inv(c, w) && w.m.next !in w.m.runs && !Interrupted(c, w)
    ensures ResumeOutcome(c, w, DoResume(c, w, at), Resumable(c, w))
  {
    if T(c, w.s.db) == Some(PAUSED) && CanLoad(c, w.s) && w.m.active.None? {
      LoadedIsLatest(c, w.s);
      QueuedAgain(c, w, Begin(w.s), at);
    }
  }

  lemma ResumeInterrupted(c: Config, w: World, at: string)
    requires Inv(c, w) && w.m.next !in w.m.runs && Interrupted(c, w)
    ensures ResumeOutcome(c, w, DoResume(c, w, at), Resumable(c, w))
  {
    var a := Current(c, w.s.db).value;
    RecoverRests(c, w.s, a, at);
    var tr := Recover(c, w.s, a, at);
    if !tr.failed {
      Recovered(c, w, tr, at);
    }
    RecoverableStatus(c, w);
  }

  lemma RecoverableStatus(c: Config, w: World)
    requires Inv(c, w) && Interrupted(c, w)
    ensures Resumable(c, w) <==> CanLoad(c, w.s) && Allowed(A(c, w.s.db).value, PAUSED)
  {
  }

  lemma Recovered(c: Config, w: World, tr: Trail, at: string)
    requires Inv(c, w) && w.m.next !in w.m.runs && Interrupted(c, w) && tr == Recover(c, w.s, Current(c, w.s.db).value, at)
    requires AllRest(c, tr) && Keeps(c, w.s, tr.last) && !tr.failed && T(c, tr.last.db) == Some(PAUSED)
    ensures ResumeOutcome(c, w, DoResume(c, w, at), CanLoad(c, w.s))
  {
    hide Emit;
    hide Load, Recover;
    LoadIgnoresStatus(c, w.s, tr.last);
    if CanLoad(c, w.s) {
      LoadedIsLatest(c, w.s);
      QueuedAgain(c, w, tr, at);
    }
  }

  /**
    Resume starts a run exactly when the task can be resumed, both from PAUSED and from an
    interrupted RUNNING, whatever the controller remembers from before. The run gets the handoff of
    the most recently registered checkpoint and the attempt and generation the task already has. A
    RUNNING task whose attempt has completed, failed or paused is refused.
   */
  lemma ResumeMeaning(c: Config, w: World, at: string)
    requires Inv(c, w)
    ensures var v := Next(c, w, Do(ResumeCommand(at)));
            && (w.m.next in v.m.runs <==> Resumable(c, w))
            && (w.m.next in v.m.runs ==> Resumes(c, w, v) && T(c, v.s.db) == Some(QUEUED) && Current(c, v.s.db) == Current(c, w.s.db))
  {
    assert w.m.next !in w.m.runs;
    if Interrupted(c, w) {
      ResumeInterrupted(c, w, at);
    } else {
      ResumeFromPaused(c, w, at);
    }
  }

  /** When the process of a resumed run starts, its handoff is still the latest registered one. */
  lemma HandoffAtStart(c: Config, w: World, choices: seq<Choice>, r: nat)
    requires Initial(c, w) && Lifecycle.Valid(w.s.db) && r in After(c, w, choices).m.runs
    requires var run := After(c, w, choices).m.runs[r]; run.pc.Spawning? && run.kind.Resumed?
    ensures var u := After(c, w, choices);
            && Current(c, u.s.db) == Some(u.m.runs[r].attempt) && u.m.runs[r].generation == 1
            && exists body :: LatestIs(c, u.s.db, body) && body.stateRef == u.m.runs[r].kind.handoff
  {
    AlwaysInv(c, w, choices);
    assert RunOk(c, After(c, w, choices).s, After(c, w, choices).m.runs[r]);
  }

  // ---- what a crash can leave beyond repair

  /** No run owns the task, no pause is in flight, and resume has nothing it accepts. */
  predicate Stranded(c: Config, w: World) {
    && w.m.active.None? && w.m.pause.NoPause? && (forall q :: q in w.m.runs ==> !Claims(w.m.runs[q]))
    && T(c, w.s.db).Some? && T(c, w.s.db) != Some(PAUSED)
    && !(T(c, w.s.db) == Some(RUNNING) && Pointer(c, w.s.db).Some? && A(c, w.s.db) in {Some(ASSIGNED), Some(RUNNING)})
  }

  /** Nothing about the task moved. */
  predicate SameStatuses(c: Config, s: Durable, d: Durable) {
    T(c, d.db) == T(c, s.db) && A(c, d.db) == A(c, s.db) && Pointer(c, d.db) == Pointer(c, s.db)
  }

  /** The action had no effect, and still no run owns the task. */
  predicate Fruitless(w: World, o: Outcome) {
    && o.trail.before == [] && o.trail.last == w.s
    && o.m.active.None? && o.m.pause.NoPause? && forall q :: q in o.m.runs ==> !Claims(o.m.runs[q])
  }

  lemma StrandedRun(c: Config, w: World, r: nat, input: Input, at: string)
    requires Inv(c, w) && Stranded(c, w) && r in w.m.runs
    ensures Fruitless(w, GoRun(c, w, r, w.m.runs[r], input, at))
  {
    if input.Probed? && input.attempt != "" {
      ClaimRests(c, w.s, input.attempt, input.worker, input.channel, at);
    }
  }

  lemma StrandedCommand(c: Config, w: World, a: Action)
    requires Stranded(c, w) && !a.Go? && !a.ResumeCommand? && Inside(a)
    ensures Fruitless(w, Perform(c, w, a))
  {
  }

  lemma StrandedResume(c: Config, w: World, at: string)
    requires Inv(c, w) && Stranded(c, w)
    ensures Fruitless(w, DoResume(c, w, at))
  {
    if Interrupted(c, w) {
      StrandedAttempt(c, w);
      RecoverRests(c, w.s, Current(c, w.s.db).value, at);
      RefusedRecovery(c, w, at);
    }
  }

  lemma StrandedAttempt(c: Config, w: World)
    requires Inv(c, w) && Stranded(c, w) && Interrupted(c, w)
    ensures !Allowed(A(c, w.s.db).value, PAUSED)
  {
  }

  lemma RefusedRecovery(c: Config, w: World, at: string)
    requires Interrupted(c, w) && Recover(c, w.s, Current(c, w.s.db).value, at) == Begin(w.s).(failed := true)
    ensures DoResume(c, w, at) == Outcome(Begin(w.s).(failed := true), w.m)
  {
  }

  lemma StrandedInside(c: Config, w: World, a: Action)
    requires Inv(c, w) && Stranded(c, w) && Inside(a)
    ensures Fruitless(w, Perform(c, w, a))
  {
    if a.Go? {
      if a.run in w.m.runs {
        StrandedRun(c, w, a.run, a.input, a.at);
      }
    } else if a.ResumeCommand? {
      StrandedResume(c, w, a.at);
    } else {
      StrandedCommand(c, w, a);
    }
  }

  lemma StrandedOutside(c: Config, w: World, choice: Choice)
    requires Inv(c, w) && Stranded(c, w) && !Inside(choice.a)
    ensures Stranded(c, Next(c, w, choice)) && SameStatuses(c, w.s, Next(c, w, choice).s)
  {
    hide Repositories.After, Untouched, Rest;
    if choice.a.Elsewhere? && Subject(w.s.db, choice.a.x) != Some(c.env.taskId) {
      OthersUntouched(c, w.s.db, choice.a.x);
      UntouchedRests(c, w.s, w.s.(db := Repositories.After(w.s.db, choice.a.x)));
    }
  }

  lemma StrandedStep(c: Config, w: World, choice: Choice)
    requires Inv(c, w) && Stranded(c, w)
    ensures Stranded(c, Next(c, w, choice)) && SameStatuses(c, w.s, Next(c, w, choice).s)
  {
    if Inside(choice.a) {
      StrandedInside(c, w, choice.a);
    } else {
      StrandedOutside(c, w, choice);
    }
  }

  /** A stranded task keeps its statuses for ever: no schedule of commands gets it going again. */
  lemma {:induction false} StrandedForever(c: Config, w: World, choices: seq<Choice>)
    requires Inv(c, w) && Stranded(c, w)
    ensures var u := After(c, w, choices);
            Inv(c, u) && Stranded(c, u) && SameStatuses(c, w.s, u.s)
  {
    if choices != [] {
      var n := |choices| - 1;
      StrandedForever(c, w, choices[..n]);
      Step(c, After(c, w, choices[..n]), choices[n]);
      StrandedStep(c, After(c, w, choices[..n]), choices[n]);
    }
  }

  /**
    After a crash, resume is the only way on. If the checkpoint of the task can be loaded, a resume
    starts a run if and only if some schedule, of whatever length, ever moves the task again.
   */
  lemma ResumableUnlessStranded(c: Config, w: World, choice: Choice, at: string)
    requires Inv(c, w) && choice.Crash? && CanLoad(c, Next(c, w, choice).s)
    ensures var v := Next(c, w, choice);
            && (v.m.next in Next(c, v, Do(ResumeCommand(at))).m.runs <==> EverMoves(c, v))
            && (EverMoves(c, v) <==> !Stranded(c, v))
  {
    var v := Next(c, w, choice);
    Step(c, w, choice);
    ResumeMeaning(c, v, at);
    CrashedIsEither(c, w, choice);
    if Stranded(c, v) {
      forall choices ensures SameStatuses(c, v.s, After(c, v, choices).s) {
        StrandedForever(c, v, choices);
      }
    } else {
      ResumeMoves(c, v, at);
    }
  }

  /** Some schedule changes the status of the task or its attempt, or its checkpoint pointer. */
  ghost predicate EverMoves(c: Config, w: World) {
    exists choices :: !SameStatuses(c, w.s, After(c, w, choices).s)
  }

  lemma CrashedIsEither(c: Config, w: World, choice: Choice)
    requires choice.Crash? && CanLoad(c, Next(c, w, choice).s)
    ensures Resumable(c, Next(c, w, choice)) <==> !Stranded(c, Next(c, w, choice))
  {
  }

  lemma ResumeMoves(c: Config, w: World, at: string)
    requires Inv(c, w) && Resumable(c, w)
    ensures EverMoves(c, w)
  {
    ResumeMeaning(c, w, at);
    var resume := [Do(ResumeCommand(at))];
    assert resume[..0] == [];
    assert After(c, w, resume) == Next(c, w, resume[0]);
    assert T(c, After(c, w, resume).s.db) == Some(QUEUED);
  }

  // ---- checkpoints in reachable worlds

  /** Every hashed local row of the task is one that create registered. */
  lemma OursIsGenuine(c: Config, s: Durable)
    requires Rest(c, s)
    ensures Genuine(s.db, c.env.taskId, c.scope)
  {
    forall i | 0 <= i < |s.db.artifacts| && LocalHashed(s.db.artifacts[i], c.env.taskId)
      ensures RowGenuine(s.db, c.scope, s.db.artifacts[i])
    {
      assert RowOurs(c, s.db, s.db.artifacts[i]);
      var body :| Ours(c, s.db, s.db.artifacts[i], body);
      assert FromCreate(s.db, c.scope, s.db.artifacts[i], body);
    }
  }

  /**
    After any schedule, and whatever was done to the files, a checkpoint that load accepts is one
    that a registered create wrote for this task, plugin and attempt, with unchanged references.
   */
  lemma ReachableLoadWasCreated(c: Config, w: World, choices: seq<Choice>, uri: Option<Uri>)
    requires Initial(c, w) && Lifecycle.Valid(w.s.db)
    ensures var s := After(c, w, choices).s;
            var t := c.env.taskId;
            t in s.db.tasks && Load(s.disk, s.db, t, uri).Ok? ==>
              var cp := Load(s.disk, s.db, t, uri).value;
              && cp == Sealed(cp.body)
              && (exists row :: row in s.db.artifacts && row.taskId == t && FromCreate(s.db, c.scope, row, cp.body))
              && s.db.tasks[t].current == Some(cp.body.attemptId)
              && AllIntact(s.disk, s.db.artifacts, t, cp.body.artifactRefs)
  {
    hide Load, After;
    AlwaysInv(c, w, choices);
    var s := After(c, w, choices).s;
    OursIsGenuine(c, s);
    if c.env.taskId in s.db.tasks && Load(s.disk, s.db, c.env.taskId, uri).Ok? {
      LoadedWasCreated(s.disk, s.db, c.env.taskId, c.scope, uri);
    }
  }

  /** The pause that has its answer can be saved. */
  ghost predicate CanSave(c: Config, s: Durable, a: string, handoff: string, id: string) {
    && Pair(c, s, RUNNING, RUNNING) && handoff != "" && c.env.plugin != ""
    && a in s.db.attempts && s.db.attempts[a].worker != ""
    && LocalPath(c.env.workspace).Some? && !Blocked(s.disk, s.db.artifacts, c.env.taskId) && !IdTaken(s.db, id)
  }

  lemma PrepareForPause(c: Config, s: Durable, a: string, handoff: string, at: string)
    requires Rest(c, s) && Current(c, s.db) == Some(a)
    ensures a in s.db.attempts
    ensures Prepare(s.disk, s.db, CheckpointRequest(c, s, a, handoff, at)).Ok? <==>
              && handoff != "" && c.env.plugin != "" && s.db.attempts[a].worker != ""
              && LocalPath(c.env.workspace).Some? && !Blocked(s.disk, s.db.artifacts, c.env.taskId)
  {
    PrepareFailsExactlyWhen(s.disk, s.db, CheckpointRequest(c, s, a, handoff, at));
    hide Prepare, Blocked;
  }

  lemma SealNeedsFreeId(c: Config, tr: Trail, q: CheckpointPolicy.Request, draft: Draft, id: string, at: string)
    requires AllRest(c, tr) && !tr.failed && Current(c, tr.last.db) == Some(q.attemptId) && Drafted(c, q, draft)
    requires draft.path in tr.last.disk.files
    ensures Emit(c, tr, Seal(draft, id), at).failed <==> IdTaken(tr.last.db, id)
  {
  }

  lemma PersistSucceedsExactlyWhen(c: Config, s: Durable, a: string, handoff: string, id: string, at: string)
    requires Rest(c, s) && Current(c, s.db) == Some(a) && Pair(c, s, RUNNING, RUNNING)
    ensures var d := Persist(c, s, a, handoff, id, at);
            && (!d.failed <==> CanSave(c, s, a, handoff, id))
            && (d.failed ==> d.last.db == s.db)
            && (Prepare(s.disk, s.db, CheckpointRequest(c, s, a, handoff, at)).Err? ==> d.last == s)
  {
    PrepareForPause(c, s, a, handoff, at);
    var q := CheckpointRequest(c, s, a, handoff, at);
    var prepared := Prepare(s.disk, s.db, q);
    if prepared.Ok? {
      PreparedIsDrafted(c, s.disk, s.db, q);
      hide Prepare, Blocked;
      SavedThenSealed(c, s, a, q, prepared.value, id, at);
      assert Persist(c, s, a, handoff, id, at) == Emit(c, Emit(c, SaveAndSeal(c, s, q, id, at), MoveAttempt(a, 1, PAUSED), at), MoveTask(PAUSED, a, 1), at);
    } else {
      hide Prepare, Blocked;
      assert SaveAndSeal(c, s, q, id, at) == Begin(s).(failed := true);
    }
  }

  lemma SavedThenSealed(c: Config, s: Durable, a: string, q: CheckpointPolicy.Request, draft: Draft, id: string, at: string)
    requires Rest(c, s) && Current(c, s.db) == Some(a) == Some(q.attemptId) && Pair(c, s, RUNNING, RUNNING) && Drafted(c, q, draft)
    ensures var sealed := Emit(c, Emit(c, Begin(s), Save(draft), at), Seal(draft, id), at);
            var d := Emit(c, Emit(c, sealed, MoveAttempt(a, 1, PAUSED), at), MoveTask(PAUSED, a, 1), at);
            (d.failed <==> IdTaken(s.db, id)) && (d.failed ==> d.last.db == s.db)
  {
    var saved := Emit(c, Begin(s), Save(draft), at);
    assert AllRest(c, saved) && saved.last.db == s.db;
    SealRests(c, saved, q, draft, id, at);
    SealNeedsFreeId(c, saved, q, draft, id, at);
    var sealed := Emit(c, saved, Seal(draft, id), at);
    hide Rest, Emit;
    if sealed.failed {
      Refused(c, sealed, MoveAttempt(a, 1, PAUSED), at);
      Refused(c, sealed, MoveTask(PAUSED, a, 1), at);
    } else {
      PauseBothRests(c, sealed, a, at);
    }
  }

  /**
    Exactly when an answered pause reaches PAUSED: task and attempt are still RUNNING, the required
    fields are not empty, the workspace is local, no registered "checkpoint" file of the task raises
    or leaves only negative revisions, and the artifact id is free. Otherwise both statuses stay and
    the run is told; on a RUNNING task the database is then untouched, and the files too unless only
    the id was taken.
   */
  lemma PauseSavesExactlyWhen(c: Config, w: World, id: string, at: string)
    requires Inv(c, w) && w.m.pause.Answered? && (w.m.pause.run in w.m.runs ==> w.m.runs[w.m.pause.run].exited)
    ensures var p, v := w.m.pause, Next(c, w, Do(PauseSaved(id, at)));
            var saves := CanSave(c, w.s, p.attempt, p.handoff, id);
            && (T(c, v.s.db) == Some(PAUSED) <==> saves)
            && v.m == CompletePause(w.m, p.run, saves)
            && (if saves then Pair(c, v.s, PAUSED, PAUSED) else T(c, v.s.db) == T(c, w.s.db) && A(c, v.s.db) == A(c, w.s.db))
            && (Pair(c, w.s, RUNNING, RUNNING) && !saves ==> v.s.db == w.s.db)
            && (Pair(c, w.s, RUNNING, RUNNING) && !saves && !IdTaken(w.s.db, id) ==> v.s == w.s)
  {
    var p := w.m.pause;
    hide CanSave;
    PersistRests(c, w.s, p.attempt, p.handoff, id, at);
    if Pair(c, w.s, RUNNING, RUNNING) {
      PersistSucceedsExactlyWhen(c, w.s, p.attempt, p.handoff, id, at);
      if !CanSave(c, w.s, p.attempt, p.handoff, id) && !IdTaken(w.s.db, id) {
        BlockedBeforeFiles(c, w.s, p.attempt, p.handoff, id, at);
      }
    } else {
      NotRunningNotSaved(c, w.s, p.attempt, p.handoff, id);
    }
    hide Persist, Rest;
    assert Perform(c, w, PauseSaved(id, at)) == DoPauseSaved(c, w, id, at);
  }

  lemma NotRunningNotSaved(c: Config, s: Durable, a: string, handoff: string, id: string)
    requires !Pair(c, s, RUNNING, RUNNING)
    ensures !CanSave(c, s, a, handoff, id)
  {
  }

  lemma BlockedBeforeFiles(c: Config, s: Durable, a: string, handoff: string, id: string, at: string)
    requires Rest(c, s) && Current(c, s.db) == Some(a) && Pair(c, s, RUNNING, RUNNING)
    requires !CanSave(c, s, a, handoff, id) && !IdTaken(s.db, id)
    ensures a in s.db.attempts && Prepare(s.disk, s.db, CheckpointRequest(c, s, a, handoff, at)).Err?
  {
    PrepareForPause(c, s, a, handoff, at);
  }
}
