/** What the audit log shows of the protocol: dispatches, channel answers, and the evidence for COMPLETED. */
module ProtocolLog {
  import opened Prelude
  import opened Records
  import opened ChannelPolicy
  import opened Effects
  import opened Protocol
  import opened ProtocolStates
  import opened ProtocolSegments
  import opened ProtocolInvariant
  import opened ProtocolCommands
  import opened ProtocolTrails
  import opened ProtocolTheorems
  import opened ProtocolOutcomes
  import Repositories
  import Lifecycle

  /**
    PLUGIN_EXECUTION_STARTED and CHANNEL_EXECUTION_FINISHED events of a task, and the last channel
    answer since the last start.
   */
  datatype Tally = Tally(started: nat, finished: nat, answer: Option<Note>)

  function Counted(v: Tally, note: Note): Tally {
    match note
    case PluginStarted(_) => Tally(v.started + 1, v.finished, None)
    case ChannelFinished(_, _, _) => Tally(v.started, v.finished + 1, Some(note))
    case _ => v
  }

  function TallyOf(log: seq<EventRow>, t: string): Tally {
    if log == [] then Tally(0, 0, None) else
      var v := TallyOf(log[..|log| - 1], t);
      var row := log[|log| - 1];
      if row.taskId == t && row.event.Noted? then Counted(v, row.event.note) else v
  }

  function TallyIn(c: Config, s: Durable): Tally {
    TallyOf(s.db.log, c.env.taskId)
  }

  lemma GrowTally(log: seq<EventRow>, row: EventRow, t: string)
    ensures TallyOf(log + [row], t) == (if row.taskId == t && row.event.Noted?
                                       then Counted(TallyOf(log, t), row.event.note) else TallyOf(log, t))
  {
    assert (log + [row])[..|log|] == log;
  }

  // ---- effects

  lemma EffectLog(c: Config, s: Durable, e: Effect, at: string)
    requires Apply(c.env.taskId, s, e, at).Ok?
    ensures var d := Apply(c.env.taskId, s, e, at).value;
            d.db.log == s.db.log || (|d.db.log| == |s.db.log| + 1 && d.db.log == s.db.log + [d.db.log[|s.db.log|]]
              && (d.db.log[|s.db.log|].event.Noted? ==> e.Write? && d.db.log[|s.db.log|].event.note == e.note))
    ensures e.Write? ==> Apply(c.env.taskId, s, e, at).value.db.log
                         == s.db.log + [EventRow(c.env.taskId, Some(e.a), Noted(e.note), at)]
  {
  }

  lemma EffectTally(c: Config, s: Durable, e: Effect, at: string)
    requires Apply(c.env.taskId, s, e, at).Ok?
    ensures TallyIn(c, Apply(c.env.taskId, s, e, at).value)
            == (if e.Write? then Counted(TallyIn(c, s), e.note) else TallyIn(c, s))
  {
    var d := Apply(c.env.taskId, s, e, at).value;
    EffectLog(c, s, e, at);
    if e.Write? {
      GrowTally(s.db.log, EventRow(c.env.taskId, Some(e.a), Noted(e.note), at), c.env.taskId);
    } else if d.db.log != s.db.log {
      GrowTally(s.db.log, d.db.log[|s.db.log|], c.env.taskId);
    }
  }

  lemma EmitTally(c: Config, tr: Trail, e: Effect, at: string)
    ensures TallyIn(c, Emit(c, tr, e, at).last)
            == (if e.Write? && !Emit(c, tr, e, at).failed then Counted(TallyIn(c, tr.last), e.note) else TallyIn(c, tr.last))
  {
    if !Emit(c, tr, e, at).failed {
      EffectTally(c, tr.last, e, at);
    }
  }

  /** The effect counts neither as a start nor as a channel answer. */
  predicate Quiet(e: Effect) {
    e.Write? ==> !e.note.PluginStarted? && !e.note.ChannelFinished?
  }

  lemma {:induction false} QuietTrail(c: Config, s: Durable, tr: Trail, es: seq<Effect>, at: string, k: nat)
    requires Chain(c, s, tr, es, at) && (forall e :: e in es ==> Quiet(e))
    ensures TallyIn(c, StateAt(tr, k)) == TallyIn(c, s)
    decreases k
  {
    if k > 0 {
      QuietTrail(c, s, tr, es, at, k - 1);
      if k <= |tr.before| {
        assert Links(c, tr, es, at, k - 1);
        assert Quiet(es[k - 1]);
        EffectTally(c, tr.before[k - 1], es[k - 1], at);
      }
    }
  }

  // ---- steps

  predicate Starts(w: World, a: Action) {
    a.Go? && a.run in w.m.runs && w.m.runs[a.run].pc.Health? && a.input.Proceeds?
  }

  predicate Answers(w: World, a: Action) {
    a.Go? && a.run in w.m.runs && w.m.runs[a.run].pc.Calling? && a.input.Responds?
  }

  lemma ElsewhereTally(c: Config, db: Db, x: Repositories.Txn)
    requires Subject(db, x) != Some(c.env.taskId)
    ensures TallyOf(Repositories.After(db, x).log, c.env.taskId) == TallyOf(db.log, c.env.taskId)
  {
    var log := Repositories.After(db, x).log;
    OthersLog(c, db, x);
    if |log| == |db.log| + 1 {
      assert log == db.log + [log[|db.log|]];
      GrowTally(db.log, log[|db.log|], c.env.taskId);
    } else if |log| == |db.log| + 2 {
      var mid := db.log + [log[|db.log|]];
      assert log == mid + [log[|db.log| + 1]];
      GrowTally(db.log, log[|db.log|], c.env.taskId);
      GrowTally(mid, log[|db.log| + 1], c.env.taskId);
    }
  }

  lemma OthersLog(c: Config, db: Db, x: Repositories.Txn)
    requires Subject(db, x) != Some(c.env.taskId)
    ensures var log := Repositories.After(db, x).log;
            && |db.log| <= |log| <= |db.log| + 2 && log[..|db.log|] == db.log
            && forall i :: |db.log| <= i < |log| ==> log[i].taskId != c.env.taskId
  {
  }

  /** Only a start and a channel answer move the tally. */
  lemma QuietStep(c: Config, w: World, choice: Choice)
    requires !Starts(w, choice.a) && !Answers(w, choice.a)
    ensures TallyIn(c, Next(c, w, choice).s) == TallyIn(c, w.s)
  {
    hide TallyOf;
    var a := choice.a;
    var tr := Perform(c, w, a).trail;
    if Inside(a) {
      var es := ActionChain(c, w, a);
      QuietTrail(c, w.s, tr, es, Clock(a), if choice.Do? then |tr.before| else choice.k);
    } else if a.Elsewhere? && Subject(w.s.db, a.x) != Some(c.env.taskId) {
      ElsewhereTally(c, w.s.db, a.x);
    }
  }

  lemma StartTrail(c: Config, s: Durable, run: Run, at: string, k: nat)
    ensures var tr := Launch(c, s, run, at);
            && TallyIn(c, tr.last) == (if tr.failed then TallyIn(c, s) else Counted(TallyIn(c, s), PluginStarted(c.env.plugin)))
            && (k < |tr.before| ==> TallyIn(c, StateAt(tr, k)) == TallyIn(c, s))
  {
    var es := ActivateChain(c, s, run, at);
    var first := Activate(c, s, run, at);
    var tr := Launch(c, s, run, at);
    QuietTrail(c, s, first, es, at, k);
    QuietTrail(c, s, first, es, at, |first.before|);
    EmitTally(c, first, Write(PluginStarted(c.env.plugin), run.attempt), at);
    assert tr.failed ==> tr.before == first.before;
    assert !tr.failed ==> tr.before == first.before + [first.last];
  }

  lemma AnswerTrail(c: Config, s: Durable, a: string, g: int, channel: Channel, response: ChannelResponse, ids: Ids,
                    at: string, k: nat)
    ensures var tr := Receive(c.env.taskId, s, c.env, a, g, channel, response, ids, at);
            && TallyIn(c, tr.last) == (if tr.failed then TallyIn(c, s) else Counted(TallyIn(c, s), Finished(channel, response, ids)))
            && (k < |tr.before| ==> TallyIn(c, StateAt(tr, k)) == TallyIn(c, s))
  {
    var t := c.env.taskId;
    var tr := Receive(t, s, c.env, a, g, channel, response, ids, at);
    if Refusal(s.db, t, a, g).None? && (response.success ==> HasOutput(response)) {
      var first, es := RowsChain(c, s, a, channel, response, ids, at);
      QuietTrail(c, s, first, es, at, k);
      QuietTrail(c, s, first, es, at, |first.before|);
      EmitTally(c, first, Write(Finished(channel, response, ids), a), at);
      assert tr.failed ==> tr.before == first.before;
      assert !tr.failed ==> tr.before == first.before + [first.last];
    }
  }

  /** The rows of a response, before its event. */
  lemma RowsChain(c: Config, s: Durable, a: string, channel: Channel, response: ChannelResponse, ids: Ids, at: string)
    returns (tr: Trail, es: seq<Effect>)
    requires response.success ==> HasOutput(response)
    ensures Chain(c, s, tr, es, at) && (forall e :: e in es ==> !e.Write?)
    ensures tr == Measured(c.env.taskId, if response.success
                    then Emit(c, Begin(s), Register(OutputRow(s.disk, c.env.taskId, a, response.output.value, ids.artifact, at)), at)
                    else Begin(s), c.env, a, channel, response, ids.metric, at)
  {
    tr, es := Begin(s), [];
    var e: Effect;
    if response.success {
      e := Register(OutputRow(s.disk, c.env.taskId, a, response.output.value, ids.artifact, at));
      EmitChain(c, s, tr, es, e, at);
      tr, es := Emit(c, tr, e, at), Extended(c, tr, es, e, at);
    }
    e := Charge(CostRow(c.env.taskId, a, channel, response, at));
    EmitChain(c, s, tr, es, e, at);
    tr, es := Emit(c, tr, e, at), Extended(c, tr, es, e, at);
    e := Measure(ids.metric, MetricRow(c.env.taskId, c.env, channel, response, at), a);
    EmitChain(c, s, tr, es, e, at);
    tr, es := Emit(c, tr, e, at), Extended(c, tr, es, e, at);
  }

  // ---- the invariant of the log

  /** The channel output with this id and uri was registered for the current attempt. */
  predicate OutputRegistered(c: Config, db: Db, id: string, uri: Uri, i: nat) {
    && i < |db.artifacts| && db.artifacts[i].id == id && db.artifacts[i].uri == uri
    && db.artifacts[i].taskId == c.env.taskId && db.artifacts[i].attempt == Current(c, db)
    && db.artifacts[i].kind == "channel-output"
  }

  /** The last answer since the start is this response. */
  ghost predicate Answered(c: Config, s: Durable, response: ChannelResponse) {
    var answer := TallyIn(c, s).answer;
    && answer.Some? && answer.value.ChannelFinished? && answer.value.success == response.success
    && (response.success ==>
          answer.value.artifactId.Some? && HasOutput(response)
          && exists i: nat :: OutputRegistered(c, s.db, answer.value.artifactId.value, response.output.value, i))
  }

  /** From its start event on, a run may dispatch once, and its response is the last answer logged. */
  ghost predicate Logged(c: Config, s: Durable, run: Run) {
    run.pc.Spawning? || Live(run.pc) ==>
      if run.response.Some? then Answered(c, s, run.response.value)
      else TallyIn(c, s).finished < TallyIn(c, s).started && TallyIn(c, s).answer.None?
  }

  /** The output accepted with the result: another row for the channel's own output, with a hash. */
  predicate OutputAccepted(c: Config, db: Db, uri: Uri, j: nat) {
    && j < |db.artifacts| && db.artifacts[j].uri == uri && db.artifacts[j].sha.Some?
    && db.artifacts[j].taskId == c.env.taskId && db.artifacts[j].attempt == Current(c, db)
  }

  ghost predicate HasOutputRows(c: Config, db: Db, id: string) {
    exists uri, i: nat, j: nat :: i < j && OutputRegistered(c, db, id, uri, i) && OutputAccepted(c, db, uri, j)
  }

  /** The database shows why the task is COMPLETED. */
  ghost predicate Evidence(c: Config, s: Durable) {
    var answer := TallyIn(c, s).answer;
    && answer.Some? && answer.value.ChannelFinished? && answer.value.success
    && answer.value.artifactId.Some? && HasOutputRows(c, s.db, answer.value.artifactId.value)
  }

  ghost predicate LogInv(c: Config, w: World) {
    && TallyIn(c, w.s).finished <= TallyIn(c, w.s).started
    && (T(c, w.s.db) == Some(COMPLETED) ==> Evidence(c, w.s))
    && (forall r :: r in w.m.runs ==> Logged(c, w.s, w.m.runs[r]))
  }

  // ---- growth

  lemma {:induction false} ArtifactsGrow(db: Db, xs: seq<Repositories.Txn>)
    ensures db.artifacts <= Repositories.Exec(db, xs).artifacts
  {
    if xs != [] {
      var mid := Repositories.Exec(db, xs[..|xs| - 1]);
      ArtifactsGrow(db, xs[..|xs| - 1]);
      assert mid.artifacts <= Repositories.After(mid, xs[|xs| - 1]).artifacts by { OneGrows(mid, xs[|xs| - 1]); }
    }
  }

  lemma OneGrows(db: Db, x: Repositories.Txn)
    ensures db.artifacts <= Repositories.After(db, x).artifacts
  {
    assert Repositories.After(db, x).artifacts[..|db.artifacts|] == db.artifacts;
  }

  /** Rows and the current attempt are still there after a step. */
  ghost predicate Extends(c: Config, s: Durable, d: Durable) {
    s.db.artifacts <= d.db.artifacts && (Current(c, s.db).Some? ==> Current(c, d.db) == Current(c, s.db))
  }

  lemma StepExtends(c: Config, w: World, choice: Choice)
    requires Inv(c, w)
    ensures Extends(c, w.s, Next(c, w, choice).s)
  {
    var xs := StepIsLawful(c, w, choice);
    ArtifactsGrow(w.s.db, xs);
    Step(c, w, choice);
    if Current(c, w.s.db).Some? {
      OwnAttemptStays(c, w.s.db, xs, Current(c, w.s.db).value);
    }
  }

  lemma {:induction false} OwnAttemptStays(c: Config, db: Db, xs: seq<Repositories.Txn>, a: string)
    requires Of(c, db, a)
    ensures Of(c, Repositories.Exec(db, xs), a)
  {
    if xs != [] {
      OwnAttemptStays(c, db, xs[..|xs| - 1], a);
      Lifecycle.GenerationKept(Repositories.Exec(db, xs[..|xs| - 1]), xs[|xs| - 1], a);
    }
  }

  lemma AnsweredStays(c: Config, s: Durable, d: Durable, response: ChannelResponse)
    requires Answered(c, s, response) && Extends(c, s, d) && TallyIn(c, d) == TallyIn(c, s)
    requires Current(c, s.db).Some?
    ensures Answered(c, d, response)
  {
    if response.success {
      var id := TallyIn(c, s).answer.value.artifactId.value;
      var i: nat :| OutputRegistered(c, s.db, id, response.output.value, i);
      assert OutputRegistered(c, d.db, id, response.output.value, i);
    }
  }

  lemma EvidenceStays(c: Config, s: Durable, d: Durable)
    requires Evidence(c, s) && Extends(c, s, d) && TallyIn(c, d) == TallyIn(c, s) && Current(c, s.db).Some?
    ensures Evidence(c, d)
  {
    var id := TallyIn(c, s).answer.value.artifactId.value;
    var uri, i: nat, j: nat :| i < j && OutputRegistered(c, s.db, id, uri, i) && OutputAccepted(c, s.db, uri, j);
    assert OutputRegistered(c, d.db, id, uri, i) && OutputAccepted(c, d.db, uri, j);
  }

  // ---- steps of the invariant

  predicate Dispatching(run: Run) {
    run.pc.Spawning? || Live(run.pc)
  }

  /** Apart from a start and an answer, no run gets past its start or a response. */
  lemma DispatchingBefore(c: Config, w: World, a: Action, r: nat)
    requires Inv(c, w) && !Starts(w, a) && !Answers(w, a)
    requires r in Perform(c, w, a).m.runs && Dispatching(Perform(c, w, a).m.runs[r])
    ensures r in w.m.runs && Dispatching(w.m.runs[r]) && Perform(c, w, a).m.runs[r].response == w.m.runs[r].response
  {
    if a.Go? && a.run in w.m.runs {
      if a.run == r {
        GoDispatching(c, w, r, a.input, a.at);
      } else {
        GoNames(c, w, a.run, a.input, a.at);
        GoOthers(c, w, r, a.run, a.input, a.at);
      }
    } else if a.ResumeCommand? {
      ResumeDispatching(c, w, a.at, r);
    } else if !a.Go? {
      CommandDispatching(c, w, a, r);
    }
  }

  lemma GoDispatching(c: Config, w: World, r: nat, input: Input, at: string)
    requires r in w.m.runs && r in GoRun(c, w, r, w.m.runs[r], input, at).m.runs
    requires Dispatching(GoRun(c, w, r, w.m.runs[r], input, at).m.runs[r])
    requires !Starts(w, Go(r, input, at)) && !Answers(w, Go(r, input, at))
    ensures Dispatching(w.m.runs[r]) && GoRun(c, w, r, w.m.runs[r], input, at).m.runs[r].response == w.m.runs[r].response
  {
    hide Launch, Settle, Receive, Claim, Permit, Admissible;
  }

  lemma ResumeDispatching(c: Config, w: World, at: string, r: nat)
    requires r in DoResume(c, w, at).m.runs && Dispatching(DoResume(c, w, at).m.runs[r]) && w.m.next !in w.m.runs
    ensures r in w.m.runs && DoResume(c, w, at).m.runs[r] == w.m.runs[r]
  {
  }

  lemma CommandDispatching(c: Config, w: World, a: Action, r: nat)
    requires !a.Go? && !a.ResumeCommand?
    requires r in Perform(c, w, a).m.runs && Dispatching(Perform(c, w, a).m.runs[r])
    ensures r in w.m.runs && Dispatching(w.m.runs[r]) && Perform(c, w, a).m.runs[r].response == w.m.runs[r].response
  {
  }

  /** The step that completes the task leaves the evidence behind. */
  lemma CompletionLeavesEvidence(c: Config, w: World, choice: Choice)
    requires Inv(c, w) && LogInv(c, w) && T(c, w.s.db) != Some(COMPLETED) && T(c, Next(c, w, choice).s.db) == Some(COMPLETED)
    ensures Evidence(c, Next(c, w, choice).s)
  {
    hide Next, Rest, HashMatches;
    CompletionIsEarned(c, w, choice);
    var e := StepSets(c, w, choice, COMPLETED);
    OnlyStoringCompletes(c, w, choice.a, e);
    QuietStep(c, w, choice);
    StepExtends(c, w, choice);
    var run := w.m.runs[choice.a.run];
    var d := Next(c, w, choice).s;
    assert RunOk(c, w.s, run) && Logged(c, w.s, run);
    AcceptedRow(c, w, choice);
    AnsweredStays(c, w.s, d, run.response.value);
    var id := TallyIn(c, d).answer.value.artifactId.value;
    var uri := run.response.value.output.value;
    var i: nat :| OutputRegistered(c, w.s.db, TallyIn(c, w.s).answer.value.artifactId.value, uri, i);
    assert OutputRegistered(c, d.db, id, uri, i) && OutputAccepted(c, d.db, uri, |w.s.db.artifacts|);
  }

  lemma AcceptedRow(c: Config, w: World, choice: Choice)
    requires Inv(c, w) && Storing(w, choice.a, COMPLETED)
    requires Earned(c, w.s, w.m.runs[choice.a.run], w.m.runs[choice.a.run].pc.result, choice.a.input.id)
    requires T(c, w.s.db) != Some(COMPLETED) && T(c, Next(c, w, choice).s.db) == Some(COMPLETED)
    ensures var d := Next(c, w, choice).s;
            && w.m.runs[choice.a.run].response.Some? && w.m.runs[choice.a.run].response.value.output.Some?
            && OutputAccepted(c, d.db, w.m.runs[choice.a.run].response.value.output.value, |w.s.db.artifacts|)
  {
    var run, id, at := w.m.runs[choice.a.run], choice.a.input.id, choice.a.at;
    assert RunOk(c, w.s, run);
    CompletedResult(c, w.s, run);
    var tr := Settle(c, w.s, run, run.pc.result, id, at);
    SettleStates(c, w.s, run, run.pc.result, id, at, if choice.Do? then |tr.before| else choice.k);
    SettledTrail(c, w, choice.a);
    SettleRow(c, w.s, run, run.pc.result, id, at);
    assert Next(c, w, choice).s == tr.last;
  }

  lemma SettledTrail(c: Config, w: World, a: Action)
    requires Storing(w, a, COMPLETED)
    requires !Settle(c, w.s, w.m.runs[a.run], w.m.runs[a.run].pc.result, a.input.id, a.at).failed
    ensures Perform(c, w, a).trail == Settle(c, w.s, w.m.runs[a.run], w.m.runs[a.run].pc.result, a.input.id, a.at)
  {
    hide Settle;
    var run := w.m.runs[a.run];
    var tr := Settle(c, w.s, run, run.pc.result, a.input.id, a.at);
    SettledOutcome(c, w, a.run, run, run.pc.result, a.input.id, a.at, tr);
    assert Perform(c, w, a) == GoReturning(c, w, a.run, run, run.pc.result, a.input, a.at);
  }

  lemma SettledOutcome(c: Config, w: World, r: nat, run: Run, result: PluginResult, id: string, at: string, tr: Trail)
    requires tr == Settle(c, w.s, run, result, id, at) && !tr.failed
    ensures GoReturning(c, w, r, run, result, Concludes(id), at).trail == tr
  {
  }

  /** Storing a result is accepting its output, logging it and finishing. */
  lemma SettleShape(c: Config, s: Durable, run: Run, r: PluginResult, id: string, at: string)
    requires Rest(c, s) && Bound(c, s, run) && |r.outputs| > 0 && !run.cancelled && r.learning <= c.learning
    ensures var accepted := Emit(c, Begin(s), Accept(r.outputs[0], id, run.attempt), at);
            Settle(c, s, run, r, id, at)
            == Finish(c, Emit(c, accepted, Write(ResultAccepted(c.env.plugin, r.status, |r.outputs|), run.attempt), at), run, r.status, at)
  {
  }

  lemma AcceptAdds(c: Config, s: Durable, o: Output, id: string, a: string, at: string)
    requires Rest(c, s) && Current(c, s.db) == Some(a) && HashMatches(s.disk, o) && !IdTaken(s.db, id)
    ensures var d := Emit(c, Begin(s), Accept(o, id, a), at);
            && !d.failed && Current(c, d.last.db) == Some(a)
            && d.last.db.artifacts == s.db.artifacts + [Artifact(id, c.env.taskId, Some(a), o.kind, o.uri, Some(o.sha), None, at)]
  {
  }

  lemma SettleRow(c: Config, s: Durable, run: Run, r: PluginResult, id: string, at: string)
    requires Rest(c, s) && Bound(c, s, run) && r.status in {COMPLETED, FAILED} && |r.outputs| > 0
    requires Earned(c, s, run, r, id)
    ensures var d := Settle(c, s, run, r, id, at).last;
            && Current(c, d.db) == Some(run.attempt)
            && d.db.artifacts == s.db.artifacts + [Artifact(id, c.env.taskId, Some(run.attempt), r.outputs[0].kind, r.outputs[0].uri,
                                                            Some(r.outputs[0].sha), None, at)]
  {
    var e := Accept(r.outputs[0], id, run.attempt);
    var note := ResultAccepted(c.env.plugin, r.status, |r.outputs|);
    SettleShape(c, s, run, r, id, at);
    AcceptAdds(c, s, r.outputs[0], id, run.attempt, at);
    RowRests(c, Begin(s), e, at);
    var accepted := Emit(c, Begin(s), e, at);
    NoteRests(c, accepted, note, run.attempt, at);
    FinishRests(c, Emit(c, accepted, Write(note, run.attempt), at), run, r.status, at);
  }

  lemma QuietLogStep(c: Config, w: World, choice: Choice)
    requires Inv(c, w) && LogInv(c, w) && !Starts(w, choice.a) && !Answers(w, choice.a)
    ensures LogInv(c, Next(c, w, choice))
  {
    var v := Next(c, w, choice);
    QuietStep(c, w, choice);
    StepExtends(c, w, choice);
    forall r | r in v.m.runs ensures Logged(c, v.s, v.m.runs[r]) {
      if Dispatching(v.m.runs[r]) {
        DispatchingBefore(c, w, choice.a, r);
        assert RunOk(c, w.s, w.m.runs[r]) && Logged(c, w.s, w.m.runs[r]);
        if v.m.runs[r].response.Some? {
          AnsweredStays(c, w.s, v.s, v.m.runs[r].response.value);
        }
      }
    }
    if T(c, v.s.db) == Some(COMPLETED) {
      if T(c, w.s.db) == Some(COMPLETED) {
        EvidenceStays(c, w.s, v.s);
      } else {
        CompletionLeavesEvidence(c, w, choice);
      }
    }
  }

  lemma NotCompleted(c: Config, w: World, choice: Choice)
    requires Inv(c, w) && (Starts(w, choice.a) || Answers(w, choice.a))
    ensures T(c, Next(c, w, choice).s.db) != Some(COMPLETED)
  {
    assert RunOk(c, w.s, w.m.runs[choice.a.run]);
    if T(c, Next(c, w, choice).s.db) == Some(COMPLETED) {
      CompletionIsEarned(c, w, choice);
      assert false;
    }
  }

  /** The tally after a start, or in any state a crash leaves of it. */
  lemma StartTally(c: Config, w: World, choice: Choice)
    requires Starts(w, choice.a)
    ensures var v := TallyIn(c, Next(c, w, choice).s);
            && (v == TallyIn(c, w.s) || v == Counted(TallyIn(c, w.s), PluginStarted(c.env.plugin)))
            && (choice.Do? && !Launch(c, w.s, w.m.runs[choice.a.run], choice.a.at).failed ==>
                  v == Counted(TallyIn(c, w.s), PluginStarted(c.env.plugin)))
  {
    hide Launch, Abort, TallyIn;
    var run := w.m.runs[choice.a.run];
    var at := choice.a.at;
    var tr := Launch(c, w.s, run, at);
    if tr.failed {
      var es := LaunchChain(c, w.s, run, at);
      es := AbortChain(c, w.s, tr, run, at, es);
      var whole := Abort(c, tr, run, at);
      QuietTrail(c, w.s, whole, es, at, if choice.Do? then |whole.before| else choice.k);
    } else {
      StartTrail(c, w.s, run, at, if choice.Do? then |tr.before| else choice.k);
    }
  }

  lemma StartLogStep(c: Config, w: World, choice: Choice)
    requires Inv(c, w) && LogInv(c, w) && Starts(w, choice.a)
    ensures LogInv(c, Next(c, w, choice))
  {
    hide Rest, Launch;
    assert RunOk(c, w.s, w.m.runs[choice.a.run]);
    NotCompleted(c, w, choice);
    OwnerIsAlone(c, w, choice.a.run);
    StartTally(c, w, choice);
    StartMemory(c, w, choice.a);
  }

  lemma StartMemory(c: Config, w: World, a: Action)
    requires Starts(w, a) && Alone(w.m, a.run)
    ensures var m := Perform(c, w, a).m;
            forall r :: r in m.runs && Dispatching(m.runs[r]) ==>
              && r == a.run && m.runs[r].response == w.m.runs[r].response
              && !Launch(c, w.s, w.m.runs[r], a.at).failed
  {
  }

  lemma AnswerLogStep(c: Config, w: World, choice: Choice)
    requires Inv(c, w) && LogInv(c, w) && Answers(w, choice.a)
    ensures LogInv(c, Next(c, w, choice))
  {
    hide Receive, Rest;
    var r := choice.a.run;
    var run := w.m.runs[r];
    assert RunOk(c, w.s, run) && Logged(c, w.s, run);
    NotCompleted(c, w, choice);
    OwnerIsAlone(c, w, r);
    var name := w.s.db.attempts[run.attempt].channel;
    if name.Some? && name.value in run.channels {
      var channel, response, ids, at := run.channels[name.value], choice.a.input.response, choice.a.input.ids, choice.a.at;
      var tr := Receive(c.env.taskId, w.s, c.env, run.attempt, run.generation, channel, response, ids, at);
      AnswerTrail(c, w.s, run.attempt, run.generation, channel, response, ids, at, if choice.Do? then |tr.before| else choice.k);
      if !tr.failed {
        ReceivedIsAnswered(c, w.s, run.attempt, run.generation, channel, response, ids, at);
      }
    }
  }

  lemma ReceivedIsAnswered(c: Config, s: Durable, a: string, g: int, channel: Channel, response: ChannelResponse, ids: Ids, at: string)
    requires Current(c, s.db) == Some(a)
    requires !Receive(c.env.taskId, s, c.env, a, g, channel, response, ids, at).failed
    ensures Answered(c, Receive(c.env.taskId, s, c.env, a, g, channel, response, ids, at).last, response)
  {
    var d := Receive(c.env.taskId, s, c.env, a, g, channel, response, ids, at).last;
    AnswerTrail(c, s, a, g, channel, response, ids, at, 0);
    AcceptedResponse(c.env.taskId, s, c.env, a, g, channel, response, ids, at);
    if response.success {
      assert OutputRegistered(c, d.db, ids.artifact, response.output.value, |s.db.artifacts|);
    }
  }

  lemma LogStep(c: Config, w: World, choice: Choice)
    requires Inv(c, w) && LogInv(c, w)
    ensures LogInv(c, Next(c, w, choice))
  {
    if Starts(w, choice.a) {
      StartLogStep(c, w, choice);
    } else if Answers(w, choice.a) {
      AnswerLogStep(c, w, choice);
    } else {
      QuietLogStep(c, w, choice);
    }
  }

  /** No event of the task is in a log that owns only rows of known tasks. */
  lemma {:induction false} UnknownTally(db: Db, n: nat, t: string)
    requires Lifecycle.Ownership(db) && t !in db.tasks && n <= |db.log|
    ensures TallyOf(db.log[..n], t) == Tally(0, 0, None)
  {
    if n > 0 {
      UnknownTally(db, n - 1, t);
      assert db.log[..n][..n - 1] == db.log[..n - 1];
      assert Lifecycle.Owned(db, db.log[n - 1].taskId, db.log[n - 1].attempt);
    }
  }

  /**
    In every log, channel answers are at most as many as plugin starts: one dispatch per run. And a
    COMPLETED task's log ends, after its last start, in a successful channel answer whose output was
    registered, and later accepted with a hash, for the task's current attempt.
   */
  lemma {:induction false} NoFalseCompletion(c: Config, w: World, choices: seq<Choice>)
    requires Initial(c, w) && Lifecycle.Valid(w.s.db)
    ensures var u := After(c, w, choices);
            && TallyIn(c, u.s).finished <= TallyIn(c, u.s).started
            && (T(c, u.s.db) == Some(COMPLETED) ==> Evidence(c, u.s))
            && LogInv(c, u)
  {
    if choices == [] {
      UnknownTally(w.s.db, |w.s.db.log|, c.env.taskId);
      assert w.s.db.log[..|w.s.db.log|] == w.s.db.log;
    } else {
      var n := |choices| - 1;
      NoFalseCompletion(c, w, choices[..n]);
      AlwaysInv(c, w, choices[..n]);
      LogStep(c, After(c, w, choices[..n]), choices[n]);
    }
  }
}
