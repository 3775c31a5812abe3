/** The invariant of the protocol: one run at most owns the task, and its position fixes the statuses. */
module ProtocolInvariant {
  import opened Prelude
  import opened Records
  import opened ChannelPolicy
  import opened Effects
  import opened Protocol
  import opened ProtocolStates
  import opened ProtocolSegments

  /** Past the point where a second run of the task would be turned away. */
  predicate Claims(run: Run) {
    run.kind.Resumed? || !run.pc.Probing?
  }

  predicate Pair(c: Config, s: Durable, task: Status, attempt: Status) {
    T(c, s.db) == Some(task) && A(c, s.db) == Some(attempt)
  }

  /** The handoff the run was resumed with is the one in the latest registered checkpoint. */
  ghost predicate HandsOver(c: Config, s: Durable, run: Run) {
    run.kind.Resumed? ==> exists body :: LatestIs(c, s.db, body) && body.stateRef == run.kind.handoff
  }

  ghost predicate Placed(c: Config, s: Durable, run: Run) {
    match run.pc
    case Probing => T(c, s.db) == Some(QUEUED) && A(c, s.db) in {Some(PAUSED), Some(FAILED)} && HandsOver(c, s, run)
    case Health =>
      && run.generation == 1 && HandsOver(c, s, run)
      && if run.kind.Fresh? then Pair(c, s, CREATED, ASSIGNED)
         else T(c, s.db) == Some(QUEUED) && A(c, s.db) in {Some(PAUSED), Some(FAILED)}
    case Spawning => run.generation == 1 && HandsOver(c, s, run) && Pair(c, s, RUNNING, RUNNING)
    case _ => run.generation == 1 && (Pair(c, s, RUNNING, RUNNING) || Pair(c, s, PAUSED, PAUSED))
  }

  /** The request asks for this task, with its capability and in its workspace. */
  predicate RequestFits(c: Config, request: ChannelRequest) {
    request.taskId == c.env.taskId && request.capability == c.env.capability && request.workspace == c.env.workspace
  }

  /**
    The result is final, about this task, after a channel answer (a successful one for COMPLETED);
    it reports one subscription call and nothing else, no handoff, and the output of the channel or none.
   */
  predicate ResultFits(c: Config, response: Option<ChannelResponse>, r: PluginResult) {
    && r.taskId == c.env.taskId && (r.status == COMPLETED || r.status == FAILED)
    && response.Some? && (r.status == COMPLETED ==> response.value.success)
    && r.usage.apiCalls == 0 && r.usage.apiSpendUsd == 0 && r.usage.subscriptionCalls == 1 && r.usage.retries == 0
    && r.handoff == None
    && (response.value.output == None ==> r.outputs == [])
    && (response.value.output.Some? ==> |r.outputs| == 1 && r.outputs[0].uri == response.value.output.value)
  }

  /** The adapter lets exactly the fitting results through. */
  lemma AdmissibleIsFitting(c: Config, response: Option<ChannelResponse>, r: PluginResult)
    ensures Admissible(c, response, r) <==> ResultFits(c, response, r)
  {
  }

  ghost predicate RunOk(c: Config, s: Durable, run: Run) {
    && (run.outcome.Some? || run.response.Some? ==> Live(run.pc))
    && (run.response.Some? && run.response.value.success ==> HasOutput(run.response.value))
    && (Claims(run) ==>
          && Current(c, s.db) == Some(run.attempt) && Placed(c, s, run)
          && (run.outcome == Some(true) || run.pc.Signalling? ==> Pair(c, s, PAUSED, PAUSED))
          && (run.pc.Calling? ==> run.response.None? && RequestFits(c, run.pc.request))
          && (run.pc.Returning? ==> ResultFits(c, run.response, run.pc.result)))
  }

  ghost predicate RunsOk(c: Config, w: World) {
    forall r :: r in w.m.runs ==> r < w.m.next && RunOk(c, w.s, w.m.runs[r])
  }

  /** At most one run owns the task. */
  predicate OneOwner(m: Memory) {
    forall r, q :: r in m.runs && q in m.runs && Claims(m.runs[r]) && Claims(m.runs[q]) ==> r == q
  }

  /** The active table holds exactly the run that is past its probes. */
  predicate ActiveOk(m: Memory) {
    && (m.active.Some? ==> m.active.value in m.runs)
    && (forall r :: r in m.runs ==> (!m.runs[r].pc.Probing? <==> m.active == Some(r)))
  }

  /** A pause in flight belongs to the live run of a RUNNING task, or the task has finished meanwhile. */
  predicate PauseOk(c: Config, w: World) {
    !w.m.pause.NoPause? ==>
      && Current(c, w.s.db) == Some(w.m.pause.attempt)
      && (T(c, w.s.db) in {Some(COMPLETED), Some(FAILED)}
          || (Pair(c, w.s, RUNNING, RUNNING) && w.m.active == Some(w.m.pause.run)
              && w.m.pause.run in w.m.runs && Live(w.m.runs[w.m.pause.run].pc)))
  }

  ghost predicate Inv(c: Config, w: World) {
    Rest(c, w.s) && RunsOk(c, w) && OneOwner(w.m) && ActiveOk(w.m) && PauseOk(c, w)
  }

  ghost predicate Good(c: Config, o: Outcome) {
    AllRest(c, o.trail) && Inv(c, World(o.trail.last, o.m))
  }

  /** Every other run is still waiting for its probes. */
  predicate Alone(m: Memory, r: nat) {
    forall q :: q in m.runs && q != r ==> !Claims(m.runs[q])
  }

  lemma OwnerIsAlone(c: Config, w: World, r: nat)
    requires Inv(c, w)
    requires (r in w.m.runs && Claims(w.m.runs[r])) || T(c, w.s.db).None?
    ensures Alone(w.m, r)
  {
    forall q | q in w.m.runs && q != r ensures !Claims(w.m.runs[q]) {
      assert RunOk(c, w.s, w.m.runs[q]);
    }
  }

  /** The step of a run that is alone: it is enough to look at that run and the pause. */
  lemma Assemble(c: Config, w: World, r: nat, v: World)
    requires Inv(c, w) && Alone(w.m, r) && Rest(c, v.s) && w.m.next <= v.m.next
    requires forall q :: q in v.m.runs && q != r ==> q in w.m.runs && v.m.runs[q] == w.m.runs[q]
    requires r in v.m.runs ==> r < v.m.next && RunOk(c, v.s, v.m.runs[r])
    requires v.m.active == (if r in v.m.runs && !v.m.runs[r].pc.Probing? then Some(r) else None)
    requires PauseOk(c, v)
    ensures Inv(c, v)
  {
    forall q | q in v.m.runs ensures q < v.m.next && RunOk(c, v.s, v.m.runs[q]) {
      if q != r {
        assert RunOk(c, w.s, w.m.runs[q]);
      }
    }
  }

  /** A run that had no effect yet may go away. */
  lemma QuitKeeps(c: Config, w: World, r: nat)
    requires Inv(c, w) && r in w.m.runs && w.m.runs[r].pc.Probing?
    ensures Inv(c, World(w.s, Quit(w.m, r)))
  {
  }

  // ---- the steps of a run

  lemma ProbingStep(c: Config, w: World, r: nat, input: Input, at: string)
    requires Inv(c, w) && r in w.m.runs && w.m.runs[r].pc.Probing?
    ensures Good(c, GoProbing(c, w, r, w.m.runs[r], input, at))
  {
    hide Claim;
    var run := w.m.runs[r];
    var o := GoProbing(c, w, r, run, input, at);
    QuitKeeps(c, w, r);
    if input.Probed? && input.attempt != "" {
      if run.kind.Fresh? {
        FreshProbed(c, w, r, input, at);
      } else if o.m.active == Some(r) {
        OwnerIsAlone(c, w, r);
        assert RunOk(c, w.s, run);
        assert RunOk(c, w.s, o.m.runs[r]);
        Assemble(c, w, r, World(w.s, o.m));
      }
    }
  }

  lemma FreshProbed(c: Config, w: World, r: nat, input: Input, at: string)
    requires Inv(c, w) && r in w.m.runs && w.m.runs[r].pc.Probing? && w.m.runs[r].kind.Fresh?
    requires input.Probed? && input.attempt != ""
    ensures Good(c, GoProbing(c, w, r, w.m.runs[r], input, at))
  {
    hide Claim;
    var run := w.m.runs[r];
    var o := GoProbing(c, w, r, run, input, at);
    ClaimRests(c, w.s, input.attempt, input.worker, input.channel, at);
    if T(c, w.s.db).Some? {
      QuitKeeps(c, w, r);
    } else {
      OwnerIsAlone(c, w, r);
      assert RunOk(c, w.s, run);
      if r in o.m.runs {
        assert RunOk(c, o.trail.last, o.m.runs[r]);
      }
      Assemble(c, w, r, World(o.trail.last, o.m));
    }
  }

  /** The end of a run through the exception handler. */
  lemma FailStep(c: Config, w: World, r: nat, tr: Trail, at: string)
    requires Inv(c, w) && r in w.m.runs && !w.m.runs[r].pc.Probing? && AllRest(c, tr)
    requires Bound(c, tr.last, w.m.runs[r])
    requires (T(c, tr.last.db) == T(c, w.s.db) && A(c, tr.last.db) == A(c, w.s.db)) || !Live(w.m.runs[r].pc)
    ensures Good(c, Fail(c, w, r, w.m.runs[r], tr, at))
  {
    hide Abort, Rest;
    var run := w.m.runs[r];
    var o := Fail(c, w, r, run, tr, at);
    AbortRests(c, tr, run, at);
    OwnerIsAlone(c, w, r);
    assert RunOk(c, w.s, run);
    Assemble(c, w, r, World(o.trail.last, o.m));
  }

  lemma HealthStep(c: Config, w: World, r: nat, input: Input, at: string)
    requires Inv(c, w) && r in w.m.runs && w.m.runs[r].pc.Health?
    ensures Good(c, GoHealth(c, w, r, w.m.runs[r], input, at))
  {
    hide Launch, Rest, Abort;
    var run := w.m.runs[r];
    assert RunOk(c, w.s, run);
    if input.Raises? {
      FailStep(c, w, r, Begin(w.s), at);
    } else if input.Proceeds? {
      LaunchRests(c, w.s, run, at);
      var tr := Launch(c, w.s, run, at);
      if tr.failed {
        FailStep(c, w, r, tr, at);
      } else {
        Launched(c, w, r, tr);
      }
    }
  }

  lemma Launched(c: Config, w: World, r: nat, tr: Trail)
    requires Inv(c, w) && r in w.m.runs && w.m.runs[r].pc.Health? && AllRest(c, tr) && Pair(c, tr.last, RUNNING, RUNNING)
    requires Current(c, tr.last.db) == Current(c, w.s.db) && Pointer(c, tr.last.db) == Pointer(c, w.s.db)
    requires tr.last.db.artifacts == w.s.db.artifacts
    ensures Inv(c, World(tr.last, Update(w.m, r, w.m.runs[r].(pc := Spawning))))
  {
    var run := w.m.runs[r];
    assert RunOk(c, w.s, run);
    OwnerIsAlone(c, w, r);
    HandoverLasts(c, w.s, tr.last, run);
    var v := World(tr.last, Update(w.m, r, run.(pc := Spawning)));
    assert RunOk(c, v.s, v.m.runs[r]);
    Assemble(c, w, r, v);
  }

  lemma HandoverLasts(c: Config, s: Durable, d: Durable, run: Run)
    requires HandsOver(c, s, run)
    requires Current(c, d.db) == Current(c, s.db) && Pointer(c, d.db) == Pointer(c, s.db) && d.db.artifacts == s.db.artifacts
    ensures HandsOver(c, d, run)
  {
    if run.kind.Resumed? {
      var body :| LatestIs(c, s.db, body) && body.stateRef == run.kind.handoff;
      assert LatestIs(c, d.db, body);
    }
  }

  /** The run moves on in memory only. */
  lemma MoveStep(c: Config, w: World, r: nat, run': Run)
    requires Inv(c, w) && r in w.m.runs && !w.m.runs[r].pc.Probing? && Live(run'.pc)
    requires RunOk(c, w.s, run') && Claims(run')
    ensures Inv(c, World(w.s, Update(w.m, r, run')))
  {
    OwnerIsAlone(c, w, r);
    Assemble(c, w, r, World(w.s, Update(w.m, r, run')));
  }

  lemma IdleStep(c: Config, w: World)
    requires Inv(c, w)
    ensures Good(c, Idle(w))
  {
  }

  /** Moving on to a position that the checks made so far allow. */
  lemma ToStep(c: Config, w: World, r: nat, pc: Pc)
    requires Inv(c, w) && r in w.m.runs && Live(w.m.runs[r].pc) && Live(pc) && !pc.Signalling?
    requires pc.Calling? ==> w.m.runs[r].response.None? && RequestFits(c, pc.request)
    requires pc.Returning? ==> ResultFits(c, w.m.runs[r].response, pc.result)
    ensures Good(c, To(w, r, w.m.runs[r], pc))
  {
    var run := w.m.runs[r];
    assert RunOk(c, w.s, run);
    MoveStep(c, w, r, run.(pc := pc));
  }

  lemma PollingStep(c: Config, w: World, r: nat, input: Input)
    requires Inv(c, w) && r in w.m.runs && w.m.runs[r].pc.Polling?
    ensures Good(c, GoPolling(c, w, r, w.m.runs[r], input))
  {
    hide Good, Inv, Admissible, Permit;
    IdleStep(c, w);
    if input.Exits? && w.m.runs[r].exited {
      ExitStep(c, w, r, input.printed);
    } else if input.Asks? {
      AskStep(c, w, r, input.request);
    } else {
      ToStep(c, w, r, Winding);
    }
  }

  /** The run may call its channel. */
  predicate MayCall(c: Config, w: World, r: nat, request: ChannelRequest)
    requires r in w.m.runs
  {
    var run := w.m.runs[r];
    run.response.None? && Permit(w.s.db, c.env.taskId, run.attempt, run.generation, request, run.channels).Ok?
  }

  lemma AskedFits(c: Config, w: World, r: nat, request: ChannelRequest)
    requires Inv(c, w) && r in w.m.runs && MayCall(c, w, r, request)
    ensures RequestFits(c, request)
  {
    var run := w.m.runs[r];
    PermitExactlyWhen(w.s.db, c.env.taskId, run.attempt, run.generation, request, run.channels);
  }

  lemma AskStep(c: Config, w: World, r: nat, request: ChannelRequest)
    requires Inv(c, w) && r in w.m.runs && w.m.runs[r].pc.Polling?
    ensures Good(c, GoPolling(c, w, r, w.m.runs[r], Asks(request)))
  {
    hide Good, Inv, Permit;
    IdleStep(c, w);
    ToStep(c, w, r, Winding);
    if MayCall(c, w, r, request) {
      AskedFits(c, w, r, request);
      ToStep(c, w, r, Calling(request));
    }
  }

  lemma ExitStep(c: Config, w: World, r: nat, printed: Printed)
    requires Inv(c, w) && r in w.m.runs && w.m.runs[r].pc.Polling? && w.m.runs[r].exited
    ensures Good(c, GoPolling(c, w, r, w.m.runs[r], Exits(printed)))
  {
    hide Good, Inv, Admissible, ResultFits;
    ToStep(c, w, r, Winding);
    match printed
    case Garbage =>
    case Handoff => ToStep(c, w, r, AwaitingOutcome);
    case Final(result) =>
      AdmissibleIsFitting(c, w.m.runs[r].response, result);
      if Admissible(c, w.m.runs[r].response, result) {
        ToStep(c, w, r, Returning(result));
      }
  }

  lemma AwaitingStep(c: Config, w: World, r: nat, input: Input)
    requires Inv(c, w) && r in w.m.runs && w.m.runs[r].pc.AwaitingOutcome?
    ensures Good(c, GoAwaitingOutcome(w, r, w.m.runs[r], input))
  {
    var run := w.m.runs[r];
    var o := GoAwaitingOutcome(w, r, run, input);
    IdleStep(c, w);
    assert RunOk(c, w.s, run);
    if o.m != w.m {
      MoveStep(c, w, r, o.m.runs[r]);
    }
  }

  lemma CallingStep(c: Config, w: World, r: nat, input: Input, at: string)
    requires Inv(c, w) && r in w.m.runs && w.m.runs[r].pc.Calling?
    ensures Good(c, GoCalling(c, w, r, w.m.runs[r], input, at))
  {
    hide Receive, Rest;
    var run := w.m.runs[r];
    IdleStep(c, w);
    assert RunOk(c, w.s, run);
    if input.Raises? {
      ToStep(c, w, r, Winding);
    } else if input.Responds? && run.attempt in w.s.db.attempts {
      var channel := w.s.db.attempts[run.attempt].channel;
      if channel.Some? && channel.value in run.channels {
        var tr := Receive(c.env.taskId, w.s, c.env, run.attempt, run.generation, run.channels[channel.value],
                          input.response, input.ids, at);
        ReceiveRests(c, w.s, run.attempt, run.generation, run.channels[channel.value], input.response, input.ids, at);
        if !tr.failed {
          AcceptedResponse(c.env.taskId, w.s, c.env, run.attempt, run.generation, run.channels[channel.value],
                           input.response, input.ids, at);
        }
        ResponseStep(c, w, r, tr, if tr.failed then run.(pc := Winding) else run.(pc := Polling, response := Some(input.response)));
      }
    }
  }

  lemma ResponseStep(c: Config, w: World, r: nat, tr: Trail, run': Run)
    requires Inv(c, w) && r in w.m.runs && w.m.runs[r].pc.Calling? && AllRest(c, tr)
    requires tr.last.disk == w.s.disk && tr.last.db.tasks == w.s.db.tasks && tr.last.db.attempts == w.s.db.attempts
    requires run'.pc.Winding? || run'.pc.Polling?
    requires run'.response.Some? && run'.response.value.success ==> HasOutput(run'.response.value)
    requires run'.kind == w.m.runs[r].kind && run'.attempt == w.m.runs[r].attempt && run'.generation == w.m.runs[r].generation
             && run'.outcome == w.m.runs[r].outcome
    ensures Inv(c, World(tr.last, Update(w.m, r, run')))
  {
    hide Rest;
    assert RunOk(c, w.s, w.m.runs[r]);
    OwnerIsAlone(c, w, r);
    assert RunOk(c, tr.last, run');
    Assemble(c, w, r, World(tr.last, Update(w.m, r, run')));
  }

  lemma ReturningStep(c: Config, w: World, r: nat, input: Input, at: string)
    requires Inv(c, w) && r in w.m.runs && w.m.runs[r].pc.Returning?
    ensures Good(c, GoReturning(c, w, r, w.m.runs[r], w.m.runs[r].pc.result, input, at))
  {
    hide Settle, Rest, Abort;
    var run := w.m.runs[r];
    IdleStep(c, w);
    assert RunOk(c, w.s, run);
    if input.Raises? {
      FailStep(c, w, r, Begin(w.s), at);
    } else if input.Concludes? {
      SettleRests(c, w.s, run, run.pc.result, input.id, at);
      var tr := Settle(c, w.s, run, run.pc.result, input.id, at);
      if tr.failed {
        FailStep(c, w, r, tr, at);
      } else {
        OwnerIsAlone(c, w, r);
        Assemble(c, w, r, World(tr.last, End(w.m, r)));
      }
    }
  }

  lemma RunStep(c: Config, w: World, r: nat, input: Input, at: string)
    requires Inv(c, w) && r in w.m.runs
    ensures Good(c, GoRun(c, w, r, w.m.runs[r], input, at))
  {
    var run := w.m.runs[r];
    IdleStep(c, w);
    assert RunOk(c, w.s, run);
    match run.pc
    case Probing => ProbingStep(c, w, r, input, at);
    case Health => HealthStep(c, w, r, input, at);
    case Spawning =>
      if input.Raises? {
        FailStep(c, w, r, Begin(w.s), at);
      } else if input.Proceeds? {
        MoveStep(c, w, r, run.(pc := Polling));
      }
    case Polling => PollingStep(c, w, r, input);
    case Calling(_) => CallingStep(c, w, r, input, at);
    case AwaitingOutcome => AwaitingStep(c, w, r, input);
    case Signalling =>
      if input.Raises? {
        FailStep(c, w, r, Begin(w.s), at);
      } else if input.Proceeds? {
        OwnerIsAlone(c, w, r);
        Assemble(c, w, r, World(w.s, End(w.m, r)));
      }
    case Winding =>
      if input.Raises? || input.Proceeds? {
        FailStep(c, w, r, Begin(w.s), at);
      }
    case Returning(_) => ReturningStep(c, w, r, input, at);
  }
}
