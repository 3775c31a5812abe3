/** What the adapter and the channel service check of a plugin, read off the worlds that schedules reach. */
module ProtocolChecks {
  import opened Prelude
  import opened Records
  import opened CheckpointPolicy
  import opened ChannelPolicy
  import opened Effects
  import opened Protocol
  import opened ProtocolStates
  import opened ProtocolSegments
  import opened ProtocolInvariant
  import opened ProtocolCommands
  import opened ProtocolTheorems
  import opened ProtocolOutcomes
  import Repositories
  import Lifecycle

  // ---- channel requests

  /** The next world when this ends the await of run r. */
  function AfterInput(c: Config, w: World, r: nat, input: Input): World {
    Next(c, w, Do(Go(r, input, "")))
  }

  /**
    A polling run whose process lives, that nobody stopped and that has no answer yet, goes on to
    call its channel exactly when task and attempt are RUNNING, the attempt is current under its
    token, the request carries the task, capability and workspace of the envelope, and the channel
    of the attempt is configured, a subscription and capable. Any other request ends the run.
   */
  lemma CallsExactlyWhen(c: Config, w: World, r: nat, request: ChannelRequest)
    requires Inv(c, w) && r in w.m.runs && w.m.runs[r].pc.Polling?
    requires !w.m.runs[r].exited && !w.m.runs[r].cancelled && w.m.runs[r].response.None?
    ensures var run, t := w.m.runs[r], c.env.taskId;
            var v := AfterInput(c, w, r, Asks(request));
            && v.s == w.s && r in v.m.runs && (v.m.runs[r].pc == Calling(request) || v.m.runs[r].pc == Winding)
            && (v.m.runs[r].pc == Calling(request) <==>
                  && T(c, w.s.db) == Some(RUNNING) && A(c, w.s.db) == Some(RUNNING) && Current(c, w.s.db) == Some(run.attempt)
                  && request.taskId == t && request.capability == c.env.capability && request.workspace == c.env.workspace
                  && run.attempt in w.s.db.attempts
                  && var name := w.s.db.attempts[run.attempt].channel;
                     name.Some? && name.value != "" && name.value in run.channels
                     && run.channels[name.value].class_ == SUBSCRIPTION && c.env.capability in run.channels[name.value].capabilities)
  {
    var run := w.m.runs[r];
    assert RunOk(c, w.s, run);
    PermitExactlyWhen(w.s.db, c.env.taskId, run.attempt, run.generation, request, run.channels);
    hide Permit;
  }

  /** A request is left alone once the process has exited, the run is stopped, or the one answer is there. */
  lemma LaterRequestsAreIgnored(c: Config, w: World, r: nat, request: ChannelRequest)
    requires r in w.m.runs && w.m.runs[r].pc.Polling?
    requires w.m.runs[r].exited || w.m.runs[r].cancelled || w.m.runs[r].response.Some?
    ensures AfterInput(c, w, r, Asks(request)) == w
  {
  }

  /** The channel that the run calls. */
  predicate CallsSubscription(c: Config, s: Durable, run: Run) {
    && run.attempt in s.db.attempts && run.pc.Calling?
    && run.pc.request.capability == c.env.capability
    && var name := s.db.attempts[run.attempt].channel;
       name.Some? && name.value in run.channels
       && run.channels[name.value].class_ == SUBSCRIPTION && c.env.capability in run.channels[name.value].capabilities
  }

  ghost predicate CallsOk(c: Config, w: World) {
    forall r :: r in w.m.runs && w.m.runs[r].pc.Calling? ==> CallsSubscription(c, w.s, w.m.runs[r])
  }

  /** The channel of an attempt is decided when it is created. */
  lemma {:induction false} ChannelStays(db: Db, xs: seq<Repositories.Txn>, a: string)
    requires a in db.attempts
    ensures var d := Repositories.Exec(db, xs); a in d.attempts && d.attempts[a].channel == db.attempts[a].channel
  {
    if xs != [] {
      ChannelStays(db, xs[..|xs| - 1], a);
      ChannelKept(Repositories.Exec(db, xs[..|xs| - 1]), xs[|xs| - 1], a);
    }
  }

  lemma ChannelKept(db: Db, x: Repositories.Txn, a: string)
    requires a in db.attempts
    ensures var d := Repositories.After(db, x); a in d.attempts && d.attempts[a].channel == db.attempts[a].channel
  {
  }

  /** A call that is in flight after a step was in flight before, or the step asked for it. */
  lemma CallBefore(c: Config, w: World, a: Action, r: nat)
    requires Inv(c, w) && r in Perform(c, w, a).m.runs && Perform(c, w, a).m.runs[r].pc.Calling?
    ensures r in w.m.runs
    ensures var run, run' := w.m.runs[r], Perform(c, w, a).m.runs[r];
            && run'.attempt == run.attempt && run'.channels == run.channels
            && (run'.pc == run.pc
                || (a.Go? && a.run == r && run.pc.Polling? && Perform(c, w, a).trail == Begin(w.s)
                    && MayCall(c, w, r, run'.pc.request)))
  {
    hide GoRun, DoResume;
    if a.Go? && a.run in w.m.runs {
      if a.run == r {
        GoCallBefore(c, w, r, a.input, a.at);
      } else {
        GoNames(c, w, a.run, a.input, a.at);
        GoOthers(c, w, r, a.run, a.input, a.at);
      }
    } else if a.ResumeCommand? {
      ResumeCallBefore(c, w, a.at, r);
    } else if !a.Go? {
      CommandCallBefore(c, w, a, r);
    }
  }

  lemma GoCallBefore(c: Config, w: World, r: nat, input: Input, at: string)
    requires r in w.m.runs && r in GoRun(c, w, r, w.m.runs[r], input, at).m.runs
    requires GoRun(c, w, r, w.m.runs[r], input, at).m.runs[r].pc.Calling?
    ensures var run, run' := w.m.runs[r], GoRun(c, w, r, w.m.runs[r], input, at).m.runs[r];
            && run'.attempt == run.attempt && run'.channels == run.channels
            && (run'.pc == run.pc
                || (run.pc.Polling? && GoRun(c, w, r, run, input, at).trail == Begin(w.s) && MayCall(c, w, r, run'.pc.request)))
  {
    hide Launch, Settle, Receive, Claim, Permit, Admissible, Abort;
  }

  lemma ResumeCallBefore(c: Config, w: World, at: string, r: nat)
    requires r in DoResume(c, w, at).m.runs && DoResume(c, w, at).m.runs[r].pc.Calling? && w.m.next !in w.m.runs
    ensures r in w.m.runs && DoResume(c, w, at).m.runs[r] == w.m.runs[r]
  {
    hide Load, Recover, Emit;
  }

  lemma CommandCallBefore(c: Config, w: World, a: Action, r: nat)
    requires !a.Go? && !a.ResumeCommand?
    requires r in Perform(c, w, a).m.runs && Perform(c, w, a).m.runs[r].pc.Calling?
    ensures r in w.m.runs
    ensures var run, run' := w.m.runs[r], Perform(c, w, a).m.runs[r];
            run'.attempt == run.attempt && run'.channels == run.channels && run'.pc == run.pc
  {
    hide Persist, Repositories.After;
  }

  lemma CallsStep(c: Config, w: World, choice: Choice)
    requires Inv(c, w) && CallsOk(c, w)
    ensures CallsOk(c, Next(c, w, choice))
  {
    hide Perform, Inv, MayCall;
    var v := Next(c, w, choice);
    var xs := StepIsLawful(c, w, choice);
    forall r | r in v.m.runs && v.m.runs[r].pc.Calling? ensures CallsSubscription(c, v.s, v.m.runs[r]) {
      CallBefore(c, w, choice.a, r);
      if v.m.runs[r].pc == w.m.runs[r].pc {
        ChannelStays(w.s.db, xs, v.m.runs[r].attempt);
      } else {
        AskedCallsSubscription(c, w, r, v.m.runs[r]);
      }
    }
  }

  lemma AskedCallsSubscription(c: Config, w: World, r: nat, run': Run)
    requires Inv(c, w) && r in w.m.runs && run'.pc.Calling? && MayCall(c, w, r, run'.pc.request)
    requires run'.attempt == w.m.runs[r].attempt && run'.channels == w.m.runs[r].channels
    ensures CallsSubscription(c, w.s, run')
  {
    var run := w.m.runs[r];
    PermitExactlyWhen(w.s.db, c.env.taskId, run.attempt, run.generation, run'.pc.request, run.channels);
  }

  lemma {:induction false} AlwaysCallsSubscription(c: Config, w: World, choices: seq<Choice>)
    requires Initial(c, w) && Lifecycle.Valid(w.s.db)
    ensures CallsOk(c, After(c, w, choices))
  {
    if choices != [] {
      var n := |choices| - 1;
      AlwaysCallsSubscription(c, w, choices[..n]);
      AlwaysInv(c, w, choices[..n]);
      CallsStep(c, After(c, w, choices[..n]), choices[n]);
    }
  }

  /**
    In every reachable world a call in flight is for this task, with its capability and in its
    workspace, on behalf of its current attempt, and it goes to the attempt's own channel, which is
    a subscription with that capability. No schedule ever calls a paid channel.
   */
  lemma CallsAreGranted(c: Config, w: World, choices: seq<Choice>, r: nat)
    requires Initial(c, w) && Lifecycle.Valid(w.s.db) && r in After(c, w, choices).m.runs
    requires After(c, w, choices).m.runs[r].pc.Calling?
    ensures var u := After(c, w, choices);
            var run := u.m.runs[r];
            && run.pc.request.taskId == c.env.taskId && run.pc.request.capability == c.env.capability
            && run.pc.request.workspace == c.env.workspace && run.response.None?
            && Current(c, u.s.db) == Some(run.attempt) && run.attempt in u.s.db.attempts
            && u.s.db.attempts[run.attempt].channel.Some?
            && u.s.db.attempts[run.attempt].channel.value in run.channels
            && var channel := run.channels[u.s.db.attempts[run.attempt].channel.value];
               channel.class_ == SUBSCRIPTION && c.env.capability in channel.capabilities
  {
    AlwaysInv(c, w, choices);
    AlwaysCallsSubscription(c, w, choices);
    assert RunOk(c, After(c, w, choices).s, After(c, w, choices).m.runs[r]);
  }

  // ---- plugin results

  /**
    A run whose process has exited, after the answers it got, returns the final result it printed
    exactly when that is about this task, COMPLETED after a successful answer or FAILED after any,
    reports no API call, no API spend, one subscription call and no retry, carries no handoff, and
    lists as its outputs the channel's output or, if there was none, nothing. Any other result ends
    the run.
   */
  lemma ReturnsExactlyWhen(c: Config, w: World, r: nat, x: PluginResult)
    requires r in w.m.runs && w.m.runs[r].pc.Polling? && w.m.runs[r].exited
    ensures var v := AfterInput(c, w, r, Exits(Final(x)));
            var response := w.m.runs[r].response;
            && v.s == w.s && r in v.m.runs && (v.m.runs[r].pc == Returning(x) || v.m.runs[r].pc == Winding)
            && (v.m.runs[r].pc == Returning(x) <==>
                  && x.taskId == c.env.taskId && response.Some?
                  && ((x.status == COMPLETED && response.value.success) || x.status == FAILED)
                  && x.usage.apiCalls == 0 && x.usage.apiSpendUsd == 0 && x.usage.subscriptionCalls == 1 && x.usage.retries == 0
                  && x.handoff.None?
                  && (if response.value.output.None? then x.outputs == []
                      else |x.outputs| == 1 && x.outputs[0].uri == response.value.output.value))
  {
    AdmissibleIsFitting(c, w.m.runs[r].response, x);
    hide Admissible;
  }

  /** In every reachable world a run that returns a result has had all of that checked. */
  lemma ReturnedIsChecked(c: Config, w: World, choices: seq<Choice>, r: nat)
    requires Initial(c, w) && Lifecycle.Valid(w.s.db) && r in After(c, w, choices).m.runs
    requires After(c, w, choices).m.runs[r].pc.Returning?
    ensures var run := After(c, w, choices).m.runs[r];
            var x := run.pc.result;
            && x.taskId == c.env.taskId && (x.status == COMPLETED || x.status == FAILED)
            && x.usage.apiCalls == 0 && x.usage.apiSpendUsd == 0 && x.usage.subscriptionCalls == 1 && x.usage.retries == 0
            && x.handoff.None?
            && run.response.Some? && (x.status == COMPLETED ==> run.response.value.success)
            && (if run.response.value.output.None? then x.outputs == []
                else |x.outputs| == 1 && x.outputs[0].uri == run.response.value.output.value)
  {
    AlwaysInv(c, w, choices);
    assert RunOk(c, After(c, w, choices).s, After(c, w, choices).m.runs[r]);
  }

  /** Anything but a final result: a handoff waits for the pause to be stored, anything else ends the run. */
  lemma OtherExits(c: Config, w: World, r: nat)
    requires r in w.m.runs && w.m.runs[r].pc.Polling?
    ensures var exited := w.m.runs[r].exited;
            && AfterInput(c, w, r, Exits(Handoff)) == (if exited then World(w.s, Update(w.m, r, w.m.runs[r].(pc := AwaitingOutcome))) else w)
            && AfterInput(c, w, r, Exits(Garbage)) == (if exited then World(w.s, Update(w.m, r, w.m.runs[r].(pc := Winding))) else w)
  {
  }

  /** A handed-off run goes on once the pause has an outcome: with the paused signal if it was stored, as a failure if not. */
  lemma OutcomeDecides(c: Config, w: World, r: nat)
    requires r in w.m.runs && w.m.runs[r].pc.AwaitingOutcome?
    ensures var run := w.m.runs[r];
            AfterInput(c, w, r, Proceeds)
            == if run.outcome == None then w
               else World(w.s, Update(w.m, r, run.(pc := if run.outcome == Some(true) then Signalling else Winding)))
  {
  }

  /** A stop ends a polling run whose process lives, and a run that has been signalled ends without any effect. */
  lemma StopAndSignalEnd(c: Config, w: World, r: nat)
    requires r in w.m.runs
    ensures w.m.runs[r].pc.Polling? && w.m.runs[r].cancelled && !w.m.runs[r].exited ==>
              AfterInput(c, w, r, Proceeds) == World(w.s, Update(w.m, r, w.m.runs[r].(pc := Winding)))
    ensures w.m.runs[r].pc.Signalling? ==> AfterInput(c, w, r, Proceeds) == World(w.s, End(w.m, r))
  {
  }

  /**
    An exception, timeout or cancellation: before its first effect the run just goes; inside the
    adapter it unwinds; in the service it ends, with the task failed by the handler (AbortRests).
   */
  lemma ExceptionsEndTheRun(c: Config, w: World, r: nat)
    requires r in w.m.runs
    ensures var run, v := w.m.runs[r], AfterInput(c, w, r, Raises);
            match run.pc
            case Probing => v == World(w.s, Quit(w.m, r))
            case Polling => v == World(w.s, Update(w.m, r, run.(pc := Winding)))
            case Calling(_) => v == World(w.s, Update(w.m, r, run.(pc := Winding)))
            case AwaitingOutcome => v == World(w.s, Update(w.m, r, run.(pc := Winding)))
            case _ => r !in v.m.runs && v.m.active == None && v.s == Abort(c, Begin(w.s), run, "").last
  {
    hide Abort;
  }

  /**
    The answer of the channel: it is kept and the run polls on exactly when all its effects went
    through; otherwise the run unwinds. LateResponseLeavesNothing says when none of them does.
   */
  lemma CallEnds(c: Config, w: World, r: nat, response: ChannelResponse, ids: Ids, at: string)
    requires r in w.m.runs && w.m.runs[r].pc.Calling? && CallsSubscription(c, w.s, w.m.runs[r])
    ensures var run, v := w.m.runs[r], Next(c, w, Do(Go(r, Responds(response, ids), at)));
            var channel := run.channels[w.s.db.attempts[run.attempt].channel.value];
            var tr := Receive(c.env.taskId, w.s, c.env, run.attempt, run.generation, channel, response, ids, at);
            v == World(tr.last, Update(w.m, r, if tr.failed then run.(pc := Winding)
                                               else run.(pc := Polling, response := Some(response))))
  {
    hide Receive;
  }

  /** A stop and the exit of the process each set their mark on the active run with a live process, and nothing else. */
  lemma MarksTheActiveRun(c: Config, w: World)
    requires Inv(c, w)
    ensures var live := w.m.active.Some? && Live(w.m.runs[w.m.active.value].pc);
            && Next(c, w, Do(StopCommand))
               == (if live then World(w.s, Update(w.m, w.m.active.value, w.m.runs[w.m.active.value].(cancelled := true))) else w)
            && Next(c, w, Do(ProcessExits))
               == (if live then World(w.s, Update(w.m, w.m.active.value, w.m.runs[w.m.active.value].(exited := true))) else w)
  {
  }

  // ---- starting

  /**
    A run whose probes succeed gets past them exactly when, as a first run, the database does not
    know the task, a worker was found and the attempt id is fresh, or, as a resumed run, it has a
    handoff and an attempt; and the plugin can be bound. A first run then holds attempt 1 of the task
    for that worker and channel.
   */
  lemma StartsExactlyWhen(c: Config, w: World, r: nat, channels: map<string, Channel>, channel: string, worker: string,
                          a: string, binds: bool, at: string)
    requires Inv(c, w) && r in w.m.runs && w.m.runs[r].pc.Probing? && a != ""
    ensures var run := w.m.runs[r];
            var v := Next(c, w, Do(Go(r, Probed(channels, channel, worker, a, binds), at)));
            && (r in v.m.runs <==>
                  && binds
                  && (if run.kind.Fresh? then T(c, w.s.db).None? && worker != "" && a !in w.s.db.attempts
                      else run.kind.handoff != "" && run.attempt in w.s.db.attempts))
            && (r in v.m.runs ==> v.m.runs[r].pc.Health? && v.m.runs[r].channels == channels && v.m.active == Some(r))
            && (r in v.m.runs && run.kind.Fresh? ==>
                  && v.m.runs[r].attempt == a && Current(c, v.s.db) == Some(a) && a in v.s.db.attempts
                  && v.s.db.attempts[a] == Attempt(c.env.taskId, 1, worker, Some(channel), ASSIGNED, None, None, None, None, 1))
            && (run.kind.Resumed? ==> v.s == w.s)
  {
    var run := w.m.runs[r];
    if run.kind.Fresh? {
      ClaimExactlyWhen(c, w.s, a, worker, channel, at);
    }
    ProbedOutcome(c, w, r, run, channels, channel, worker, a, binds, at);
    hide Rest, GoProbing, Claim;
    assert Perform(c, w, Go(r, Probed(channels, channel, worker, a, binds), at))
           == GoProbing(c, w, r, run, Probed(channels, channel, worker, a, binds), at);
  }

  lemma ProbedOutcome(c: Config, w: World, r: nat, run: Run, channels: map<string, Channel>, channel: string, worker: string,
                      a: string, binds: bool, at: string)
    requires a != "" && (r in w.m.runs)
    ensures var o := GoProbing(c, w, r, run, Probed(channels, channel, worker, a, binds), at);
            var claim := Claim(c, w.s, a, worker, channel, at);
            && (r in o.m.runs <==>
                  && binds
                  && (if run.kind.Fresh? then !claim.failed && a in claim.last.db.attempts
                      else run.kind.handoff != "" && run.attempt in w.s.db.attempts))
            && (r in o.m.runs ==> o.m.runs[r].pc.Health? && o.m.runs[r].channels == channels && o.m.active == Some(r))
            && (r in o.m.runs && run.kind.Fresh? ==> o.m.runs[r].attempt == a)
            && o.trail.last == (if run.kind.Fresh? then claim.last else w.s)
  {
    hide Claim;
  }

  lemma ClaimExactlyWhen(c: Config, s: Durable, a: string, worker: string, channel: string, at: string)
    requires Rest(c, s) && a != ""
    ensures var d := Claim(c, s, a, worker, channel, at);
            && (!d.failed <==> T(c, s.db).None? && worker != "" && a !in s.db.attempts)
            && (!d.failed ==>
                  && Current(c, d.last.db) == Some(a) && a in d.last.db.attempts
                  && d.last.db.attempts[a] == Attempt(c.env.taskId, 1, worker, Some(channel), ASSIGNED, None, None, None, None, 1))
  {
    CreateRests(c, s, at);
    var created := Emit(c, Begin(s), Create(c.env), at);
    if !created.failed {
      NoAttemptsYet(c, created.last.db);
      assert created.last.db.attempts == s.db.attempts;
    }
  }

  // ---- pausing

  /** A pause is taken up exactly for a RUNNING task with a current attempt and a live process, one at a time. */
  lemma PauseAskedExactlyWhen(c: Config, w: World)
    requires Inv(c, w)
    ensures var v := Next(c, w, Do(PauseCommand));
            && v.s == w.s
            && (v != w <==>
                  && w.m.pause.NoPause? && T(c, w.s.db) == Some(RUNNING) && Current(c, w.s.db).Some?
                  && w.m.active.Some? && Live(w.m.runs[w.m.active.value].pc))
            && (v != w ==> v.m.pause == Asked(w.m.active.value, Current(c, w.s.db).value) && v.m.runs == w.m.runs)
  {
  }

  /**
    An answer to a pause counts exactly while its run has a live process, and only with a handoff.
    It is saved no earlier than that process has exited; a pause that fails tells its run so.
   */
  lemma PauseAnswers(c: Config, w: World, handoff: string, id: string, at: string)
    ensures w.m.pause.Asked? ==>
              var p := w.m.pause;
              Next(c, w, Do(PauseAnswered(handoff)))
              == if p.run in w.m.runs && Live(w.m.runs[p.run].pc) && handoff != ""
                 then World(w.s, w.m.(pause := Answered(p.run, p.attempt, handoff))) else w
    ensures !w.m.pause.Asked? ==> Next(c, w, Do(PauseAnswered(handoff))) == w
    ensures !w.m.pause.Answered? || (w.m.pause.run in w.m.runs && !w.m.runs[w.m.pause.run].exited) ==>
              Next(c, w, Do(PauseSaved(id, at))) == w
  {
    hide Persist;
  }

  /** The end of a pause clears it and sets the outcome of a live run that has none yet; nothing else changes. */
  lemma PauseEnds(c: Config, w: World)
    requires !w.m.pause.NoPause?
    ensures var v, r := Next(c, w, Do(PauseFails)), w.m.pause.run;
            && v.s == w.s && v.m.pause.NoPause? && v.m.active == w.m.active && v.m.runs.Keys == w.m.runs.Keys
            && (forall q :: q in w.m.runs && q != r ==> v.m.runs[q] == w.m.runs[q])
            && (r in w.m.runs ==>
                  v.m.runs[r] == if Live(w.m.runs[r].pc) && w.m.runs[r].outcome == None
                                 then w.m.runs[r].(outcome := Some(false)) else w.m.runs[r])
  {
  }

  /** A run command starts a first run exactly when the service has no active run of the task. */
  lemma RunCommandStarts(c: Config, w: World)
    requires Inv(c, w)
    ensures var v := Next(c, w, Do(RunCommand));
            && v.s == w.s && (w.m.next in v.m.runs <==> w.m.active.None?)
            && (v.m.runs == if w.m.active.None? then w.m.runs[w.m.next := NewRun(Fresh, "")] else w.m.runs)
  {
  }

  /** What a stored pause leaves behind: the drafted file, and its row as the latest checkpoint. */
  lemma PersistStores(c: Config, s: Durable, a: string, handoff: string, id: string, at: string)
    requires Rest(c, s) && Current(c, s.db) == Some(a) && Pair(c, s, RUNNING, RUNNING)
    requires !Persist(c, s, a, handoff, id, at).failed
    ensures a in s.db.attempts && Prepare(s.disk, s.db, CheckpointRequest(c, s, a, handoff, at)).Ok?
    ensures var draft := Prepare(s.disk, s.db, CheckpointRequest(c, s, a, handoff, at)).value;
            var d := Persist(c, s, a, handoff, id, at).last;
            && LatestIs(c, d.db, draft.body) && d.disk == Replace(s.disk, draft) && Pointer(c, d.db) == Some(Plain(draft.path))
  {
    var q := CheckpointRequest(c, s, a, handoff, at);
    var prepared := Prepare(s.disk, s.db, q);
    if prepared.Ok? {
      var draft := prepared.value;
      PreparedIsDrafted(c, s.disk, s.db, q);
      hide Prepare;
      SavedThenLatest(c, s, q, draft, id, at);
      var sealed := Emit(c, Emit(c, Begin(s), Save(draft), at), Seal(draft, id), at);
      hide Rest, Emit, LatestIs, Drafted, Replace;
      PersistIs(c, s, a, handoff, id, at);
      if !sealed.failed {
        PauseBothRests(c, sealed, a, at);
        LatestKept(c, sealed.last, Persist(c, s, a, handoff, id, at).last, draft.body);
      } else {
        Refused(c, sealed, MoveAttempt(a, 1, PAUSED), at);
        Refused(c, sealed, MoveTask(PAUSED, a, 1), at);
      }
    }
  }

  lemma SavedThenLatest(c: Config, s: Durable, q: CheckpointPolicy.Request, draft: Draft, id: string, at: string)
    requires Rest(c, s) && Current(c, s.db) == Some(q.attemptId) && Drafted(c, q, draft)
    ensures var sealed := Emit(c, Emit(c, Begin(s), Save(draft), at), Seal(draft, id), at);
            && AllRest(c, sealed) && sealed.last.disk == Replace(s.disk, draft)
            && (!sealed.failed ==>
                  && At(c, sealed.last, T(c, s.db), A(c, s.db), Some(q.attemptId), Some(Plain(draft.path)))
                  && LatestIs(c, sealed.last.db, draft.body))
  {
    var saved := Emit(c, Begin(s), Save(draft), at);
    assert AllRest(c, saved) && saved.last.disk == Replace(s.disk, draft) && saved.last.db == s.db;
    SealRests(c, saved, q, draft, id, at);
    SealKeepsDisk(c, saved, draft, id, at);
  }

  lemma SealKeepsDisk(c: Config, tr: Trail, draft: Draft, id: string, at: string)
    ensures Emit(c, tr, Seal(draft, id), at).last.disk == tr.last.disk
  {
  }

  lemma LatestKept(c: Config, s: Durable, d: Durable, body: CheckpointBody)
    requires LatestIs(c, s.db, body) && Keeps(c, s, d)
    ensures LatestIs(c, d.db, body)
  {
  }

  lemma PersistIs(c: Config, s: Durable, a: string, handoff: string, id: string, at: string)
    requires Rest(c, s) && Current(c, s.db) == Some(a) && a in s.db.attempts
    requires Prepare(s.disk, s.db, CheckpointRequest(c, s, a, handoff, at)).Ok?
    ensures var draft := Prepare(s.disk, s.db, CheckpointRequest(c, s, a, handoff, at)).value;
            Persist(c, s, a, handoff, id, at)
            == Emit(c, Emit(c, Emit(c, Emit(c, Begin(s), Save(draft), at), Seal(draft, id), at),
                               MoveAttempt(a, 1, PAUSED), at), MoveTask(PAUSED, a, 1), at)
  {
    hide Prepare, Emit;
  }

  /**
    The checkpoint that a stored pause leaves: about this task, plugin and attempt, with the worker
    and the channel of the attempt, the handoff of the plugin, the accessible artifacts of the task
    in row order, and the next revision; written to the file that the pointer now names, with every
    other file as it was.
   */
  lemma PauseStoresTheAttempt(c: Config, w: World, id: string, at: string)
    requires Inv(c, w) && w.m.pause.Answered? && (w.m.pause.run in w.m.runs ==> w.m.runs[w.m.pause.run].exited)
    requires T(c, Next(c, w, Do(PauseSaved(id, at))).s.db) == Some(PAUSED)
    ensures w.m.pause.attempt in w.s.db.attempts
    ensures var p, v := w.m.pause, Next(c, w, Do(PauseSaved(id, at)));
            var row := w.s.db.attempts[p.attempt];
            exists body ::
              && LatestIs(c, v.s.db, body)
              && body.taskId == c.env.taskId && body.plugin == c.env.plugin && body.attemptId == p.attempt && body.generation == 1
              && body.stateRef == p.handoff && body.workerId == row.worker && body.channelId == row.channel
              && body.artifactRefs == AccessibleRefs(w.s.disk, w.s.db.artifacts, c.env.taskId, |w.s.db.artifacts|)
              && body.globalStatus == "PAUSED" && body.schemaVersion == "1.0" && body.nextAction == "resume_plugin"
              && body.createdAt == at && NextRevision(w.s.disk, w.s.db.artifacts, c.env.taskId) == Ok(body.revision)
              && Pointer(c, v.s.db).Some? && Pointer(c, v.s.db).value.Plain?
              && v.s.disk == w.s.disk.(files := w.s.disk.files[Pointer(c, v.s.db).value.path := Written(body)])
  {
    var p := w.m.pause;
    hide CanSave, Persist, AccessibleRefs, NextRevision;
    PauseSavesExactlyWhen(c, w, id, at);
    assert Pair(c, w.s, RUNNING, RUNNING) by { SavesOnlyRunning(c, w.s, p.attempt, p.handoff, id); }
    PersistSucceedsExactlyWhen(c, w.s, p.attempt, p.handoff, id, at);
    PersistStores(c, w.s, p.attempt, p.handoff, id, at);
    var q := CheckpointRequest(c, w.s, p.attempt, p.handoff, at);
    PrepareMeaning(w.s.disk, w.s.db, q);
    hide Prepare, LatestIs, Rest;
    var draft := Prepare(w.s.disk, w.s.db, q).value;
    assert Next(c, w, Do(PauseSaved(id, at))).s == Persist(c, w.s, p.attempt, p.handoff, id, at).last;
    assert LatestIs(c, Next(c, w, Do(PauseSaved(id, at))).s.db, draft.body);
  }

  lemma SavesOnlyRunning(c: Config, s: Durable, a: string, handoff: string, id: string)
    requires CanSave(c, s, a, handoff, id)
    ensures Pair(c, s, RUNNING, RUNNING)
  {
  }

  // ---- failing

  /** The exception handler writes the failure event first, unless the task is PAUSED, when it writes nothing. */
  lemma AbortLogs(c: Config, tr: Trail, run: Run, at: string)
    requires AllRest(c, tr) && Bound(c, tr.last, run)
    ensures var d := Abort(c, tr, run, at);
            if T(c, tr.last.db) == Some(PAUSED) then d.last == tr.last
            else
              && |d.last.db.log| > |tr.last.db.log| && tr.last.db.log <= d.last.db.log
              && d.last.db.log[|tr.last.db.log|] == EventRow(c.env.taskId, Some(run.attempt), Noted(PluginFailed), at)
  {
    if T(c, tr.last.db) != Some(PAUSED) {
      var handler := tr.(failed := false);
      NoteRests(c, handler, PluginFailed, run.attempt, at);
      var noted := Emit(c, handler, Write(PluginFailed, run.attempt), at);
      assert noted.last.db.log == tr.last.db.log + [EventRow(c.env.taskId, Some(run.attempt), Noted(PluginFailed), at)];
      FinishGrows(c, noted, run, FAILED, at);
    }
  }

  lemma FinishGrows(c: Config, tr: Trail, run: Run, target: Status, at: string)
    ensures tr.last.db.log <= Finish(c, tr, run, target, at).last.db.log
  {
    var one := Emit(c, tr, MoveAttempt(run.attempt, run.generation, target), at);
    assert tr.last.db.log <= one.last.db.log;
  }

  // ---- the other events

  lemma NoteIsLast(c: Config, tr: Trail, note: Note, a: string, at: string)
    requires !Emit(c, tr, Write(note, a), at).failed
    ensures var log := Emit(c, tr, Write(note, a), at).last.db.log;
            |log| > 0 && log[|log| - 1] == EventRow(c.env.taskId, Some(a), Noted(note), at)
  {
  }

  /** A start ends with the plugin's start event, a recovery with the event that names the generation. */
  lemma StartsAndRecoveriesAreLogged(c: Config, s: Durable, run: Run, a: string, at: string)
    requires a in s.db.attempts
    ensures !Launch(c, s, run, at).failed ==>
              var log := Launch(c, s, run, at).last.db.log;
              |log| > 0 && log[|log| - 1] == EventRow(c.env.taskId, Some(run.attempt), Noted(PluginStarted(c.env.plugin)), at)
    ensures !Recover(c, s, a, at).failed ==>
              var log := Recover(c, s, a, at).last.db.log;
              |log| > 0 && log[|log| - 1]
                == EventRow(c.env.taskId, Some(a), Noted(InterruptedResumeRecovered(s.db.attempts[a].generation)), at)
  {
    hide Emit;
    var g := s.db.attempts[a].generation;
    if !Launch(c, s, run, at).failed {
      NoteIsLast(c, Activate(c, s, run, at), PluginStarted(c.env.plugin), run.attempt, at);
    }
    if !Recover(c, s, a, at).failed {
      NoteIsLast(c, Emit(c, Emit(c, Begin(s), MoveAttempt(a, g, PAUSED), at), MoveTask(PAUSED, a, g), at),
                 InterruptedResumeRecovered(g), a, at);
    }
  }

  /** A stored result adds three events, after that of its output: the acceptance with status and number of outputs, then both moves. */
  lemma ResultIsLogged(c: Config, s: Durable, run: Run, r: PluginResult, id: string, at: string)
    requires Rest(c, s) && Bound(c, s, run) && !Settle(c, s, run, r, id, at).failed
    ensures var log := Settle(c, s, run, r, id, at).last.db.log;
            var n := |s.db.log| + (if |r.outputs| > 0 then 1 else 0);
            && |log| == n + 3 && s.db.log <= log && A(c, s.db).Some? && T(c, s.db).Some?
            && log[n] == EventRow(c.env.taskId, Some(run.attempt), Noted(ResultAccepted(c.env.plugin, r.status, |r.outputs|)), at)
            && log[n + 1] == EventRow(c.env.taskId, Some(run.attempt), AttemptStatusChanged(A(c, s.db).value, r.status, 1, None), at)
            && log[n + 2] == EventRow(c.env.taskId, Some(run.attempt), TaskStatusChanged(T(c, s.db).value, r.status), at)
  {
    var start := Begin(s);
    var accepted := if |r.outputs| == 0 then start else Emit(c, start, Accept(r.outputs[0], id, run.attempt), at);
    var note := ResultAccepted(c.env.plugin, r.status, |r.outputs|);
    var logged := Emit(c, accepted, Write(note, run.attempt), at);
    assert Settle(c, s, run, r, id, at) == Finish(c, logged, run, r.status, at);
    assert !logged.failed && !accepted.failed by { hide Apply; }
    AcceptedLog(c, s, accepted, r, id, run.attempt, at);
    NoteLog(c, accepted, note, run.attempt, at);
    FinishLog(c, logged, run, r.status, at);
  }

  lemma AcceptedLog(c: Config, s: Durable, accepted: Trail, r: PluginResult, id: string, a: string, at: string)
    requires accepted == if |r.outputs| == 0 then Begin(s) else Emit(c, Begin(s), Accept(r.outputs[0], id, a), at)
    requires !accepted.failed
    ensures var d := accepted.last.db;
            && |d.log| == |s.db.log| + (if |r.outputs| > 0 then 1 else 0) && s.db.log <= d.log
            && d.tasks == s.db.tasks && d.attempts == s.db.attempts
  {
  }

  lemma NoteLog(c: Config, tr: Trail, note: Note, a: string, at: string)
    requires !Emit(c, tr, Write(note, a), at).failed
    ensures var d := Emit(c, tr, Write(note, a), at).last.db;
            d == tr.last.db.(log := tr.last.db.log + [EventRow(c.env.taskId, Some(a), Noted(note), at)])
  {
  }

  lemma FinishLog(c: Config, tr: Trail, run: Run, target: Status, at: string)
    requires !Finish(c, tr, run, target, at).failed && Current(c, tr.last.db) == Some(run.attempt)
    ensures A(c, tr.last.db).Some? && T(c, tr.last.db).Some?
    ensures Finish(c, tr, run, target, at).last.db.log
            == tr.last.db.log + [EventRow(c.env.taskId, Some(run.attempt),
                                          AttemptStatusChanged(A(c, tr.last.db).value, target, run.generation, None), at),
                                 EventRow(c.env.taskId, Some(run.attempt), TaskStatusChanged(T(c, tr.last.db).value, target), at)]
  {
    var one := Emit(c, tr, MoveAttempt(run.attempt, run.generation, target), at);
    assert !one.failed;
    assert one.last.db.tasks == tr.last.db.tasks;
  }
}
