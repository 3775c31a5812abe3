/** What the protocol promises: statuses, completion, stopping, pausing and resuming. */
module ProtocolTheorems {
  import opened Prelude
  import opened Records
  import opened StateMachine
  import opened CheckpointPolicy
  import opened ChannelPolicy
  import opened Effects
  import opened Protocol
  import opened ProtocolStates
  import opened ProtocolInvariant
  import opened ProtocolCommands
  import opened ProtocolTrails
  import Repositories
  import EventLog
  import Lifecycle

  // ---- statuses

  /** The pointer of a paused task leads to a registered checkpoint of the current attempt. */
  ghost predicate Checkpointed(c: Config, db: Db) {
    exists i, body ::
      0 <= i < |db.artifacts| && Ours(c, db, db.artifacts[i], body) && Pointer(c, db) == Some(db.artifacts[i].uri)
  }

  /**
    The statuses form one of the listed pairs; an attempt runs only in a running task, a completed
    attempt is in a running or completed task, a finished task has an attempt in the same status,
    and a paused task has a registered checkpoint that names its current attempt.
   */
  ghost predicate Agrees(c: Config, db: Db) {
    && PairOk(T(c, db), A(c, db))
    && (A(c, db) == Some(RUNNING) ==> T(c, db) == Some(RUNNING))
    && (A(c, db) == Some(COMPLETED) ==> T(c, db) in {Some(RUNNING), Some(COMPLETED)})
    && (T(c, db).Some? && T(c, db).value in TERMINAL ==> A(c, db) == T(c, db))
    && (T(c, db) == Some(PAUSED) ==> A(c, db) in {Some(PAUSED), Some(FAILED)} && Checkpointed(c, db))
  }

  lemma PausedIsCheckpointed(c: Config, s: Durable)
    requires Rest(c, s) && T(c, s.db) == Some(PAUSED)
    ensures Checkpointed(c, s.db)
  {
    var db := s.db;
    var i :| 0 <= i < |db.artifacts| && LocalHashed(db.artifacts[i], c.env.taskId) && db.artifacts[i].uri == Pointer(c, db).value;
    assert RowOurs(c, db, db.artifacts[i]);
    var body :| Ours(c, db, db.artifacts[i], body);
  }

  lemma RestAgrees(c: Config, s: Durable)
    requires Rest(c, s)
    ensures Agrees(c, s.db)
  {
    if T(c, s.db) == Some(PAUSED) {
      PausedIsCheckpointed(c, s);
    }
  }

  /**
    Along every interleaving of run, pause, resume and stop, with a crash between any two durable
    effects, the statuses of the task and of its current attempt agree.
   */
  lemma StatusesAgree(c: Config, w: World, choices: seq<Choice>)
    requires Initial(c, w) && Lifecycle.Valid(w.s.db)
    ensures Agrees(c, After(c, w, choices).s.db)
  {
    AlwaysInv(c, w, choices);
    RestAgrees(c, After(c, w, choices).s);
  }

  /** At most one run of the task is past its probes, so at most one run has a live transport. */
  lemma OneTransport(c: Config, w: World, choices: seq<Choice>, r: nat, q: nat)
    requires Initial(c, w) && Lifecycle.Valid(w.s.db)
    requires var m := After(c, w, choices).m; r in m.runs && q in m.runs && !m.runs[r].pc.Probing? && !m.runs[q].pc.Probing?
    ensures r == q && After(c, w, choices).m.active == Some(r)
  {
    AlwaysInv(c, w, choices);
  }

  // ---- lawful effects

  predicate AllLawful(xs: seq<Repositories.Txn>) {
    Lifecycle.AllLawful(xs)
  }

  lemma EffectIsLawful(c: Config, s: Durable, e: Effect, at: string) returns (xs: seq<Repositories.Txn>)
    requires Apply(c.env.taskId, s, e, at).Ok?
    ensures AllLawful(xs) && Apply(c.env.taskId, s, e, at).value.db == Repositories.Exec(s.db, xs)
  {
    var call := Call(c.env.taskId, s, e, at);
    if call.None? {
      return [];
    }
    CallIsLawful(c, s, e, at);
    xs := [call.value];
    assert xs[..0] == [];
    assert Repositories.Exec(s.db, xs) == Repositories.After(s.db, call.value);
  }

  lemma CallIsLawful(c: Config, s: Durable, e: Effect, at: string)
    requires Apply(c.env.taskId, s, e, at).Ok? && Call(c.env.taskId, s, e, at).Some?
    ensures Lifecycle.Lawful(Call(c.env.taskId, s, e, at).value)
    ensures Repositories.After(s.db, Call(c.env.taskId, s, e, at).value) == Apply(c.env.taskId, s, e, at).value.db
  {
  }

  /** Any state of a trail is reached by validated repository calls. */
  lemma {:induction false} TrailIsLawful(c: Config, s: Durable, tr: Trail, es: seq<Effect>, at: string, k: nat)
    returns (xs: seq<Repositories.Txn>)
    requires Chain(c, s, tr, es, at) && k <= |tr.before|
    ensures AllLawful(xs) && StateAt(tr, k).db == Repositories.Exec(s.db, xs)
    decreases k
  {
    if k == 0 {
      return [];
    }
    var ys := TrailIsLawful(c, s, tr, es, at, k - 1);
    assert Links(c, tr, es, at, k - 1);
    var zs := EffectIsLawful(c, tr.before[k - 1], es[k - 1], at);
    Repositories.ExecAppend(s.db, ys, zs);
    xs := ys + zs;
  }

  lemma StepIsLawful(c: Config, w: World, choice: Choice) returns (xs: seq<Repositories.Txn>)
    ensures AllLawful(xs) && Next(c, w, choice).s.db == Repositories.Exec(w.s.db, xs)
  {
    var tr := Perform(c, w, choice.a).trail;
    if Inside(choice.a) {
      var es := ActionChain(c, w, choice.a);
      var k := if choice.Do? || choice.k > |tr.before| then |tr.before| else choice.k;
      xs := TrailIsLawful(c, w.s, tr, es, Clock(choice.a), k);
    } else if Next(c, w, choice).s.db == w.s.db {
      xs := [];
    } else {
      xs := [choice.a.x];
      assert xs[..0] == [];
    }
  }

  /**
    The protocol writes to the database only through validated calls, so everything proved of their
    runs (numbering, ownership, status paths, the log as event source) holds in every reachable world.
   */
  lemma {:induction false} ProtocolIsLawful(c: Config, w: World, choices: seq<Choice>) returns (xs: seq<Repositories.Txn>)
    ensures AllLawful(xs) && After(c, w, choices).s.db == Repositories.Exec(w.s.db, xs)
  {
    if choices == [] {
      return [];
    }
    var n := |choices| - 1;
    var ys := ProtocolIsLawful(c, w, choices[..n]);
    var zs := StepIsLawful(c, After(c, w, choices[..n]), choices[n]);
    Repositories.ExecAppend(w.s.db, ys, zs);
    xs := ys + zs;
  }

  /** On a database that validated calls made, every world the protocol reaches is valid and its log complete. */
  lemma ReachableIsValid(c: Config, w: World, choices: seq<Choice>, before: seq<Repositories.Txn>)
    requires AllLawful(before) && w.s.db == Repositories.Exec(EMPTY, before)
    ensures Lifecycle.Valid(After(c, w, choices).s.db) && EventLog.Faithful(After(c, w, choices).s.db)
  {
    hide Lifecycle.Valid, EventLog.Faithful, After;
    var xs := ProtocolIsLawful(c, w, choices);
    Repositories.ExecAppend(EMPTY, before, xs);
    Lifecycle.RunsStayValid(before + xs);
    EventLog.LogIsEventSource(before + xs);
  }

  /** A finished task is never paused, revived or finished differently, however late a pause completes. */
  lemma FinishedStaysFinished(c: Config, w: World, choices: seq<Choice>)
    requires T(c, w.s.db).Some? && T(c, w.s.db).value in TERMINAL
    ensures T(c, After(c, w, choices).s.db) == T(c, w.s.db)
  {
    var xs := ProtocolIsLawful(c, w, choices);
    Lifecycle.TerminalIsForever(w.s.db, xs);
  }

  // ---- who moves the task's status

  predicate Sets(e: Effect, x: Status) {
    match e
    case MoveTask(target, _, _) => target == x
    case Promote(state) => state == x
    case Create(_) => x == CREATED
    case _ => false
  }

  lemma EffectSets(c: Config, s: Durable, e: Effect, at: string, x: Status)
    requires Apply(c.env.taskId, s, e, at).Ok? && T(c, s.db) != Some(x)
    requires T(c, Apply(c.env.taskId, s, e, at).value.db) == Some(x)
    ensures Sets(e, x)
  {
  }

  lemma {:induction false} TrailSets(c: Config, s: Durable, tr: Trail, es: seq<Effect>, at: string, k: nat, x: Status)
    returns (e: Effect)
    requires Chain(c, s, tr, es, at) && k <= |tr.before| && T(c, s.db) != Some(x) && T(c, StateAt(tr, k).db) == Some(x)
    ensures e in es && Sets(e, x)
    decreases k
  {
    assert Links(c, tr, es, at, k - 1);
    if T(c, tr.before[k - 1].db) == Some(x) {
      e := TrailSets(c, s, tr, es, at, k - 1, x);
    } else {
      e := es[k - 1];
      EffectSets(c, tr.before[k - 1], e, at, x);
    }
  }

  /** A status the task newly has was set by an effect the action may have. */
  lemma StepSets(c: Config, w: World, choice: Choice, x: Status) returns (e: Effect)
    requires T(c, w.s.db) != Some(x) && T(c, Next(c, w, choice).s.db) == Some(x)
    ensures May(c, w, choice.a, e) && Sets(e, x)
  {
    var tr := Perform(c, w, choice.a).trail;
    if Inside(choice.a) {
      var es := ActionChain(c, w, choice.a);
      var k := if choice.Do? || choice.k > |tr.before| then |tr.before| else choice.k;
      e := TrailSets(c, w.s, tr, es, Clock(choice.a), k, x);
    } else {
      if choice.a.Elsewhere? && Subject(w.s.db, choice.a.x) != Some(c.env.taskId) {
        OthersTasks(c, w.s.db, choice.a.x);
      }
      assert false;
    }
  }

  // ---- completion and stopping

  /** The action moves a run that waits with a result to be stored. */
  predicate Storing(w: World, a: Action, status: Status) {
    && a.Go? && a.input.Concludes? && a.run in w.m.runs
    && w.m.runs[a.run].pc.Returning? && w.m.runs[a.run].pc.result.status == status
  }

  lemma OnlyStoringCompletes(c: Config, w: World, a: Action, e: Effect)
    requires May(c, w, a, e) && Sets(e, COMPLETED)
    ensures Storing(w, a, COMPLETED) && Earned(c, w.s, w.m.runs[a.run], w.m.runs[a.run].pc.result, a.input.id)
  {
  }

  /** What the adapter has already checked of a COMPLETED result. */
  lemma CompletedResult(c: Config, s: Durable, run: Run)
    requires RunOk(c, s, run) && run.pc.Returning? && run.pc.result.status == COMPLETED
    ensures run.response.Some? && run.response.value.success && HasOutput(run.response.value)
    ensures |run.pc.result.outputs| == 1 && run.response.value.output == Some(run.pc.result.outputs[0].uri)
    ensures var u := run.pc.result.usage; u.apiCalls == 0 && u.apiSpendUsd == 0 && u.subscriptionCalls == 1 && u.retries == 0
    ensures run.pc.result.taskId == c.env.taskId && run.pc.result.handoff.None?
    ensures Current(c, s.db) == Some(run.attempt) && (Pair(c, s, RUNNING, RUNNING) || Pair(c, s, PAUSED, PAUSED))
  {
  }

  /**
    No false completion: a task becomes COMPLETED only in the step of a run that nobody stopped,
    whose channel answered successfully, and whose result is about this task, has as its only output
    the channel's own output, unchanged since the plugin hashed it, reports one subscription call and
    no API call, spend or retry, carries no handoff and no learning field that is not allowed.
   */
  lemma CompletionIsEarned(c: Config, w: World, choice: Choice)
    requires Inv(c, w) && T(c, w.s.db) != Some(COMPLETED) && T(c, Next(c, w, choice).s.db) == Some(COMPLETED)
    ensures Storing(w, choice.a, COMPLETED)
    ensures var run := w.m.runs[choice.a.run];
            && Pair(c, w.s, RUNNING, RUNNING) && !run.cancelled
            && run.response.Some? && run.response.value.success && HasOutput(run.response.value)
            && |run.pc.result.outputs| == 1 && run.response.value.output == Some(run.pc.result.outputs[0].uri)
            && HashMatches(w.s.disk, run.pc.result.outputs[0])
            && run.pc.result.taskId == c.env.taskId && run.pc.result.handoff.None?
            && run.pc.result.usage.apiCalls == 0 && run.pc.result.usage.apiSpendUsd == 0
            && run.pc.result.usage.subscriptionCalls == 1 && run.pc.result.usage.retries == 0
            && run.pc.result.learning <= c.learning
  {
    hide Next, Sets, May, HashMatches;
    var e := StepSets(c, w, choice, COMPLETED);
    OnlyStoringCompletes(c, w, choice.a, e);
    var run := w.m.runs[choice.a.run];
    assert RunOk(c, w.s, run);
    CompletedResult(c, w.s, run);
    assert A(c, w.s.db) != Some(PAUSED);
  }

  lemma {:induction false} AfterBoth(c: Config, w: World, xs: seq<Choice>, ys: seq<Choice>)
    ensures After(c, w, xs + ys) == After(c, After(c, w, xs), ys)
  {
    if ys == [] {
      assert xs + ys == xs;
    } else {
      var n := |ys| - 1;
      assert (xs + ys)[..|xs + ys| - 1] == xs + ys[..n];
      AfterBoth(c, w, xs, ys[..n]);
    }
  }

  /** The active run, if any, has no process the adapter knows yet. */
  predicate NoProcess(m: Memory) {
    m.active.Some? && m.active.value in m.runs ==> !Live(m.runs[m.active.value].pc)
  }

  /** A stop in such a moment changes nothing at all, now or later, in any schedule. */
  lemma UnheardStop(c: Config, w: World, before: seq<Choice>, later: seq<Choice>)
    requires NoProcess(After(c, w, before).m)
    ensures After(c, w, before + [Do(StopCommand)] + later) == After(c, w, before + later)
  {
    var stopped := before + [Do(StopCommand)];
    assert stopped[..|before|] == before;
    StopIgnored(c, After(c, w, before));
    AfterBoth(c, w, stopped, later);
    AfterBoth(c, w, before, later);
  }

  lemma StopIgnored(c: Config, w: World)
    requires NoProcess(w.m)
    ensures Next(c, w, Do(StopCommand)) == w
  {
  }

  /** A stop that finds the process known to the adapter marks its run. */
  lemma StopMarks(c: Config, w: World)
    requires Inv(c, w) && w.m.active.Some?
    ensures var r := w.m.active.value;
            var v := Next(c, w, Do(StopCommand));
            && r in w.m.runs && r in v.m.runs
            && (v.m.runs[r].cancelled <==> w.m.runs[r].cancelled || Live(w.m.runs[r].pc))
  {
  }

  /** Going on, a run keeps being stopped, its pause outcome and its channel response. */
  predicate KeepsFlags(run: Run, run': Run) {
    && (run.cancelled ==> run'.cancelled)
    && (run.outcome.Some? ==> run'.outcome == run.outcome)
    && (run.response.Some? ==> run'.response == run.response)
    && run'.kind == run.kind
  }

  /** A run keeps its flags for as long as it lives: stopped stays stopped, and a pause outcome is set once. */
  lemma FlagsStay(c: Config, w: World, choice: Choice, r: nat)
    requires Inv(c, w) && r in w.m.runs && r in Next(c, w, choice).m.runs
    ensures KeepsFlags(w.m.runs[r], Next(c, w, choice).m.runs[r])
  {
    hide GoRun, DoResume;
    assert RunOk(c, w.s, w.m.runs[r]);
    var a := choice.a;
    if a.Go? {
      if a.run in w.m.runs {
        if a.run == r { GoFlags(c, w, r, a.input, a.at); } else { GoOthers(c, w, r, a.run, a.input, a.at); }
      }
    } else if a.ResumeCommand? {
      ResumeOthers(c, w, a.at, r);
    } else {
      CommandFlags(c, w, a, r);
    }
  }

  lemma GoFlags(c: Config, w: World, r: nat, input: Input, at: string)
    requires r in w.m.runs && r in GoRun(c, w, r, w.m.runs[r], input, at).m.runs
    requires w.m.runs[r].pc.Calling? ==> w.m.runs[r].response.None?
    ensures KeepsFlags(w.m.runs[r], GoRun(c, w, r, w.m.runs[r], input, at).m.runs[r])
  {
    hide Launch, Settle, Receive, Claim, Permit, Admissible;
  }

  lemma GoOthers(c: Config, w: World, r: nat, q: nat, input: Input, at: string)
    requires r in w.m.runs && q in w.m.runs && q != r
    ensures r in GoRun(c, w, q, w.m.runs[q], input, at).m.runs
    ensures GoRun(c, w, q, w.m.runs[q], input, at).m.runs[r] == w.m.runs[r]
  {
  }

  lemma ResumeOthers(c: Config, w: World, at: string, r: nat)
    requires r in w.m.runs && r != w.m.next
    ensures r in DoResume(c, w, at).m.runs && DoResume(c, w, at).m.runs[r] == w.m.runs[r]
  {
    hide Load, Recover, Emit;
  }

  lemma CommandFlags(c: Config, w: World, a: Action, r: nat)
    requires !a.Go? && !a.ResumeCommand? && r in w.m.runs && r < w.m.next && r in Perform(c, w, a).m.runs
    ensures KeepsFlags(w.m.runs[r], Perform(c, w, a).m.runs[r])
  {
  }
}
