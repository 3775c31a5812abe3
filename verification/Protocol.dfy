/**
  Running, pausing, resuming and stopping one task through process plugins
  (core/process_execution_service.py over plugins/process_adapter.py). Coroutines switch only at an
  await; between two awaits a coroutine passes through the durable states of a Trail, and the
  controller may crash in any of them, which loses its memory and keeps the database and the files.
 */
module Protocol {
  import opened Prelude
  import opened Records
  import opened CheckpointPolicy
  import opened ChannelPolicy
  import opened Effects
  import Repositories
  import TaskPolicy
  import Lifecycle

  // ---- what a plugin process may say

  datatype Usage = Usage(apiCalls: int, apiSpendUsd: int, subscriptionCalls: int, retries: int)

  datatype PluginResult = PluginResult(
    taskId: string, status: Status, outputs: seq<Output>, usage: Usage, handoff: Option<string>, learning: set<string>)

  /** What the exited process left on standard output. */
  datatype Printed = Garbage | Handoff | Final(result: PluginResult)

  // ---- the memory of the controller

  /** Where the coroutine of a run is waiting. */
  datatype Pc =
    | Probing                        // channel health probes, before any effect
    | Health                         // plugin healthcheck; the run is in the active table from here on
    | Spawning                       // starting the plugin process
    | Polling                        // the adapter's loop, until the process has exited
    | Calling(request: ChannelRequest)
    | AwaitingOutcome                // the process handed off; waiting for complete_pause
    | Signalling                     // PluginPausedSignal on its way out
    | Winding                        // an exception on its way out of the adapter
    | Returning(result: PluginResult)

  /** The adapter knows a process: its active, _directories and _pause_outcomes entries exist. */
  predicate Live(pc: Pc) {
    !pc.Probing? && !pc.Health? && !pc.Spawning?
  }

  datatype Kind = Fresh | Resumed(handoff: string)

  datatype Run = Run(
    kind: Kind, pc: Pc, attempt: string, generation: int, channels: map<string, Channel>,
    exited: bool, cancelled: bool, outcome: Option<bool>, response: Option<ChannelResponse>)

  /** A pause request in flight, with the run and attempt it was started for. */
  datatype Pause = NoPause | Asked(run: nat, attempt: string) | Answered(run: nat, attempt: string, handoff: string)

  /** Run numbers name coroutines; they are never reused and mean nothing to the code. */
  datatype Memory = Memory(runs: map<nat, Run>, active: Option<nat>, pause: Pause, next: nat)

  datatype World = World(s: Durable, m: Memory)

  datatype Config = Config(env: Envelope, scope: string, learning: set<string>)

  // ---- what can happen

  /** How the await a run is suspended at ends. */
  datatype Input =
    | Raises                                        // exception, timeout or cancellation
    | Proceeds
    | Probed(channels: map<string, Channel>, channel: string, worker: string, attempt: string, binds: bool)
    | Asks(request: ChannelRequest)                 // a channel request file is there
    | Responds(response: ChannelResponse, ids: Ids) // the channel has answered
    | Exits(printed: Printed)                       // the output of the exited process is read
    | Concludes(id: string)                         // the accepted result is stored

  datatype Action =
    | RunCommand
    | ResumeCommand(at: string)
    | PauseCommand
    | StopCommand
    | Go(run: nat, input: Input, at: string)
    | ProcessExits
    | PauseAnswered(handoff: string)
    | PauseSaved(id: string, at: string)
    | PauseFails
    | FilesChange(disk: Disk)                       // plugins and users write files
    | Elsewhere(x: Repositories.Txn)                // another task's repository call

  /** An action runs to its next await, or the controller dies after k of its effects. */
  datatype Choice = Do(a: Action) | Crash(a: Action, k: nat)

  datatype Outcome = Outcome(trail: Trail, m: Memory)

  function T(c: Config, db: Db): Option<Status> {
    if c.env.taskId in db.tasks then Some(db.tasks[c.env.taskId].status) else None
  }

  function Current(c: Config, db: Db): Option<string> {
    if c.env.taskId in db.tasks then db.tasks[c.env.taskId].current else None
  }

  /** The status of the current attempt. */
  function A(c: Config, db: Db): Option<Status> {
    var a := Current(c, db);
    if a.Some? && a.value in db.attempts then Some(db.attempts[a.value].status) else None
  }

  function Pointer(c: Config, db: Db): Option<Uri> {
    if c.env.taskId in db.tasks then db.tasks[c.env.taskId].checkpoint else None
  }

  // ---- stretches of code between awaits

  function Emit(c: Config, tr: Trail, e: Effect, at: string): Trail {
    Then(c.env.taskId, tr, e, at)
  }

  /** create_task and create_attempt. */
  function Claim(c: Config, s: Durable, a: string, worker: string, channel: string, at: string): Trail {
    Emit(c, Emit(c, Begin(s), Create(c.env), at), Assign(a, worker, channel), at)
  }

  /** From the healthcheck to the start of the process. */
  function Activate(c: Config, s: Durable, run: Run, at: string): Trail {
    var queued := Emit(c, Begin(s), Promote(QUEUED), at);
    var placed := Emit(c, queued, Promote(ASSIGNED), at);
    var running := Emit(c, placed, Promote(RUNNING), at);
    Emit(c, running, MoveAttempt(run.attempt, run.generation, RUNNING), at)
  }

  function Launch(c: Config, s: Durable, run: Run, at: string): Trail {
    Emit(c, Activate(c, s, run, at), Write(PluginStarted(c.env.plugin), run.attempt), at)
  }

  /** _finish. */
  function Finish(c: Config, tr: Trail, run: Run, target: Status, at: string): Trail {
    Emit(c, Emit(c, tr, MoveAttempt(run.attempt, run.generation, target), at),
            MoveTask(target, run.attempt, run.generation), at)
  }

  /** The exception handler of execute: a persisted PAUSED is left alone, anything else is failed. */
  function Abort(c: Config, tr: Trail, run: Run, at: string): Trail {
    if T(c, tr.last.db) == Some(PAUSED) then tr
    else Finish(c, Emit(c, tr.(failed := false), Write(PluginFailed, run.attempt), at), run, FAILED, at)
  }

  /** The checks of the adapter on a final result. */
  predicate Admissible(c: Config, response: Option<ChannelResponse>, r: PluginResult) {
    && r.taskId == c.env.taskId && r.status in {COMPLETED, FAILED}
    && response.Some? && (r.status == COMPLETED ==> response.value.success)
    && r.usage == Usage(0, 0, 1, 0)
    && |r.outputs| == (if response.value.output.Some? then 1 else 0)
    && (forall i :: 0 <= i < |r.outputs| ==> response.value.output == Some(r.outputs[i].uri))
    && r.handoff.None?
  }

  /** From the returned result to the end of the try block; at most one output passes the adapter. */
  function Settle(c: Config, s: Durable, run: Run, r: PluginResult, id: string, at: string): Trail {
    var start := Begin(s);
    var fence := TaskPolicy.ValidateFence(s.db, c.env.taskId, Some(run.attempt), Some(run.generation));
    if run.cancelled || !(r.learning <= c.learning) || fence.Err? then start.(failed := true)
    else
      var accepted := if |r.outputs| == 0 then start else Emit(c, start, Accept(r.outputs[0], id, run.attempt), at);
      var logged := Emit(c, accepted, Write(ResultAccepted(c.env.plugin, r.status, |r.outputs|), run.attempt), at);
      Finish(c, logged, run, r.status, at)
  }

  /** What pause asks the checkpoint service for. */
  function CheckpointRequest(c: Config, s: Durable, a: string, handoff: string, at: string): CheckpointPolicy.Request
    requires a in s.db.attempts
  {
    var row := s.db.attempts[a];
    CheckpointPolicy.Request(c.env, a, row.generation, row.worker, row.channel, handoff,
                             AccessibleRefs(s.disk, s.db.artifacts, c.env.taskId, |s.db.artifacts|), c.scope, at)
  }

  /** CheckpointService.create as two effects: the file, then its registration. */
  function SaveAndSeal(c: Config, s: Durable, q: CheckpointPolicy.Request, id: string, at: string): Trail {
    match Prepare(s.disk, s.db, q)
    case Err(_) => Begin(s).(failed := true)
    case Ok(draft) => Emit(c, Emit(c, Begin(s), Save(draft), at), Seal(draft, id), at)
  }

  /** The second half of pause: checkpoint, attempt, task. */
  function Persist(c: Config, s: Durable, a: string, handoff: string, id: string, at: string): Trail {
    if a !in s.db.attempts then Begin(s).(failed := true)
    else
      var g := s.db.attempts[a].generation;
      var sealed := SaveAndSeal(c, s, CheckpointRequest(c, s, a, handoff, at), id, at);
      Emit(c, Emit(c, sealed, MoveAttempt(a, g, PAUSED), at), MoveTask(PAUSED, a, g), at)
  }

  /** The recovery branch of resume. */
  predicate Interrupted(c: Config, w: World) {
    && T(c, w.s.db) == Some(RUNNING) && w.m.active.None? && Pointer(c, w.s.db).Some? && Current(c, w.s.db).Some?
  }

  function Recover(c: Config, s: Durable, a: string, at: string): Trail {
    if a !in s.db.attempts then Begin(s).(failed := true)
    else
      var g := s.db.attempts[a].generation;
      var paused := Emit(c, Emit(c, Begin(s), MoveAttempt(a, g, PAUSED), at), MoveTask(PAUSED, a, g), at);
      Emit(c, paused, Write(InterruptedResumeRecovered(g), a), at)
  }

  // ---- memory updates

  function Quit(m: Memory, r: nat): Memory {
    m.(runs := m.runs - {r})
  }

  /** The end of execute: its finally clause empties the active table. */
  function End(m: Memory, r: nat): Memory {
    m.(runs := m.runs - {r}, active := None)
  }

  function Update(m: Memory, r: nat, run: Run): Memory {
    m.(runs := m.runs[r := run])
  }

  function Spawn(m: Memory, run: Run): Memory {
    m.(runs := m.runs[m.next := run], next := m.next + 1)
  }

  /** complete_pause: the first outcome stays. */
  function CompletePause(m: Memory, r: nat, persisted: bool): Memory {
    var done := m.(pause := NoPause);
    if r in m.runs && Live(m.runs[r].pc) && m.runs[r].outcome.None?
    then Update(done, r, m.runs[r].(outcome := Some(persisted))) else done
  }

  // ---- one run, from one await to the next

  function Idle(w: World): Outcome {
    Outcome(Begin(w.s), w.m)
  }

  function To(w: World, r: nat, run: Run, pc: Pc): Outcome {
    Outcome(Begin(w.s), Update(w.m, r, run.(pc := pc)))
  }

  function Fail(c: Config, w: World, r: nat, run: Run, tr: Trail, at: string): Outcome {
    Outcome(Abort(c, tr, run, at), End(w.m, r))
  }

  function GoProbing(c: Config, w: World, r: nat, run: Run, input: Input, at: string): Outcome {
    match input
    case Raises => Outcome(Begin(w.s), Quit(w.m, r))
    case Probed(channels, channel, worker, a, binds) =>
      if a == "" then Idle(w)
      else if run.kind.Fresh? then
        var tr := Claim(c, w.s, a, worker, channel, at);
        if tr.failed || !binds || a !in tr.last.db.attempts then Outcome(tr, Quit(w.m, r))
        else
          var bound := run.(pc := Health, attempt := a, generation := tr.last.db.attempts[a].generation, channels := channels);
          Outcome(tr, Update(w.m, r, bound).(active := Some(r)))
      else if run.kind.handoff == "" || run.attempt !in w.s.db.attempts || !binds then Outcome(Begin(w.s), Quit(w.m, r))
      else
        var bound := run.(pc := Health, generation := w.s.db.attempts[run.attempt].generation, channels := channels);
        Outcome(Begin(w.s), Update(w.m, r, bound).(active := Some(r)))
    case _ => Idle(w)
  }

  function GoHealth(c: Config, w: World, r: nat, run: Run, input: Input, at: string): Outcome {
    match input
    case Raises => Fail(c, w, r, run, Begin(w.s), at)
    case Proceeds =>
      var tr := Launch(c, w.s, run, at);
      if tr.failed then Fail(c, w, r, run, tr, at)
      else Outcome(tr, Update(w.m, r, run.(pc := Spawning)))
    case _ => Idle(w)
  }

  function GoPolling(c: Config, w: World, r: nat, run: Run, input: Input): Outcome {
    match input
    case Raises => To(w, r, run, Winding)
    case Proceeds => if run.cancelled && !run.exited then To(w, r, run, Winding) else Idle(w)
    case Asks(request) =>
      if run.exited || run.cancelled || run.response.Some? then Idle(w)
      else if Permit(w.s.db, c.env.taskId, run.attempt, run.generation, request, run.channels).Err? then To(w, r, run, Winding)
      else To(w, r, run, Calling(request))
    case Exits(printed) =>
      if !run.exited then Idle(w)
      else (match printed
            case Garbage => To(w, r, run, Winding)
            case Handoff => To(w, r, run, AwaitingOutcome)
            case Final(result) => To(w, r, run, if Admissible(c, run.response, result) then Returning(result) else Winding))
    case _ => Idle(w)
  }

  function GoCalling(c: Config, w: World, r: nat, run: Run, input: Input, at: string): Outcome {
    match input
    case Raises => To(w, r, run, Winding)
    case Responds(response, ids) =>
      if run.attempt !in w.s.db.attempts then Idle(w)
      else
        var channel := w.s.db.attempts[run.attempt].channel;
        if channel.None? || channel.value !in run.channels then Idle(w)
        else
          var tr := Receive(c.env.taskId, w.s, c.env, run.attempt, run.generation, run.channels[channel.value], response, ids, at);
          Outcome(tr, Update(w.m, r, if tr.failed then run.(pc := Winding)
                                     else run.(pc := Polling, response := Some(response))))
    case _ => Idle(w)
  }

  function GoAwaitingOutcome(w: World, r: nat, run: Run, input: Input): Outcome {
    match input
    case Raises => To(w, r, run, Winding)
    case Proceeds =>
      if run.outcome.None? then Idle(w)
      else To(w, r, run, if run.outcome.value then Signalling else Winding)
    case _ => Idle(w)
  }

  function GoReturning(c: Config, w: World, r: nat, run: Run, result: PluginResult, input: Input, at: string): Outcome {
    match input
    case Raises => Fail(c, w, r, run, Begin(w.s), at)
    case Concludes(id) =>
      var tr := Settle(c, w.s, run, result, id, at);
      if tr.failed then Fail(c, w, r, run, tr, at) else Outcome(tr, End(w.m, r))
    case _ => Idle(w)
  }

  function GoRun(c: Config, w: World, r: nat, run: Run, input: Input, at: string): Outcome {
    match run.pc
    case Probing => GoProbing(c, w, r, run, input, at)
    case Health => GoHealth(c, w, r, run, input, at)
    case Spawning =>
      if input.Raises? then Fail(c, w, r, run, Begin(w.s), at)
      else if input.Proceeds? then To(w, r, run, Polling) else Idle(w)
    case Polling => GoPolling(c, w, r, run, input)
    case Calling(_) => GoCalling(c, w, r, run, input, at)
    case AwaitingOutcome => GoAwaitingOutcome(w, r, run, input)
    case Signalling =>
      if input.Raises? then Fail(c, w, r, run, Begin(w.s), at)
      else if input.Proceeds? then Outcome(Begin(w.s), End(w.m, r)) else Idle(w)
    case Winding =>
      if input.Raises? || input.Proceeds? then Fail(c, w, r, run, Begin(w.s), at) else Idle(w)
    case Returning(result) => GoReturning(c, w, r, run, result, input, at)
  }

  // ---- the commands

  function NewRun(kind: Kind, a: string): Run {
    Run(kind, Probing, a, 0, map[], false, false, None, None)
  }

  /** resume up to the first await of the execute it starts. */
  function DoResume(c: Config, w: World, at: string): Outcome {
    var t := c.env.taskId;
    var recovered := if Interrupted(c, w) then Recover(c, w.s, Current(c, w.s.db).value, at) else Begin(w.s);
    var s := recovered.last;
    if recovered.failed || T(c, s.db) != Some(PAUSED) then Outcome(recovered, w.m)
    else match Load(s.disk, s.db, t, None)
      case Err(_) => Outcome(recovered, w.m)
      case Ok(cp) =>
        if w.m.active.Some? then Outcome(recovered, w.m)
        else
          var queued := Emit(c, recovered, MoveTask(QUEUED, cp.body.attemptId, cp.body.generation), at);
          if queued.failed || Current(c, queued.last.db).None? then Outcome(queued, w.m)
          else Outcome(queued, Spawn(w.m, NewRun(Resumed(cp.body.stateRef), Current(c, queued.last.db).value)))
  }

  /** pause up to its first await; refused unless the task is RUNNING with a live process. One pause at a time. */
  function DoPause(c: Config, w: World): Outcome {
    var a := Current(c, w.s.db);
    if T(c, w.s.db) != Some(RUNNING) || a.None? || !w.m.pause.NoPause? || w.m.active.None? then Idle(w)
    else
      var r := w.m.active.value;
      if r !in w.m.runs || !Live(w.m.runs[r].pc) then Idle(w)
      else Outcome(Begin(w.s), w.m.(pause := Asked(r, a.value)))
  }

  /** cancel: reaches a run only once its process is known to the adapter. */
  function DoStop(w: World): Outcome {
    if w.m.active.None? then Idle(w)
    else
      var r := w.m.active.value;
      if r !in w.m.runs || !Live(w.m.runs[r].pc) then Idle(w)
      else Outcome(Begin(w.s), Update(w.m, r, w.m.runs[r].(cancelled := true)))
  }

  function DoProcessExits(w: World): Outcome {
    if w.m.active.None? then Idle(w)
    else
      var r := w.m.active.value;
      if r !in w.m.runs || !Live(w.m.runs[r].pc) then Idle(w)
      else Outcome(Begin(w.s), Update(w.m, r, w.m.runs[r].(exited := true)))
  }

  /** The response file is read while the adapter still keeps the transport directory. */
  function DoPauseAnswered(w: World, handoff: string): Outcome {
    match w.m.pause
    case Asked(r, a) =>
      if r in w.m.runs && Live(w.m.runs[r].pc) && handoff != ""
      then Outcome(Begin(w.s), w.m.(pause := Answered(r, a, handoff))) else Idle(w)
    case _ => Idle(w)
  }

  /** Once the process has stopped, everything up to complete_pause runs without an await. */
  function DoPauseSaved(c: Config, w: World, id: string, at: string): Outcome {
    match w.m.pause
    case Answered(r, a, handoff) =>
      if r in w.m.runs && !w.m.runs[r].exited then Idle(w)
      else
        var tr := Persist(c, w.s, a, handoff, id, at);
        Outcome(tr, CompletePause(w.m, r, !tr.failed))
    case _ => Idle(w)
  }

  function DoPauseFails(w: World): Outcome {
    if w.m.pause.NoPause? then Idle(w) else Outcome(Begin(w.s), CompletePause(w.m, w.m.pause.run, false))
  }

  /** The task a repository call writes about. */
  function Subject(db: Db, x: Repositories.Txn): Option<string> {
    match x
    case TxCreateTask(env, _) => Some(env.taskId)
    case TxTransition(t, _, _, _, _, _) => Some(t)
    case TxCreateAttempt(t, _, _, _, _, _) => Some(t)
    case TxTransitionAttempt(t, _, _, _, _, _, _, _) => Some(t)
    case TxAppendNote(t, _, _, _) => Some(t)
    case TxRegisterArtifact(artifact, _) => Some(artifact.taskId)
    case TxRecordCost(cost) => Some(cost.taskId)
    case TxRecordMetric(_, metric, _) => Some(metric.taskId)
    case TxRequestApproval(_, approval) => Some(approval.taskId)
    case TxDecideApproval(id, _, _, _) => if id in db.approvals then Some(db.approvals[id].taskId) else None
  }

  function DoElsewhere(c: Config, w: World, x: Repositories.Txn): Outcome {
    if Subject(w.s.db, x) == Some(c.env.taskId) || !Lifecycle.Lawful(x) then Idle(w)
    else Outcome(Trail([w.s], w.s.(db := Repositories.After(w.s.db, x)), false), w.m)
  }

  function Perform(c: Config, w: World, a: Action): Outcome {
    match a
    case RunCommand => if w.m.active.Some? then Idle(w) else Outcome(Begin(w.s), Spawn(w.m, NewRun(Fresh, "")))
    case ResumeCommand(at) => DoResume(c, w, at)
    case PauseCommand => DoPause(c, w)
    case StopCommand => DoStop(w)
    case Go(r, input, at) => if r in w.m.runs then GoRun(c, w, r, w.m.runs[r], input, at) else Idle(w)
    case ProcessExits => DoProcessExits(w)
    case PauseAnswered(handoff) => DoPauseAnswered(w, handoff)
    case PauseSaved(id, at) => DoPauseSaved(c, w, id, at)
    case PauseFails => DoPauseFails(w)
    case FilesChange(disk) => Outcome(Trail([w.s], w.s.(disk := disk), false), w.m)
    case Elsewhere(x) => DoElsewhere(c, w, x)
  }

  function Forget(m: Memory): Memory {
    Memory(map[], None, NoPause, m.next)
  }

  function Next(c: Config, w: World, choice: Choice): World {
    match choice
    case Do(a) => World(Perform(c, w, a).trail.last, Perform(c, w, a).m)
    case Crash(a, k) => World(StateAt(Perform(c, w, a).trail, k), Forget(w.m))
  }

  /** The world after a schedule. */
  function After(c: Config, w: World, choices: seq<Choice>): World {
    if choices == [] then w else Next(c, After(c, w, choices[..|choices| - 1]), choices[|choices| - 1])
  }

  /** A controller that has just started on a database that does not know the task. */
  predicate Initial(c: Config, w: World) {
    c.env.taskId !in w.s.db.tasks && w.m == Memory(map[], None, NoPause, w.m.next)
  }
}
