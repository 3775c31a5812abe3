/**
  The stretches of core/process_execution_service.py and plugins/process_adapter.py that run without
  an await, as methods on the shared store, the checkpoint files and the table of live transports.
  Each is proved to end where the protocol's trail for it ends.
 */
module ProcessExecution {
  import opened Prelude
  import opened Records
  import opened CheckpointPolicy
  import opened Effects
  import P = Protocol
  import CheckpointService
  import Store
  import TaskService

  /** What the adapter keeps for one started process. */
  class Transport {
    var cancelled: bool
    var outcome: Option<bool>

    constructor ()
      ensures !cancelled && outcome == None
    {
      cancelled, outcome := false, None;
    }

    /** The first outcome of a pause stays. */
    method CompletePause(persisted: bool)
      modifies this`outcome
      ensures outcome == (if old(outcome).Some? then old(outcome) else Some(persisted))
    {
      if outcome.None? {
        outcome := Some(persisted);
      }
    }

    method Cancel()
      modifies this`cancelled
      ensures cancelled
    {
      cancelled := true;
    }
  }

  class Service {
    const store: Store.Database
    const tasks: TaskService.Service
    const checkpoints: CheckpointService.Service
    const config: P.Config
    var active: map<string, Transport>

    ghost predicate Valid()
      reads this
    {
      tasks.store == store && checkpoints.store == store
    }

    ghost function State(): Durable
      reads store, checkpoints
    {
      Durable(store.Contents(), checkpoints.OnDisk())
    }

    constructor (config: P.Config, store: Store.Database, tasks: TaskService.Service, checkpoints: CheckpointService.Service)
      requires tasks.store == store && checkpoints.store == store
      ensures Valid() && this.store == store && this.checkpoints == checkpoints && this.config == config && active == map[]
    {
      this.config, this.store, this.tasks, this.checkpoints, active := config, store, tasks, checkpoints, map[];
    }

    /** create_task, then create_attempt. */
    method Claim(a: string, worker: string, channel: string, at: string) returns (raised: bool)
      requires Valid()
      modifies store
      ensures var tr := P.Claim(config, old(State()), a, worker, channel, at);
              State() == tr.last && raised == tr.failed
    {
      ghost var created := P.Emit(config, Begin(State()), Create(config.env), at);
      var error := store.CreateTask(config.env, at);
      assert State() == created.last && error.Some? == created.failed;
      if error.Some? {
        return true;
      }
      error := tasks.CreateAttempt(config.env.taskId, a, worker, Some(channel), at, None);
      return error.Some?;
    }

    method Promote(ghost tr: Trail, target: Status, at: string) returns (raised: bool)
      requires Valid() && !tr.failed && State() == tr.last
      modifies store
      ensures var d := P.Emit(config, tr, Effect.Promote(target), at);
              State() == d.last && raised == d.failed
    {
      if config.env.taskId in store.tasks && store.tasks[config.env.taskId].status == target {
        return false;
      }
      var error := tasks.TransitionTask(config.env.taskId, target, at, None, None);
      return error.Some?;
    }

    /** The loop over QUEUED, ASSIGNED and RUNNING, the attempt, and the start event. */
    method Launch(run: P.Run, at: string) returns (raised: bool)
      requires Valid()
      modifies store
      ensures var tr := P.Launch(config, old(State()), run, at);
              State() == tr.last && raised == tr.failed
    {
      ghost var tr := Begin(State());
      raised := Promote(tr, QUEUED, at);
      tr := P.Emit(config, tr, Effect.Promote(QUEUED), at);
      if !raised {
        raised := Promote(tr, ASSIGNED, at);
      }
      tr := P.Emit(config, tr, Effect.Promote(ASSIGNED), at);
      if !raised {
        raised := Promote(tr, RUNNING, at);
      }
      tr := P.Emit(config, tr, Effect.Promote(RUNNING), at);
      if !raised {
        raised := Start(tr, run, at);
      }
    }

    method Start(ghost tr: Trail, run: P.Run, at: string) returns (raised: bool)
      requires Valid() && !tr.failed && State() == tr.last
      modifies store
      ensures var moved := P.Emit(config, tr, MoveAttempt(run.attempt, run.generation, RUNNING), at);
              var d := P.Emit(config, moved, Write(PluginStarted(config.env.plugin), run.attempt), at);
              State() == d.last && raised == d.failed
    {
      ghost var moved := P.Emit(config, tr, MoveAttempt(run.attempt, run.generation, RUNNING), at);
      var error := tasks.TransitionAttempt(config.env.taskId, run.attempt, run.generation, RUNNING, at, None, None);
      assert State() == moved.last && error.Some? == moved.failed;
      if error.Some? {
        return true;
      }
      error := store.AppendNote(config.env.taskId, PluginStarted(config.env.plugin), at, Some(run.attempt));
      return error.Some?;
    }

    /** _finish. */
    method Finish(ghost tr: Trail, run: P.Run, target: Status, at: string) returns (raised: bool)
      requires Valid() && !tr.failed && State() == tr.last
      modifies store
      ensures var d := P.Finish(config, tr, run, target, at);
              State() == d.last && raised == d.failed
    {
      ghost var moved := P.Emit(config, tr, MoveAttempt(run.attempt, run.generation, target), at);
      var error := tasks.TransitionAttempt(config.env.taskId, run.attempt, run.generation, target, at, None, None);
      assert State() == moved.last && error.Some? == moved.failed;
      if error.Some? {
        return true;
      }
      error := tasks.TransitionTask(config.env.taskId, target, at, Some(run.attempt), Some(run.generation));
      return error.Some?;
    }

    /** except BaseException: a durable PAUSED is kept, anything else is logged and failed. */
    method Abort(ghost tr: Trail, run: P.Run, at: string)
      requires Valid() && State() == tr.last && config.env.taskId in store.tasks
      modifies store
      ensures State() == P.Abort(config, tr, run, at).last
    {
      if store.tasks[config.env.taskId].status == PAUSED {
        return;
      }
      ghost var noted := P.Emit(config, tr.(failed := false), Write(PluginFailed, run.attempt), at);
      var error := store.AppendNote(config.env.taskId, PluginFailed, at, Some(run.attempt));
      assert State() == noted.last && error.Some? == noted.failed;
      if error.None? {
        var raised := Finish(noted, run, FAILED, at);
      }
    }

    /** From the returned result to the end of the try block. */
    method Conclude(run: P.Run, r: P.PluginResult, id: string, at: string) returns (raised: bool)
      requires Valid()
      modifies store
      ensures var tr := P.Settle(config, old(State()), run, r, id, at);
              State() == tr.last && raised == tr.failed
    {
      if run.cancelled || !(r.learning <= config.learning) {
        return true;
      }
      var fence := tasks.ValidateFence(config.env.taskId, Some(run.attempt), Some(run.generation));
      if fence.Err? {
        return true;
      }
      ghost var tr := Begin(State());
      raised := false;
      if |r.outputs| > 0 {
        raised := AcceptOutput(tr, r.outputs[0], id, run.attempt, at);
        tr := P.Emit(config, tr, Accept(r.outputs[0], id, run.attempt), at);
      }
      if !raised {
        raised := LogAndFinish(tr, run, r, at);
      }
    }

    method AcceptOutput(ghost tr: Trail, o: Output, id: string, a: string, at: string) returns (raised: bool)
      requires Valid() && !tr.failed && State() == tr.last
      modifies store
      ensures var d := P.Emit(config, tr, Accept(o, id, a), at);
              State() == d.last && raised == d.failed
    {
      var disk := Disk(checkpoints.files, checkpoints.machine);
      if !HashMatches(disk, o) {
        return true;
      }
      var error := store.RegisterArtifact(Artifact(id, config.env.taskId, Some(a), o.kind, o.uri, Some(o.sha), None, at), false);
      return error.Some?;
    }

    method LogAndFinish(ghost tr: Trail, run: P.Run, r: P.PluginResult, at: string) returns (raised: bool)
      requires Valid() && !tr.failed && State() == tr.last
      modifies store
      ensures var noted := P.Emit(config, tr, Write(ResultAccepted(config.env.plugin, r.status, |r.outputs|), run.attempt), at);
              var d := P.Finish(config, noted, run, r.status, at);
              State() == d.last && raised == d.failed
    {
      ghost var noted := P.Emit(config, tr, Write(ResultAccepted(config.env.plugin, r.status, |r.outputs|), run.attempt), at);
      var error := store.AppendNote(config.env.taskId, ResultAccepted(config.env.plugin, r.status, |r.outputs|), at, Some(run.attempt));
      assert State() == noted.last && error.Some? == noted.failed;
      if error.Some? {
        return true;
      }
      raised := Finish(noted, run, r.status, at);
    }

    /** accessible_artifact_refs: the task's artifacts whose local file exists, oldest first. */
    method AccessibleRefs() returns (refs: seq<Uri>)
      requires Valid()
      ensures refs == CheckpointPolicy.AccessibleRefs(checkpoints.OnDisk(), store.artifacts, config.env.taskId, |store.artifacts|)
      ensures forall u :: u in refs <==>
                exists i :: 0 <= i < |store.artifacts| && IsAccessible(checkpoints.OnDisk(), store.artifacts[i], config.env.taskId)
                            && store.artifacts[i].uri == u
    {
      ghost var idx := AccessibleRefsMeaning(checkpoints.OnDisk(), store.artifacts, config.env.taskId, |store.artifacts|);
      refs := [];
      var i := 0;
      while i < |store.artifacts|
        invariant 0 <= i <= |store.artifacts|
        invariant refs == CheckpointPolicy.AccessibleRefs(checkpoints.OnDisk(), store.artifacts, config.env.taskId, i)
      {
        var item := store.artifacts[i];
        if item.taskId == config.env.taskId && IsFile(Disk(checkpoints.files, checkpoints.machine), item.uri) {
          refs := refs + [item.uri];
        }
        i := i + 1;
      }
    }

    method Checkpoint(a: string, handoff: string, id: string, at: string) returns (raised: bool)
      requires Valid() && a in store.attempts
      modifies store, checkpoints
      ensures var tr := P.SaveAndSeal(config, old(State()), P.CheckpointRequest(config, old(State()), a, handoff, at), id, at);
              State() == tr.last && raised == tr.failed
    {
      var row := store.attempts[a];
      var refs := AccessibleRefs();
      var q := CheckpointPolicy.Request(config.env, a, row.generation, row.worker, row.channel, handoff, refs, config.scope, at);
      assert q == P.CheckpointRequest(config, State(), a, handoff, at);
      var checkpoint := checkpoints.Create(q, id);
      return checkpoint.Err?;
    }

    /** The second half of pause, with the finally clause that tells the transport. */
    method Persist(transport: Transport, a: string, handoff: string, id: string, at: string) returns (persisted: bool)
      requires Valid()
      modifies store, checkpoints, transport`outcome
      ensures var tr := P.Persist(config, old(State()), a, handoff, id, at);
              && State() == tr.last && persisted == !tr.failed
              && transport.outcome == (if old(transport.outcome).Some? then old(transport.outcome) else Some(persisted))
    {
      persisted := false;
      if a in store.attempts {
        var g := store.attempts[a].generation;
        ghost var sealed := P.SaveAndSeal(config, State(), P.CheckpointRequest(config, State(), a, handoff, at), id, at);
        var raised := Checkpoint(a, handoff, id, at);
        if !raised {
          raised := PauseBoth(sealed, a, g, at);
        }
        persisted := !raised;
      }
      transport.CompletePause(persisted);
    }

    method PauseBoth(ghost tr: Trail, a: string, g: int, at: string) returns (raised: bool)
      requires Valid() && !tr.failed && State() == tr.last
      modifies store
      ensures var d := P.Emit(config, P.Emit(config, tr, MoveAttempt(a, g, PAUSED), at), MoveTask(PAUSED, a, g), at);
              State() == d.last && raised == d.failed
    {
      ghost var moved := P.Emit(config, tr, MoveAttempt(a, g, PAUSED), at);
      var error := tasks.TransitionAttempt(config.env.taskId, a, g, PAUSED, at, None, None);
      assert State() == moved.last && error.Some? == moved.failed;
      if error.Some? {
        return true;
      }
      error := tasks.TransitionTask(config.env.taskId, PAUSED, at, Some(a), Some(g));
      return error.Some?;
    }

    /** The recovery branch of resume. */
    method Recover(a: string, at: string) returns (raised: bool)
      requires Valid()
      modifies store
      ensures var tr := P.Recover(config, old(State()), a, at);
              State() == tr.last && raised == tr.failed
    {
      if a !in store.attempts {
        return true;
      }
      var g := store.attempts[a].generation;
      ghost var start := Begin(State());
      raised := PauseBoth(start, a, g, at);
      if !raised {
        var error := store.AppendNote(config.env.taskId, InterruptedResumeRecovered(g), at, Some(a));
        raised := error.Some?;
      }
    }

    /** The task goes back to QUEUED under the fence of the loaded checkpoint. */
    method Requeue(ghost tr: Trail, checkpoint: GlobalCheckpoint, at: string) returns (raised: bool)
      requires Valid() && !tr.failed && State() == tr.last
      modifies store
      ensures var d := P.Emit(config, tr, MoveTask(QUEUED, checkpoint.body.attemptId, checkpoint.body.generation), at);
              State() == d.last && raised == d.failed
    {
      var error := tasks.TransitionTask(config.env.taskId, QUEUED, at, Some(checkpoint.body.attemptId), Some(checkpoint.body.generation));
      return error.Some?;
    }

    /** resume up to the first await of the execution it starts, with what that execution is given. */
    method Resume(ghost w: P.World, at: string) returns (started: bool, handoff: string, a: string)
      requires Valid() && w.s == State() && (config.env.taskId in active <==> w.m.active.Some?)
      modifies store
      ensures var o := P.DoResume(config, w, at);
              && State() == o.trail.last
              && o.m == (if started then P.Spawn(w.m, P.NewRun(P.Kind.Resumed(handoff), a)) else w.m)
    {
      hide P.Recover, P.Emit;
      started, handoff, a := false, "", "";
      var t := config.env.taskId;
      if t !in store.tasks {
        return;
      }
      var task := store.tasks[t];
      ghost var tr := Begin(State());
      if task.status == RUNNING && t !in active && task.checkpoint.Some? && task.current.Some? {
        tr := P.Recover(config, State(), task.current.value, at);
        var raised := Recover(task.current.value, at);
        if raised {
          return;
        }
      }
      if t !in store.tasks || store.tasks[t].status != PAUSED {
        return;
      }
      var checkpoint := checkpoints.Load(t, None);
      if checkpoint.Err? || t in active {
        return;
      }
      var raised := Requeue(tr, checkpoint.value, at);
      if raised || t !in store.tasks || store.tasks[t].current.None? {
        return;
      }
      started, handoff, a := true, checkpoint.value.body.stateRef, store.tasks[t].current.value;
    }

    /** cancel reaches the transport in the active table, and only that one. */
    method Cancel()
      modifies active.Values
      ensures active == old(active)
      ensures forall transport :: transport in active.Values ==>
                transport.cancelled == (old(transport.cancelled) || (config.env.taskId in active && transport == active[config.env.taskId]))
    {
      if config.env.taskId in active {
        active[config.env.taskId].Cancel();
      }
    }
  }
}
