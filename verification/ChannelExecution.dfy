/** Fenced channel calls (core/channel_execution_service.py): checks on both sides of the await. */
module ChannelPolicy {
  import opened Prelude
  import opened Records
  import opened CheckpointPolicy
  import opened Effects
  import opened Lifecycle
  import Repositories
  import TaskPolicy

  datatype ChannelRequest = ChannelRequest(taskId: string, capability: string, workspace: Uri)

  datatype ChannelResponse = ChannelResponse(
    success: bool, output: Option<Uri>, inputTokens: Option<nat>, outputTokens: Option<nat>, latencySeconds: real)

  /** Everything checked before the channel is called; the value is the channel to call. */
  function Permit(db: Db, t: string, a: string, g: int, request: ChannelRequest, channels: map<string, Channel>): Result<Channel> {
    var fence := TaskPolicy.ValidateFence(db, t, Some(a), Some(g));
    if t !in db.tasks then Err(TaskNotFound)
    else if fence.Err? then Err(fence.error)
    else
      var task, attempt := db.tasks[t], fence.value;
      if task.status != RUNNING || attempt.status != RUNNING then Err(StateConflict)
      else if request.taskId != t then Err(StateConflict)
      else if request.capability != task.env.capability then Err(ChannelFailed)
      else if request.workspace != task.env.workspace then Err(ChannelFailed)
      else if attempt.channel.None? || attempt.channel.value == "" || attempt.channel.value !in channels then Err(ChannelFailed)
      else
        var channel := channels[attempt.channel.value];
        if channel.class_ != SUBSCRIPTION then Err(BudgetState)
        else if request.capability !in channel.capabilities then Err(ChannelFailed)
        else Ok(channel)
  }

  /**
    A channel is called exactly for a RUNNING task and its current RUNNING attempt of that
    generation, on a request with the task, the capability and the workspace of the envelope, through
    the attempt's own channel, which is configured, a subscription and capable.
   */
  lemma PermitExactlyWhen(db: Db, t: string, a: string, g: int, request: ChannelRequest, channels: map<string, Channel>)
    ensures Permit(db, t, a, g, request, channels).Ok? <==>
              && t in db.tasks && db.tasks[t].status == RUNNING && db.tasks[t].current == Some(a)
              && a != "" && a in db.attempts && db.attempts[a].taskId == t && db.attempts[a].generation == g
              && db.attempts[a].status == RUNNING
              && request.taskId == t && request.capability == db.tasks[t].env.capability
              && request.workspace == db.tasks[t].env.workspace
              && db.attempts[a].channel.Some? && db.attempts[a].channel.value != "" && db.attempts[a].channel.value in channels
              && channels[db.attempts[a].channel.value].class_ == SUBSCRIPTION
              && db.tasks[t].env.capability in channels[db.attempts[a].channel.value].capabilities
    ensures Permit(db, t, a, g, request, channels).Ok? ==>
              && a in db.attempts && db.attempts[a].channel.Some? && db.attempts[a].channel.value in channels
              && Permit(db, t, a, g, request, channels).value == channels[db.attempts[a].channel.value]
  {
  }

  /** Which error a refusal gives: fence, statuses, identity, envelope, channel, class, capability, in this order. */
  lemma PermitErrors(db: Db, t: string, a: string, g: int, request: ChannelRequest, channels: map<string, Channel>)
    requires Permit(db, t, a, g, request, channels).Err?
    ensures var e := Permit(db, t, a, g, request, channels).error;
            if t !in db.tasks then e == TaskNotFound
            else if a == "" then e == InvalidGeneration
            else if a !in db.attempts then e == AttemptNotFound
            else if db.tasks[t].current != Some(a) || db.attempts[a].taskId != t || db.attempts[a].generation != g then
              e == InvalidGeneration
            else if db.tasks[t].status != RUNNING || db.attempts[a].status != RUNNING || request.taskId != t then
              e == StateConflict
            else if request.capability != db.tasks[t].env.capability || request.workspace != db.tasks[t].env.workspace
                    || db.attempts[a].channel.None? || db.attempts[a].channel.value == ""
                    || db.attempts[a].channel.value !in channels then
              e == ChannelFailed
            else e == if channels[db.attempts[a].channel.value].class_ != SUBSCRIPTION then BudgetState else ChannelFailed
  {
  }

  /** The same fence and the task status again, after the await. */
  function Refusal(db: Db, t: string, a: string, g: int): Option<Error> {
    var fence := TaskPolicy.ValidateFence(db, t, Some(a), Some(g));
    if fence.Err? then Some(fence.error)
    else if db.tasks[t].status != RUNNING then Some(StateConflict)
    else None
  }

  predicate HasOutput(response: ChannelResponse) {
    response.output.Some? && response.output.value != Plain("")
  }

  /** The channel-output row; only a local file: URL that exists gets a hash and a size. */
  function OutputRow(disk: Disk, t: string, a: string, uri: Uri, id: string, at: string): Artifact {
    if IsLocalFile(disk, uri)
    then Artifact(id, t, Some(a), "channel-output", uri, Some(Sha256(FileAt(disk, uri))), Some(0), at)
    else Artifact(id, t, Some(a), "channel-output", uri, None, None, at)
  }

  /** record_channel_response writes a zero cost for a subscription channel. */
  function CostRow(t: string, a: string, channel: Channel, response: ChannelResponse, at: string): Cost {
    Cost(t, Some(a), channel.id, channel.billing, response.inputTokens, response.outputTokens, 0, at)
  }

  function MetricRow(t: string, env: Envelope, channel: Channel, response: ChannelResponse, at: string): Metric {
    Metric(t, Measures(env.plugin, channel.id, env.capability, response.success, Some(response.latencySeconds),
                       Some(0), response.inputTokens, Some(0)), None, at)
  }

  datatype Ids = Ids(artifact: string, metric: string)

  function Finished(channel: Channel, response: ChannelResponse, ids: Ids): Note {
    ChannelFinished(channel.id, response.success, if response.success then Some(ids.artifact) else None)
  }

  /** record_channel_response: the cost, then the learning event. */
  function Measured(t: string, tr: Trail, env: Envelope, a: string, channel: Channel, response: ChannelResponse,
                    id: string, at: string): Trail
  {
    var charged := Then(t, tr, Charge(CostRow(t, a, channel, response, at)), at);
    Then(t, charged, Measure(id, MetricRow(t, env, channel, response, at), a), at)
  }

  /** Everything that happens once the channel has answered. */
  function Receive(t: string, s: Durable, env: Envelope, a: string, g: int, channel: Channel, response: ChannelResponse,
                   ids: Ids, at: string): Trail
  {
    var start := Begin(s);
    if Refusal(s.db, t, a, g).Some? || (response.success && !HasOutput(response)) then start.(failed := true)
    else
      var registered := if response.success
                        then Then(t, start, Register(OutputRow(s.disk, t, a, response.output.value, ids.artifact, at)), at)
                        else start;
      Then(t, Measured(t, registered, env, a, channel, response, ids.metric, at), Write(Finished(channel, response, ids), a), at)
  }

  /** A response leaves no artifact, cost, metric or event. */
  predicate LeavesNothing(tr: Trail, s: Durable) {
    tr.failed && tr.before == [] && tr.last == s
  }

  predicate IdTaken(db: Db, id: string) {
    exists i :: 0 <= i < |db.artifacts| && db.artifacts[i].id == id
  }

  /** A fenced attempt cannot disappear, change task or change generation. */
  lemma {:induction false} FenceRowsStay(db: Db, ys: seq<Repositories.Txn>, t: string, a: string)
    requires t in db.tasks && a in db.attempts
    ensures var d := Repositories.Exec(db, ys);
            && t in d.tasks && d.tasks[t].env == db.tasks[t].env
            && a in d.attempts && d.attempts[a].taskId == db.attempts[a].taskId
            && d.attempts[a].generation == db.attempts[a].generation
  {
    if ys != [] {
      FenceRowsStay(db, ys[..|ys| - 1], t, a);
      var mid := Repositories.Exec(db, ys[..|ys| - 1]);
      KeepsAfter(mid, ys[|ys| - 1]);
      GenerationKept(mid, ys[|ys| - 1], a);
    }
  }

  lemma DroppedWhen(t: string, s: Durable, env: Envelope, a: string, g: int, channel: Channel, response: ChannelResponse,
                    ids: Ids, at: string)
    requires a != "" && t in s.db.tasks && a in s.db.attempts
    requires s.db.attempts[a].taskId == t && s.db.attempts[a].generation == g
    ensures LeavesNothing(Receive(t, s, env, a, g, channel, response, ids, at), s) <==>
              || s.db.tasks[t].current != Some(a) || s.db.tasks[t].status != RUNNING
              || (response.success && (response.output in {None, Some(Plain(""))} || IdTaken(s.db, ids.artifact)))
  {
    var fence := TaskPolicy.ValidateFence(s.db, t, Some(a), Some(g));
    assert fence.Ok? <==> s.db.tasks[t].current == Some(a);
    if Refusal(s.db, t, a, g).None? && (response.success ==> HasOutput(response)) {
      var start := Begin(s);
      if response.success {
        var row := OutputRow(s.disk, t, a, response.output.value, ids.artifact, at);
        var registered := Then(t, start, Register(row), at);
        assert registered.failed <==> IdTaken(s.db, ids.artifact);
        assert !registered.failed ==> registered.before == [s];
      } else {
        var charged := Then(t, start, Charge(CostRow(t, a, channel, response, at)), at);
        assert !charged.failed && charged.before == [s];
      }
    }
  }

  /**
    Whatever validated calls ran while the channel was busy: the response is dropped without an
    artifact, cost, metric or event exactly when the attempt is no longer the current one, the task
    is no longer RUNNING, or the response is unusable (a success without an output reference, or
    under an artifact id that is taken). A superseded attempt is always dropped.
   */
  lemma LateResponseLeavesNothing(xs: seq<Repositories.Txn>, ys: seq<Repositories.Txn>, t: string, a: string, g: int,
                                  request: ChannelRequest, channels: map<string, Channel>,
                                  disk: Disk, env: Envelope, response: ChannelResponse, ids: Ids, at: string)
    requires AllLawful(xs) && AllLawful(ys)
    requires Permit(Repositories.Exec(EMPTY, xs), t, a, g, request, channels).Ok?
    ensures var s := Durable(Repositories.Exec(EMPTY, xs + ys), disk);
            var channel := Permit(Repositories.Exec(EMPTY, xs), t, a, g, request, channels).value;
            var tr := Receive(t, s, env, a, g, channel, response, ids, at);
            && t in s.db.tasks
            && (LeavesNothing(tr, s) <==>
                  || s.db.tasks[t].current != Some(a) || s.db.tasks[t].status != RUNNING
                  || (response.success && (response.output in {None, Some(Plain(""))} || IdTaken(s.db, ids.artifact))))
            && (Superseded(s.db, a) ==> LeavesNothing(tr, s))
  {
    var before := Repositories.Exec(EMPTY, xs);
    var s := Durable(Repositories.Exec(EMPTY, xs + ys), disk);
    var channel := Permit(before, t, a, g, request, channels).value;
    Repositories.ExecAppend(EMPTY, xs, ys);
    FenceRowsStay(before, ys, t, a);
    DroppedWhen(t, s, env, a, g, channel, response, ids, at);
    if Superseded(s.db, a) {
      assert AllLawful(xs + ys);
      RunsStayValid(xs + ys);
      CurrentIsNotSuperseded(s.db, a);
    }
  }

  lemma RegisterAdds(t: string, tr: Trail, row: Artifact, at: string)
    requires !Then(t, tr, Register(row), at).failed
    ensures !tr.failed
    ensures var d := Then(t, tr, Register(row), at).last;
            && d.disk == tr.last.disk
            && d.db == tr.last.db.(artifacts := tr.last.db.artifacts + [row], log := d.db.log)
            && d.db.log == tr.last.db.log + [EventRow(row.taskId, row.attempt,
                 ArtifactRegistered(row.id, row.kind, row.uri, row.sha, false), row.createdAt)]
  {
  }

  lemma MeasuredAdds(t: string, tr: Trail, env: Envelope, a: string, channel: Channel, response: ChannelResponse,
                     id: string, at: string)
    requires !Measured(t, tr, env, a, channel, response, id, at).failed
    ensures !tr.failed
    ensures var d := Measured(t, tr, env, a, channel, response, id, at).last;
            && d.disk == tr.last.disk
            && d.db == tr.last.db.(costs := tr.last.db.costs + [CostRow(t, a, channel, response, at)],
                                   metrics := d.db.metrics, log := d.db.log)
            && |d.db.log| == |tr.last.db.log| + 2 && tr.last.db.log <= d.db.log
  {
    var charged := Then(t, tr, Charge(CostRow(t, a, channel, response, at)), at);
    assert !charged.failed;
    assert |charged.last.db.log| == |tr.last.db.log| + 1 && tr.last.db.log <= charged.last.db.log;
  }

  /** The output row: under the attempt, with the hash of the file exactly when the reference is a file: URL of a file that exists. */
  lemma OutputRowMeaning(disk: Disk, t: string, a: string, uri: Uri, id: string, at: string)
    ensures var row := OutputRow(disk, t, a, uri, id, at);
            && row.id == id && row.taskId == t && row.attempt == Some(a) && row.kind == "channel-output" && row.uri == uri
            && row.createdAt == at
            && row.sha == (if uri.FileUrl? && uri.path in disk.files then Some(Sha256(disk.files[uri.path])) else None)
  {
  }

  /** The learning event: plugin, channel and capability, success and latency, no money, and the tokens of the prompt. */
  lemma MetricAdded(t: string, tr: Trail, env: Envelope, a: string, channel: Channel, response: ChannelResponse,
                    id: string, at: string)
    requires !Measured(t, tr, env, a, channel, response, id, at).failed
    ensures id !in tr.last.db.metrics
    ensures var d := Measured(t, tr, env, a, channel, response, id, at).last;
            d.db.metrics == tr.last.db.metrics[id := Metric(t,
              Measures(env.plugin, channel.id, env.capability, response.success, Some(response.latencySeconds), Some(0),
                       response.inputTokens, Some(0)), None, at)]
  {
    var charged := Then(t, tr, Charge(CostRow(t, a, channel, response, at)), at);
    assert charged.failed || charged.last.db.metrics == tr.last.db.metrics;
  }

  /** What an accepted response adds: its rows, all under the calling attempt, and never money or a status. */
  lemma AcceptedResponse(t: string, s: Durable, env: Envelope, a: string, g: int, channel: Channel, response: ChannelResponse,
                         ids: Ids, at: string)
    requires !Receive(t, s, env, a, g, channel, response, ids, at).failed
    ensures var d := Receive(t, s, env, a, g, channel, response, ids, at).last;
            && (response.success ==> HasOutput(response) && response.output !in {None, Some(Plain(""))})
            && d.disk == s.disk && d.db.tasks == s.db.tasks && d.db.attempts == s.db.attempts
            && (!response.success ==> d.db.artifacts == s.db.artifacts)
            && (response.success ==>
                  var row := OutputRow(s.disk, t, a, response.output.value, ids.artifact, at);
                  d.db.artifacts == s.db.artifacts + [row])
            && d.db.costs == s.db.costs + [Cost(t, Some(a), channel.id, channel.billing, response.inputTokens, response.outputTokens, 0, at)]
            && |d.db.log| == |s.db.log| + (if response.success then 4 else 3) && s.db.log <= d.db.log
            && d.db.log[|d.db.log| - 1] == EventRow(t, Some(a), Noted(ChannelFinished(channel.id, response.success,
                 if response.success then Some(ids.artifact) else None)), at)
  {
    var start := Begin(s);
    var registered := start;
    if response.success {
      var row := OutputRow(s.disk, t, a, response.output.value, ids.artifact, at);
      registered := Then(t, start, Register(row), at);
    }
    var measured := Measured(t, registered, env, a, channel, response, ids.metric, at);
    assert !measured.failed;
    MeasuredAdds(t, registered, env, a, channel, response, ids.metric, at);
    if response.success {
      RegisterAdds(t, start, OutputRow(s.disk, t, a, response.output.value, ids.artifact, at), at);
    }
  }
}

/** The service object; the await on the adapter lies between Prepare and Conclude. */
module ChannelService {
  import opened Prelude
  import opened Records
  import opened CheckpointPolicy
  import opened Effects
  import opened ChannelPolicy
  import Store
  import TaskService

  class Service {
    const store: Store.Database
    const tasks: TaskService.Service
    const channels: map<string, Channel>

    constructor (store: Store.Database, tasks: TaskService.Service, channels: map<string, Channel>)
      ensures this.store == store && this.tasks == tasks && this.channels == channels
    {
      this.store, this.tasks, this.channels := store, tasks, channels;
    }

    method Prepare(t: string, a: string, g: int, request: ChannelRequest) returns (r: Result<Channel>)
      requires tasks.store == store
      ensures r == Permit(store.Contents(), t, a, g, request, channels)
      ensures r.Ok? ==>
                && t in store.tasks && store.tasks[t].status == RUNNING && store.tasks[t].current == Some(a)
                && a in store.attempts && store.attempts[a].status == RUNNING && store.attempts[a].generation == g
                && request.taskId == t && request.capability == store.tasks[t].env.capability
                && request.workspace == store.tasks[t].env.workspace
                && store.attempts[a].channel.Some? && store.attempts[a].channel.value in channels
                && r.value == channels[store.attempts[a].channel.value] && r.value.class_ == SUBSCRIPTION
                && request.capability in r.value.capabilities
    {
      if t !in store.tasks {
        return Err(TaskNotFound);
      }
      var task := store.tasks[t];
      var fence := tasks.ValidateFence(t, Some(a), Some(g));
      if fence.Err? {
        return Err(fence.error);
      }
      var attempt := fence.value;
      if task.status != RUNNING || attempt.status != RUNNING || request.taskId != t {
        return Err(StateConflict);
      }
      if request.capability != task.env.capability || request.workspace != task.env.workspace {
        return Err(ChannelFailed);
      }
      if attempt.channel.None? || attempt.channel.value == "" || attempt.channel.value !in channels {
        return Err(ChannelFailed);
      }
      var channel := channels[attempt.channel.value];
      if channel.class_ != SUBSCRIPTION {
        return Err(BudgetState);
      }
      if request.capability !in channel.capabilities {
        return Err(ChannelFailed);
      }
      return Ok(channel);
    }

    method RecordResponse(t: string, ghost tr: Trail, a: string, env: Envelope, channel: Channel, response: ChannelResponse,
                          id: string, at: string) returns (raised: bool)
      requires !tr.failed && store.Contents() == tr.last.db
      modifies store
      ensures var done := Measured(t, tr, env, a, channel, response, id, at);
              store.Contents() == done.last.db && raised == done.failed
    {
      var charge := store.RecordCost(CostRow(t, a, channel, response, at));
      if charge.Some? {
        return true;
      }
      var measure := store.RecordMetric(id, MetricRow(t, env, channel, response, at), Some(a));
      return measure.Some?;
    }

    /** The database afterwards is the last state of Receive, also when an exception cuts it short. */
    method Conclude(t: string, a: string, g: int, env: Envelope, channel: Channel, response: ChannelResponse,
                    ids: Ids, disk: Disk, at: string) returns (raised: bool)
      requires tasks.store == store
      modifies store
      ensures var tr := Receive(t, Durable(old(store.Contents()), disk), env, a, g, channel, response, ids, at);
              store.Contents() == tr.last.db && raised == tr.failed
    {
      var fence := tasks.ValidateFence(t, Some(a), Some(g));
      if fence.Err? {
        return true;
      }
      if store.tasks[t].status != RUNNING {
        return true;
      }
      if response.success {
        if !HasOutput(response) {
          return true;
        }
        var error := store.RegisterArtifact(OutputRow(disk, t, a, response.output.value, ids.artifact, at), false);
        if error.Some? {
          return true;
        }
      }
      ghost var registered := if response.success
        then Then(t, Begin(Durable(old(store.Contents()), disk)), Register(OutputRow(disk, t, a, response.output.value, ids.artifact, at)), at)
        else Begin(Durable(old(store.Contents()), disk));
      var failed := RecordResponse(t, registered, a, env, channel, response, ids.metric, at);
      if failed {
        return true;
      }
      var note := store.AppendNote(t, Finished(channel, response, ids), at, Some(a));
      return note.Some?;
    }
  }
}
