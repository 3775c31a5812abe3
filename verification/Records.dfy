/** The rows of the SQLite schema and the models stored in them. */
module Records {
  import opened Prelude

  datatype Status =
    | CREATED | QUEUED | ASSIGNED | RUNNING | WAITING_APPROVAL | PAUSED
    | RETRYING | FAILOVER_PENDING | COMPLETED | FAILED | CANCELLED

  datatype FailureType =
    | WORKER_FAILURE | CHANNEL_FAILURE | RATE_LIMIT | AUTH_FAILURE | PLUGIN_FAILURE
    | TOOL_FAILURE | BUDGET_BLOCK | PERMISSION_BLOCK | DATA_SYNC_FAILURE | USER_CANCEL

  datatype ApprovalStatus = PENDING | APPROVED | DENIED

  datatype MasterPreference = AUTO | CLAUDE | CHATGPT

  datatype CostMode = ECONOMY | BALANCED | MAX_QUALITY

  datatype ChannelClass = SUBSCRIPTION | FREE_LOCAL | CHEAP_API | PREMIUM_API

  datatype Health = AVAILABLE | DEGRADED | LIMIT_WARNING | RATE_LIMITED | UNAVAILABLE | UNKNOWN

  /** The routing hints of a channel's metadata. */
  datatype Hints = Hints(
    workers: Option<set<string>>, quality: Option<real>, reliability: Option<real>,
    tokenCost: Option<real>, latency: Option<real>)

  /** ExecutionChannel, as far as routing, budgets and execution read it. */
  datatype Channel = Channel(
    id: string, provider: string, class_: ChannelClass, billing: string, capabilities: set<string>,
    enabled: bool, priority: int, health: Health, hints: Hints)

  /** A locator, already split the way urlparse splits it. */
  datatype Uri =
    | FileUrl(path: string)   // file:///...
    | Plain(path: string)     // a bare path
    | Remote(text: string)    // any other scheme

  /** The checkpoint document without its own digest. */
  datatype CheckpointBody = CheckpointBody(
    schemaVersion: string, checkpointId: string, revision: int, taskId: string,
    attemptId: string, generation: int, plugin: string, stateRef: string,
    globalStatus: string, workerId: string, channelId: Option<string>,
    artifactRefs: seq<Uri>, nextAction: string, createdAt: string)

  datatype GlobalCheckpoint = GlobalCheckpoint(body: CheckpointBody, payloadSha: Hash)

  /**
    What reading "revision" out of a JSON file gives: nothing usable, a number, or one of the three
    exceptions that are neither OSError, ValueError nor TypeError. Those come from JSON that is not
    an object, from an infinite number such as 1e999, and from JSON nested too deeply to decode.
   */
  datatype RevisionField = Unreadable | NotAnObject | Infinite | TooDeep | Number(n: int)

  /**
    The bytes of a file, seen through json.loads. `doc` is the checkpoint the text validates to,
    if it does. `raw` tells apart texts whose fields differ before validation normalises them
    (0 is the model's own dump), `layout` tells apart texts that differ in bytes only.
   */
  datatype Content = Text(doc: Option<GlobalCheckpoint>, revision: RevisionField, raw: nat, layout: nat)

  /** SHA-256 as a symbolic, injective function. */
  datatype Hash =
    | Sha256(of: Content)
    | PayloadSha256(payload: CheckpointBody, raw: nat)
    | Declared(text: string)  // a hash some plugin claims

  datatype Envelope = Envelope(
    taskId: string, plugin: string, workspace: Uri, preference: MasterPreference,
    costMode: CostMode, capability: string, softUsd: int, hardUsd: int, request: string)

  datatype Task = Task(
    env: Envelope, status: Status, worker: Option<string>, channel: Option<string>,
    current: Option<string>, checkpoint: Option<Uri>, updatedAt: string)

  datatype Attempt = Attempt(
    taskId: string, no: int, worker: string, channel: Option<string>, status: Status,
    failure: Option<FailureType>, message: Option<string>,
    startedAt: Option<string>, endedAt: Option<string>, generation: int)

  datatype Artifact = Artifact(
    id: string, taskId: string, attempt: Option<string>, kind: string, uri: Uri,
    sha: Option<Hash>, size: Option<nat>, createdAt: string)

  /** cost_events; the AUTOINCREMENT key is the position in the table plus one. Micro-dollars. */
  datatype Cost = Cost(
    taskId: string, attempt: Option<string>, channel: string, billing: string,
    inputTokens: Option<nat>, outputTokens: Option<nat>, usd: int, createdAt: string)

  /** What an approval request says about the projected spend. */
  datatype Quote = Quote(
    channel: string, billing: string, usd: int, taskUsd: int, dailyUsd: int, monthlyUsd: int,
    warnings: seq<string>, exceeded: seq<string>)

  datatype Approval = Approval(
    taskId: string, action: string, reason: string, payload: Quote, status: ApprovalStatus,
    requestedAt: string, decidedAt: Option<string>, decidedBy: Option<string>)

  /** What global_learning_events measures of one channel response, the quality score apart. */
  datatype Measures = Measures(
    plugin: string, channel: string, capability: string, success: bool, latencySeconds: Option<real>,
    usd: Option<int>, contextTokens: Option<nat>, retries: Option<nat>)

  datatype Metric = Metric(taskId: string, measures: Measures, quality: Option<real>, createdAt: string)

  /** Payloads of the events that the services append through EventService. */
  datatype Note =
    | PluginStarted(plugin: string)
    | ChannelFinished(channel: string, success: bool, artifactId: Option<string>)
    | ResultAccepted(plugin: string, status: Status, outputs: nat)
    | PluginFailed
    | InterruptedResumeRecovered(generation: int)
    | BudgetAuthorized(quote: Quote, warned: bool)
    | NonPaidAuthorized(channel: string)
    | Remark(name: string, text: string)

  datatype Event =
    | TaskCreated
    | TaskStatusChanged(from: Status, to: Status)
    | AttemptCreated(no: int, generation: int, worker: string, channel: Option<string>)
    | AttemptStatusChanged(from: Status, to: Status, generation: int, failure: Option<FailureType>)
    | ArtifactRegistered(id: string, kind: string, uri: Uri, sha: Option<Hash>, latest: bool)
    | CostRecorded(cost: nat, channelId: string, billing: string, usd: int,
                   inputTokens: Option<nat>, outputTokens: Option<nat>)
    | MetricsRecorded(id: string, measures: Measures)
    | ApprovalRequested(id: string, action: string, reason: string, payload: Quote)
    | ApprovalDecided(id: string, verdict: ApprovalStatus, decider: string)
    | Noted(note: Note)

  datatype EventRow = EventRow(taskId: string, attempt: Option<string>, event: Event, at: string)

  /** The whole database. Rows that are only ever appended are sequences in insertion order. */
  datatype Db = Db(
    tasks: map<string, Task>, attempts: map<string, Attempt>, artifacts: seq<Artifact>,
    costs: seq<Cost>, approvals: map<string, Approval>, metrics: map<string, Metric>,
    log: seq<EventRow>)

  const EMPTY: Db := Db(map[], map[], [], [], map[], map[], [])
}
