/**
  What survives a crash of the controller, and the single durable effects its services produce: one
  database transaction or one file replace each.
 */
module Effects {
  import opened Prelude
  import opened Records
  import opened CheckpointPolicy
  import Repositories
  import TaskPolicy

  datatype Durable = Durable(db: Db, disk: Disk)

  /** An artifact a plugin result claims. */
  datatype Output = Output(kind: string, uri: Uri, sha: Hash)

  datatype Effect =
    | Create(env: Envelope)
    | Assign(a: string, worker: string, channel: string)
    | Promote(state: Status)                        // unless the task is there already
    | MoveTask(target: Status, a: string, g: int)   // fenced
    | MoveAttempt(a: string, g: int, target: Status)
    | Write(note: Note, a: string)
    | Register(artifact: Artifact)
    | Accept(output: Output, id: string, a: string) // hash check, then registration
    | Charge(cost: Cost)
    | Measure(id: string, metric: Metric, a: string)
    | Save(draft: Draft)                            // the file replace of a checkpoint
    | Seal(draft: Draft, id: string)                // its registration

  function Lift(s: Durable, r: Result<Db>): Result<Durable> {
    match r
    case Ok(d) => Ok(s.(db := d))
    case Err(e) => Err(e)
  }

  /** The file a file: URL names; other schemes and bare paths are not local (_local_file). */
  predicate IsLocalFile(disk: Disk, uri: Uri) {
    uri.FileUrl? && IsFile(disk, uri)
  }

  predicate HashMatches(disk: Disk, o: Output) {
    IsLocalFile(disk, o.uri) && Sha256(FileAt(disk, o.uri)) == o.sha
  }

  function Apply(t: string, s: Durable, e: Effect, at: string): Result<Durable> {
    match e
    case Create(env) => Lift(s, Repositories.CreateTask(s.db, env, at))
    case Assign(a, worker, channel) => Lift(s, TaskPolicy.CreateAttempt(s.db, t, a, worker, Some(channel), at, None))
    case Promote(state) =>
      if t in s.db.tasks && s.db.tasks[t].status == state then Ok(s)
      else Lift(s, TaskPolicy.TransitionTask(s.db, t, state, at, None, None))
    case MoveTask(target, a, g) => Lift(s, TaskPolicy.TransitionTask(s.db, t, target, at, Some(a), Some(g)))
    case MoveAttempt(a, g, target) => Lift(s, TaskPolicy.TransitionAttempt(s.db, t, a, g, target, at, None, None))
    case Write(note, a) => Lift(s, Repositories.AppendNote(s.db, t, note, at, Some(a)))
    case Register(artifact) => Lift(s, Repositories.RegisterArtifact(s.db, artifact, false))
    case Accept(o, id, a) =>
      if !HashMatches(s.disk, o) then Err(ResultRejected)
      else Lift(s, Repositories.RegisterArtifact(s.db, Artifact(id, t, Some(a), o.kind, o.uri, Some(o.sha), None, at), false))
    case Charge(cost) => Lift(s, Repositories.RecordCost(s.db, cost))
    case Measure(id, metric, a) => Lift(s, Repositories.RecordMetric(s.db, id, metric, Some(a)))
    case Save(draft) => Ok(s.(disk := Replace(s.disk, draft)))
    case Seal(draft, id) => Lift(s, CheckpointPolicy.Register(s.disk, s.db, draft, id, at))
  }

  /**
    A stretch of code between two awaits: every durable state it passes through, and whether it was
    cut short by an exception. A crash can leave any of these states behind.
   */
  datatype Trail = Trail(before: seq<Durable>, last: Durable, failed: bool)

  function Begin(s: Durable): Trail {
    Trail([], s, false)
  }

  function Then(t: string, tr: Trail, e: Effect, at: string): Trail {
    if tr.failed then tr
    else match Apply(t, tr.last, e, at)
      case Ok(s) => Trail(tr.before + [tr.last], s, false)
      case Err(_) => tr.(failed := true)
  }

  /** The state after the first k effects. */
  function StateAt(tr: Trail, k: nat): Durable {
    if k < |tr.before| then tr.before[k] else tr.last
  }

  /** The repository call behind an effect. */
  function Call(t: string, s: Durable, e: Effect, at: string): Option<Repositories.Txn> {
    match e
    case Create(env) => Some(Repositories.TxCreateTask(env, at))
    case Assign(a, worker, channel) => Some(Repositories.TxCreateAttempt(t, a, worker, Some(channel), at, None))
    case Promote(state) =>
      if t in s.db.tasks && s.db.tasks[t].status != state
      then Some(Repositories.TxTransition(t, s.db.tasks[t].status, state, at, None, None)) else None
    case MoveTask(target, a, g) =>
      if t in s.db.tasks
      then Some(Repositories.TxTransition(t, s.db.tasks[t].status, target, at, Some(a), Some(g))) else None
    case MoveAttempt(a, g, target) =>
      if a in s.db.attempts
      then Some(Repositories.TxTransitionAttempt(t, a, g, s.db.attempts[a].status, target, at, None, None)) else None
    case Write(note, a) => Some(Repositories.TxAppendNote(t, note, at, Some(a)))
    case Register(artifact) => Some(Repositories.TxRegisterArtifact(artifact, false))
    case Accept(o, id, a) =>
      Some(Repositories.TxRegisterArtifact(Artifact(id, t, Some(a), o.kind, o.uri, Some(o.sha), None, at), false))
    case Charge(cost) => Some(Repositories.TxRecordCost(cost))
    case Measure(id, metric, a) => Some(Repositories.TxRecordMetric(id, metric, Some(a)))
    case Save(_) => None
    case Seal(draft, id) =>
      if draft.path in s.disk.files
      then Some(Repositories.TxRegisterArtifact(RowFor(s.disk, draft, id, at), true)) else None
  }
}
