/**
  Artifact-first checkpoints (core/checkpoint_service.py): a numbered file, then a registered row
  with the file's hash that becomes the task's latest-checkpoint pointer.
 */
module CheckpointPolicy {
  import opened Prelude
  import opened Records
  import opened CheckpointNames
  import opened Repositories

  /** Local files by path, and the workspace roots that have a 30_Working directory. */
  datatype Disk = Disk(files: map<string, Content>, machine: set<string>)

  function LocalPath(uri: Uri): Option<string> {
    match uri
    case FileUrl(p) => Some(p)
    case Plain(p) => Some(p)
    case Remote(_) => None
  }

  predicate IsFile(disk: Disk, uri: Uri) {
    LocalPath(uri).Some? && LocalPath(uri).value in disk.files
  }

  function FileAt(disk: Disk, uri: Uri): Content
    requires IsFile(disk, uri)
  {
    disk.files[LocalPath(uri).value]
  }

  /** json.loads(text).get("revision", 0), through int. */
  function ReadRevision(c: Content): RevisionField {
    if c.doc.Some? then Number(c.doc.value.body.revision) else c.revision
  }

  /** The checkpoint with its own digest, and the text _json writes for it. */
  function Sealed(body: CheckpointBody): GlobalCheckpoint {
    GlobalCheckpoint(body, PayloadSha256(body, 0))
  }

  function Written(body: CheckpointBody): Content {
    Text(Some(Sealed(body)), Number(body.revision), 0, 0)
  }

  // ---- create

  /** The largest revision found in the first n artifacts; None when none was readable. */
  function MaxRevision(disk: Disk, artifacts: seq<Artifact>, t: string, n: nat): Result<Option<int>>
    requires n <= |artifacts|
  {
    if n == 0 then Ok(None) else
      var before := MaxRevision(disk, artifacts, t, n - 1);
      var item := artifacts[n - 1];
      if before.Err? then before
      else if item.taskId != t || item.kind != "checkpoint" || !IsFile(disk, item.uri) then before
      else match ReadRevision(FileAt(disk, item.uri))
        case Unreadable => before
        case NotAnObject => Err(AttributeError)
        case Infinite => Err(OverflowError)
        case TooDeep => Err(RecursionError)
        case Number(k) => Ok(Some(if before.value.Some? then Max(before.value.value, k) else k))
  }

  function NextRevision(disk: Disk, artifacts: seq<Artifact>, t: string): Result<int> {
    match MaxRevision(disk, artifacts, t, |artifacts|)
    case Err(e) => Err(e)
    case Ok(None) => Ok(1)
    case Ok(Some(k)) => Ok(k + 1)
  }

  /** The exception that reading a revision lets through. */
  function Uncaught(f: RevisionField): Option<Error> {
    match f
    case NotAnObject => Some(AttributeError)
    case Infinite => Some(OverflowError)
    case TooDeep => Some(RecursionError)
    case _ => None
  }

  predicate IsCheckpointFile(disk: Disk, row: Artifact, t: string) {
    row.taskId == t && row.kind == "checkpoint" && IsFile(disk, row.uri)
  }

  /** The row is a checkpoint of t whose file makes reading its revision raise. */
  predicate Raises(disk: Disk, row: Artifact, t: string) {
    IsCheckpointFile(disk, row, t) && Uncaught(ReadRevision(FileAt(disk, row.uri))).Some?
  }

  predicate HasRaising(disk: Disk, artifacts: seq<Artifact>, t: string, n: nat)
    requires n <= |artifacts|
  {
    exists i :: 0 <= i < n && Raises(disk, artifacts[i], t)
  }

  /** Row i is the first that raises, and this is what it raises. */
  predicate FirstRaising(disk: Disk, artifacts: seq<Artifact>, t: string, i: nat, e: Error)
    requires i < |artifacts|
  {
    && Raises(disk, artifacts[i], t) && Uncaught(ReadRevision(FileAt(disk, artifacts[i].uri))) == Some(e)
    && !HasRaising(disk, artifacts, t, i)
  }

  predicate RaisesFirst(disk: Disk, artifacts: seq<Artifact>, t: string, n: nat, e: Error)
    requires n <= |artifacts|
  {
    exists i: nat :: i < n && FirstRaising(disk, artifacts, t, i, e)
  }

  /** Some checkpoint file among the first n rows shows revision k. */
  predicate Shows(disk: Disk, artifacts: seq<Artifact>, t: string, n: nat, k: int)
    requires n <= |artifacts|
  {
    exists i :: 0 <= i < n && ShowsAt(disk, artifacts[i], t, k)
  }

  predicate ShowsAt(disk: Disk, row: Artifact, t: string, k: int) {
    IsCheckpointFile(disk, row, t) && ReadRevision(FileAt(disk, row.uri)) == Number(k)
  }

  lemma {:induction false} MaxRevisionMeaning(disk: Disk, artifacts: seq<Artifact>, t: string, n: nat)
    requires n <= |artifacts|
    ensures match MaxRevision(disk, artifacts, t, n)
            case Err(e) => RaisesFirst(disk, artifacts, t, n, e) && HasRaising(disk, artifacts, t, n)
            case Ok(None) => !HasRaising(disk, artifacts, t, n) && forall k :: !Shows(disk, artifacts, t, n, k)
            case Ok(Some(m)) =>
              && !HasRaising(disk, artifacts, t, n) && Shows(disk, artifacts, t, n, m)
              && forall k :: Shows(disk, artifacts, t, n, k) ==> k <= m
  {
    if n > 0 {
      MaxRevisionMeaning(disk, artifacts, t, n - 1);
      MaxRevisionLast(disk, artifacts, t, n);
      var before := MaxRevision(disk, artifacts, t, n - 1);
      if before.Err? {
        var i: nat :| i < n - 1 && FirstRaising(disk, artifacts, t, i, before.error);
        assert i < n;
      } else if Raises(disk, artifacts[n - 1], t) {
        assert FirstRaising(disk, artifacts, t, n - 1, MaxRevision(disk, artifacts, t, n).error);
      }
    }
  }

  /** One more row adds at most itself to what is shown. */
  lemma MaxRevisionLast(disk: Disk, artifacts: seq<Artifact>, t: string, n: nat)
    requires 0 < n <= |artifacts|
    ensures HasRaising(disk, artifacts, t, n) <==> HasRaising(disk, artifacts, t, n - 1) || Raises(disk, artifacts[n - 1], t)
    ensures forall k :: Shows(disk, artifacts, t, n, k) <==>
                          Shows(disk, artifacts, t, n - 1, k) || ShowsAt(disk, artifacts[n - 1], t, k)
  {
    assert Raises(disk, artifacts[n - 1], t) ==> HasRaising(disk, artifacts, t, n);
  }

  /**
    The next revision is one past the largest that any registered checkpoint file of the task shows,
    and 1 when none shows any. It raises exactly when reading one of those files raises, and then
    what the first of them raises.
   */
  lemma NextRevisionMeaning(disk: Disk, artifacts: seq<Artifact>, t: string)
    ensures var n := |artifacts|;
            match NextRevision(disk, artifacts, t)
            case Err(e) => RaisesFirst(disk, artifacts, t, n, e) && HasRaising(disk, artifacts, t, n)
            case Ok(next) =>
              && !HasRaising(disk, artifacts, t, n)
              && (forall k :: Shows(disk, artifacts, t, n, k) ==> k < next)
              && (Shows(disk, artifacts, t, n, next - 1) || (next == 1 && forall k :: !Shows(disk, artifacts, t, n, k)))
  {
    MaxRevisionMeaning(disk, artifacts, t, |artifacts|);
  }

  /** The registered files show revisions, and only negative ones. */
  ghost predicate OnlyNegative(disk: Disk, artifacts: seq<Artifact>, t: string) {
    && (exists k :: Shows(disk, artifacts, t, |artifacts|, k))
    && forall k :: Shows(disk, artifacts, t, |artifacts|, k) ==> k < 0
  }

  /** What the registered "checkpoint" files do to the numbering: one raises, or no valid number is left. */
  ghost predicate Blocked(disk: Disk, artifacts: seq<Artifact>, t: string) {
    HasRaising(disk, artifacts, t, |artifacts|) || OnlyNegative(disk, artifacts, t)
  }

  lemma NextIsInvalid(disk: Disk, artifacts: seq<Artifact>, t: string)
    ensures var next := NextRevision(disk, artifacts, t);
            && (next.Err? || next.value < 1 <==> Blocked(disk, artifacts, t))
            && (next.Err? <==> HasRaising(disk, artifacts, t, |artifacts|))
  {
    NextRevisionMeaning(disk, artifacts, t);
  }

  /** What a caller hands to create. `scope` is the task's directory name, `at` the clock. */
  datatype Request = Request(
    env: Envelope, attemptId: string, generation: int, worker: string, channel: Option<string>,
    stateRef: string, refs: seq<Uri>, scope: string, at: string)

  function BodyOf(q: Request, revision: nat): CheckpointBody {
    CheckpointBody("1.0", CheckpointId(revision), revision, q.env.taskId, q.attemptId, q.generation, q.env.plugin,
                   q.stateRef, "PAUSED", q.worker, q.channel, q.refs, "resume_plugin", q.at)
  }

  datatype Draft = Draft(path: string, body: CheckpointBody)

  /** Everything create decides before it touches a file. */
  function Prepare(disk: Disk, db: Db, q: Request): Result<Draft> {
    if q.stateRef == "" then Err(CheckpointFailed)
    else if q.env.taskId !in db.tasks then Err(TaskNotFound)
    else match NextRevision(disk, db.artifacts, q.env.taskId)
      case Err(e) => Err(e)
      case Ok(revision) =>
        var root := LocalPath(q.env.workspace);
        if root.None? then Err(CheckpointFailed)
        else if revision < 1 || q.generation < 1 || q.attemptId == "" || q.worker == "" || q.env.plugin == "" then
          Err(ValueError)
        else Ok(Draft(TargetPath(root.value, root.value in disk.machine, q.scope, revision), BodyOf(q, revision)))
  }

  /** temporary.replace(target). */
  function Replace(disk: Disk, draft: Draft): Disk {
    disk.(files := disk.files[draft.path := Written(draft.body)])
  }

  function RowFor(disk: Disk, draft: Draft, id: string, at: string): Artifact
    requires draft.path in disk.files
  {
    Artifact(id, draft.body.taskId, Some(draft.body.attemptId), "checkpoint", Plain(draft.path),
             Some(Sha256(disk.files[draft.path])), Some(0), at)
  }

  /** Registration with the hash of what the target now holds; any exception becomes CheckpointError. */
  function Register(disk: Disk, db: Db, draft: Draft, id: string, at: string): Result<Db> {
    if draft.path !in disk.files then Err(CheckpointFailed)
    else match RegisterArtifact(db, RowFor(disk, draft, id, at), true)
      case Ok(d) => Ok(d)
      case Err(_) => Err(CheckpointFailed)
  }

  function Create(disk: Disk, db: Db, q: Request, id: string): Result<(Disk, Db, GlobalCheckpoint)> {
    match Prepare(disk, db, q)
    case Err(e) => Err(e)
    case Ok(draft) =>
      var disk' := Replace(disk, draft);
      match Register(disk', db, draft, id, q.at)
      case Err(e) => Err(e)
      case Ok(d) => Ok((disk', d, Sealed(draft.body)))
  }

  /** The fields GlobalCheckpoint requires of the caller. */
  predicate Complete(q: Request) {
    q.stateRef != "" && q.generation >= 1 && q.attemptId != "" && q.worker != "" && q.env.plugin != ""
  }

  /**
    Exactly when create fails before it has written anything: a required field is empty, the task is
    unknown, the workspace is not local, or the registered "checkpoint" files leave no next revision.
   */
  lemma PrepareFailsExactlyWhen(disk: Disk, db: Db, q: Request)
    ensures Prepare(disk, db, q).Err? <==>
              || !Complete(q) || q.env.taskId !in db.tasks || LocalPath(q.env.workspace).None?
              || Blocked(disk, db.artifacts, q.env.taskId)
  {
    NextIsInvalid(disk, db.artifacts, q.env.taskId);
  }

  /** With nothing else wrong, create succeeds exactly when it is not blocked and the artifact id is free. */
  lemma CreateSucceedsExactlyWhen(disk: Disk, db: Db, q: Request, id: string)
    requires q.env.taskId in db.tasks && q.attemptId in db.attempts && db.attempts[q.attemptId].taskId == q.env.taskId
    ensures Create(disk, db, q, id).Ok? <==>
              && Complete(q) && LocalPath(q.env.workspace).Some? && !Blocked(disk, db.artifacts, q.env.taskId)
              && !exists i :: 0 <= i < |db.artifacts| && db.artifacts[i].id == id
  {
    PrepareFailsExactlyWhen(disk, db, q);
  }

  /**
    The exceptions create lets through instead of its own error: what the first raising file raises,
    and ValueError (a failed validation) for a revision below 1 or an empty field.
   */
  lemma CreateRaises(disk: Disk, db: Db, q: Request, id: string, e: Error)
    requires e in {AttributeError, OverflowError, RecursionError}
    ensures Create(disk, db, q, id) == Err(e) <==>
              && q.stateRef != "" && q.env.taskId in db.tasks
              && RaisesFirst(disk, db.artifacts, q.env.taskId, |db.artifacts|, e)
    ensures Create(disk, db, q, id) == Err(ValueError) <==>
              && q.stateRef != "" && q.env.taskId in db.tasks && LocalPath(q.env.workspace).Some?
              && !HasRaising(disk, db.artifacts, q.env.taskId, |db.artifacts|)
              && (OnlyNegative(disk, db.artifacts, q.env.taskId) || !Complete(q))
  {
    NextRevisionMeaning(disk, db.artifacts, q.env.taskId);
    NextIsInvalid(disk, db.artifacts, q.env.taskId);
    if q.env.taskId in db.tasks && RaisesFirst(disk, db.artifacts, q.env.taskId, |db.artifacts|, e) {
      OneFirst(disk, db.artifacts, q.env.taskId, e, NextRevision(disk, db.artifacts, q.env.taskId).error);
    }
  }

  /** Only one exception comes first. */
  lemma OneFirst(disk: Disk, artifacts: seq<Artifact>, t: string, e: Error, f: Error)
    requires RaisesFirst(disk, artifacts, t, |artifacts|, e) && RaisesFirst(disk, artifacts, t, |artifacts|, f)
    ensures e == f && HasRaising(disk, artifacts, t, |artifacts|)
  {
    var i: nat :| i < |artifacts| && FirstRaising(disk, artifacts, t, i, e);
    var j: nat :| j < |artifacts| && FirstRaising(disk, artifacts, t, j, f);
    assert Raises(disk, artifacts[i], t) && Raises(disk, artifacts[j], t);
  }

  // ---- load

  /** {item.uri: item for item in list_for_task}[uri]: the last row registered for the uri. */
  function LastByUri(artifacts: seq<Artifact>, t: string, uri: Uri): Option<Artifact> {
    if artifacts == [] then None else
      var last := artifacts[|artifacts| - 1];
      if last.taskId == t && last.uri == uri then Some(last) else LastByUri(artifacts[..|artifacts| - 1], t, uri)
  }

  predicate RefIntact(disk: Disk, artifacts: seq<Artifact>, t: string, uri: Uri) {
    var row := LastByUri(artifacts, t, uri);
    && row.Some? && IsFile(disk, uri)
    && (row.value.sha.Some? ==> row.value.sha.value == Sha256(FileAt(disk, uri)))
  }

  predicate AllIntact(disk: Disk, artifacts: seq<Artifact>, t: string, refs: seq<Uri>) {
    forall i :: 0 <= i < |refs| ==> RefIntact(disk, artifacts, t, refs[i])
  }

  function LoadFrom(disk: Disk, db: Db, t: string, path: string): Result<GlobalCheckpoint>
    requires t in db.tasks && path in disk.files
  {
    var content := disk.files[path];
    if content.doc.None? then Err(if content.revision.TooDeep? then RecursionError else CheckpointFailed)
    else
      var cp := content.doc.value;
      var b := cp.body;
      if b.taskId != t || b.plugin != db.tasks[t].env.plugin then Err(CheckpointIncompatible)
      else if b.schemaVersion != "1.0" then Err(CheckpointIncompatible)
      else if db.tasks[t].current != Some(b.attemptId) then Err(CheckpointIncompatible)
      else if b.globalStatus != "PAUSED" then Err(CheckpointIncompatible)
      else if PayloadSha256(b, content.raw) != cp.payloadSha then Err(CheckpointFailed)
      else
        var row := LastByUri(db.artifacts, t, Plain(path));
        if row.None? || row.value.sha != Some(Sha256(content)) then Err(CheckpointFailed)
        else if !AllIntact(disk, db.artifacts, t, b.artifactRefs) then Err(CheckpointFailed)
        else Ok(cp)
  }

  /** A uri is given; an empty text is none. */
  predicate Given(uri: Option<Uri>) {
    uri.Some? && uri.value != Plain("")
  }

  /** load with an explicit uri, or with the task's latest pointer. */
  function Load(disk: Disk, db: Db, t: string, uri: Option<Uri>): Result<GlobalCheckpoint>
    requires t in db.tasks
  {
    var chosen := if Given(uri) then uri else db.tasks[t].checkpoint;
    if chosen.None? || !IsFile(disk, chosen.value) then Err(CheckpointFailed)
    else LoadFrom(disk, db, t, LocalPath(chosen.value).value)
  }

  /** accessible_artifact_refs. */
  function AccessibleRefs(disk: Disk, artifacts: seq<Artifact>, t: string, n: nat): seq<Uri>
    requires n <= |artifacts|
  {
    if n == 0 then [] else
      var before := AccessibleRefs(disk, artifacts, t, n - 1);
      var item := artifacts[n - 1];
      if item.taskId == t && IsFile(disk, item.uri) then before + [item.uri] else before
  }

  predicate IsAccessible(disk: Disk, row: Artifact, t: string) {
    row.taskId == t && IsFile(disk, row.uri)
  }

  /** idx lists the accessible rows among the first n, in row order and each once. */
  ghost predicate Lists(disk: Disk, artifacts: seq<Artifact>, t: string, n: nat, idx: seq<nat>)
    requires n <= |artifacts|
  {
    && (forall k :: 0 <= k < |idx| ==> idx[k] < n && IsAccessible(disk, artifacts[idx[k]], t))
    && (forall j, k :: 0 <= j < k < |idx| ==> idx[j] < idx[k])
    && (forall i: nat :: i < n && IsAccessible(disk, artifacts[i], t) ==> i in idx)
  }

  /**
    The accessible references are the uris of exactly the task's rows whose local file exists, each
    row once and in row order.
   */
  lemma {:induction false} AccessibleRefsMeaning(disk: Disk, artifacts: seq<Artifact>, t: string, n: nat) returns (idx: seq<nat>)
    requires n <= |artifacts|
    ensures Lists(disk, artifacts, t, n, idx)
    ensures var refs := AccessibleRefs(disk, artifacts, t, n);
            && |refs| == |idx| && (forall k :: 0 <= k < |idx| ==> refs[k] == artifacts[idx[k]].uri)
            && forall u :: u in refs <==> exists i :: 0 <= i < n && IsAccessible(disk, artifacts[i], t) && artifacts[i].uri == u
  {
    idx := [];
    if n > 0 {
      idx := AccessibleRefsMeaning(disk, artifacts, t, n - 1);
      if IsAccessible(disk, artifacts[n - 1], t) {
        idx := idx + [n - 1];
      }
    }
    var refs := AccessibleRefs(disk, artifacts, t, n);
    assert |refs| == |idx| && forall k :: 0 <= k < |idx| ==> refs[k] == artifacts[idx[k]].uri;
    assert Lists(disk, artifacts, t, n, idx);
    ListedUris(disk, artifacts, t, n, idx, refs);
  }

  lemma ListedUris(disk: Disk, artifacts: seq<Artifact>, t: string, n: nat, idx: seq<nat>, refs: seq<Uri>)
    requires n <= |artifacts| && Lists(disk, artifacts, t, n, idx)
    requires |refs| == |idx| && forall k :: 0 <= k < |idx| ==> refs[k] == artifacts[idx[k]].uri
    ensures forall u :: u in refs <==> exists i :: 0 <= i < n && IsAccessible(disk, artifacts[i], t) && artifacts[i].uri == u
  {
    forall i: nat | i < n && IsAccessible(disk, artifacts[i], t) ensures artifacts[i].uri in refs {
      var k :| 0 <= k < |idx| && idx[k] == i;
      assert refs[k] == artifacts[i].uri;
    }
  }

  // ---- where checkpoint rows come from

  /** The row is one that create registered for task t. */
  ghost predicate FromCreate(db: Db, scope: string, row: Artifact, body: CheckpointBody) {
    && row.kind == "checkpoint" && row.sha == Some(Sha256(Written(body)))
    && row.taskId in db.tasks && body.taskId == row.taskId && row.attempt == Some(body.attemptId)
    && body.plugin == db.tasks[row.taskId].env.plugin
    && body.schemaVersion == "1.0" && body.globalStatus == "PAUSED" && body.stateRef != "" && body.revision >= 1
    && LocalPath(db.tasks[row.taskId].env.workspace).Some?
    && exists machine :: row.uri == Plain(TargetPath(LocalPath(db.tasks[row.taskId].env.workspace).value, machine, scope, body.revision))
  }

  ghost predicate RowGenuine(db: Db, scope: string, row: Artifact) {
    exists body :: FromCreate(db, scope, row, body)
  }

  /**
    Rows of t that name a bare local path together with a hash were registered by create. (Channel
    outputs get a hash only for file: URLs, and plugin outputs must be file: URLs.)
   */
  ghost predicate Genuine(db: Db, t: string, scope: string) {
    forall i :: 0 <= i < |db.artifacts| && LocalHashed(db.artifacts[i], t) ==> RowGenuine(db, scope, db.artifacts[i])
  }

  predicate LocalHashed(row: Artifact, t: string) {
    row.taskId == t && row.uri.Plain? && row.sha.Some?
  }

  lemma {:induction false} LastByUriMeaning(artifacts: seq<Artifact>, t: string, uri: Uri)
    ensures match LastByUri(artifacts, t, uri)
            case Some(row) => row.taskId == t && row.uri == uri && row in artifacts
            case None => forall i :: 0 <= i < |artifacts| ==> artifacts[i].taskId != t || artifacts[i].uri != uri
  {
    if artifacts != [] {
      LastByUriMeaning(artifacts[..|artifacts| - 1], t, uri);
    }
  }

  /** Row i is the last one of the task with this uri. */
  predicate LastRow(artifacts: seq<Artifact>, t: string, uri: Uri, i: nat) {
    && i < |artifacts| && artifacts[i].taskId == t && artifacts[i].uri == uri
    && forall j :: i < j < |artifacts| ==> artifacts[j].taskId != t || artifacts[j].uri != uri
  }

  lemma {:induction false} LastByUriIsLast(artifacts: seq<Artifact>, t: string, uri: Uri)
    ensures LastByUri(artifacts, t, uri).None? ==> forall i: nat :: !LastRow(artifacts, t, uri, i)
    ensures LastByUri(artifacts, t, uri).Some? ==>
              exists i: nat :: LastRow(artifacts, t, uri, i) && artifacts[i] == LastByUri(artifacts, t, uri).value
    ensures forall i: nat :: LastRow(artifacts, t, uri, i) ==> LastByUri(artifacts, t, uri) == Some(artifacts[i])
  {
    if artifacts != [] {
      var n := |artifacts| - 1;
      LastByUriIsLast(artifacts[..n], t, uri);
      if artifacts[n].taskId == t && artifacts[n].uri == uri {
        assert LastRow(artifacts, t, uri, n);
      } else {
        assert forall i: nat :: LastRow(artifacts, t, uri, i) <==> LastRow(artifacts[..n], t, uri, i);
      }
    }
  }

  /** The last row of the task for the uri carries the hash of the file, or, where that is allowed, no hash. */
  ghost predicate Registered(disk: Disk, artifacts: seq<Artifact>, t: string, uri: Uri, file: Content, hashed: bool) {
    exists i: nat ::
      && LastRow(artifacts, t, uri, i)
      && (artifacts[i].sha == Some(Sha256(file)) || (!hashed && artifacts[i].sha.None?))
  }

  lemma RefIntactMeaning(disk: Disk, artifacts: seq<Artifact>, t: string, uri: Uri)
    ensures RefIntact(disk, artifacts, t, uri) <==>
              && LocalPath(uri).Some? && LocalPath(uri).value in disk.files
              && Registered(disk, artifacts, t, uri, disk.files[LocalPath(uri).value], false)
  {
    LastByUriIsLast(artifacts, t, uri);
  }

  /** The document in the file is a resumable checkpoint of the task for its plugin and current attempt, with its own digest. */
  predicate ResumableFor(task: Task, t: string, content: Content) {
    && content.doc.Some?
    && var cp := content.doc.value;
       && cp.body.taskId == t && cp.body.plugin == task.env.plugin && cp.body.schemaVersion == "1.0"
       && task.current == Some(cp.body.attemptId) && cp.body.globalStatus == "PAUSED"
       && cp.payloadSha == PayloadSha256(cp.body, content.raw)
  }

  /**
    Exactly when load succeeds: the given uri, or without one the latest pointer, names a local file;
    its document is a checkpoint of this task, plugin, schema and current attempt, PAUSED, with its
    own digest; the last row for the file carries its hash; and each artifact it refers to is a local
    file whose last row carries its hash or none. What it returns is the document in the file.
   */
  lemma LoadsExactlyWhen(disk: Disk, db: Db, t: string, uri: Option<Uri>)
    requires t in db.tasks
    ensures var chosen := if uri.None? || uri == Some(Plain("")) then db.tasks[t].checkpoint else uri;
            Load(disk, db, t, uri).Ok? <==>
              && chosen.Some? && LocalPath(chosen.value).Some? && LocalPath(chosen.value).value in disk.files
              && var path := LocalPath(chosen.value).value;
                 && ResumableFor(db.tasks[t], t, disk.files[path])
                 && Registered(disk, db.artifacts, t, Plain(path), disk.files[path], true)
                 && forall i :: 0 <= i < |disk.files[path].doc.value.body.artifactRefs| ==>
                      var ref := disk.files[path].doc.value.body.artifactRefs[i];
                      && LocalPath(ref).Some? && LocalPath(ref).value in disk.files
                      && Registered(disk, db.artifacts, t, ref, disk.files[LocalPath(ref).value], false)
    ensures Load(disk, db, t, uri).Ok? ==>
              exists path :: path in disk.files && disk.files[path].doc == Some(Load(disk, db, t, uri).value)
  {
    var chosen := if Given(uri) then uri else db.tasks[t].checkpoint;
    if chosen.Some? && IsFile(disk, chosen.value) {
      var path := LocalPath(chosen.value).value;
      LastByUriIsLast(db.artifacts, t, Plain(path));
      assert Registered(disk, db.artifacts, t, Plain(path), disk.files[path], true) <==>
               LastByUri(db.artifacts, t, Plain(path)).Some?
               && LastByUri(db.artifacts, t, Plain(path)).value.sha == Some(Sha256(disk.files[path]));
      if disk.files[path].doc.Some? {
        RefsIntactMeaning(disk, db.artifacts, t, disk.files[path].doc.value.body.artifactRefs);
      }
      hide Registered, LastByUri, AllIntact;
    }
  }

  lemma RefsIntactMeaning(disk: Disk, artifacts: seq<Artifact>, t: string, refs: seq<Uri>)
    ensures AllIntact(disk, artifacts, t, refs) <==>
              forall i :: 0 <= i < |refs| ==>
                && LocalPath(refs[i]).Some? && LocalPath(refs[i]).value in disk.files
                && Registered(disk, artifacts, t, refs[i], disk.files[LocalPath(refs[i]).value], false)
  {
    hide Registered, RefIntact;
    forall i | 0 <= i < |refs|
      ensures RefIntact(disk, artifacts, t, refs[i]) <==>
                && LocalPath(refs[i]).Some? && LocalPath(refs[i]).value in disk.files
                && Registered(disk, artifacts, t, refs[i], disk.files[LocalPath(refs[i]).value], false)
    {
      RefIntactMeaning(disk, artifacts, t, refs[i]);
    }
  }

  /** Another task, plugin, schema, attempt or status makes it incompatible; everything else is a failed check, except nesting too deep. */
  lemma LoadErrors(disk: Disk, db: Db, t: string, uri: Option<Uri>)
    requires t in db.tasks && Load(disk, db, t, uri).Err?
    ensures var chosen := if uri.None? || uri == Some(Plain("")) then db.tasks[t].checkpoint else uri;
            var e := Load(disk, db, t, uri).error;
            if chosen.None? || !IsFile(disk, chosen.value) then e == CheckpointFailed
            else
              var content := FileAt(disk, chosen.value);
              if content.doc.None? then e == if content.revision.TooDeep? then RecursionError else CheckpointFailed
              else
                var b := content.doc.value.body;
                e == if b.taskId == t && b.plugin == db.tasks[t].env.plugin && b.schemaVersion == "1.0"
                        && db.tasks[t].current == Some(b.attemptId) && b.globalStatus == "PAUSED"
                     then CheckpointFailed else CheckpointIncompatible
  {
    hide AllIntact, LastByUri;
  }

  /**
    Integrity: whatever happened to the files, a checkpoint that load accepts is, field for field,
    one that a registered create wrote for this task and plugin, and every artifact it refers to
    still has its registered hash.
   */
  lemma LoadedWasCreated(disk: Disk, db: Db, t: string, scope: string, uri: Option<Uri>)
    requires t in db.tasks && Genuine(db, t, scope) && Load(disk, db, t, uri).Ok?
    ensures var cp := Load(disk, db, t, uri).value;
            && cp == Sealed(cp.body)
            && (exists row :: row in db.artifacts && row.taskId == t && FromCreate(db, scope, row, cp.body))
            && db.tasks[t].current == Some(cp.body.attemptId)
            && AllIntact(disk, db.artifacts, t, cp.body.artifactRefs)
  {
    var chosen := if Given(uri) then uri else db.tasks[t].checkpoint;
    var path := LocalPath(chosen.value).value;
    var content := disk.files[path];
    var row := LastByUri(db.artifacts, t, Plain(path)).value;
    LastByUriMeaning(db.artifacts, t, Plain(path));
    var i :| 0 <= i < |db.artifacts| && db.artifacts[i] == row;
    assert RowGenuine(db, scope, row);
    var body :| FromCreate(db, scope, row, body);
    assert content == Written(body);
  }

  // ---- create, then load

  lemma PrepareMeaning(disk: Disk, db: Db, q: Request)
    requires Prepare(disk, db, q).Ok?
    ensures var d := Prepare(disk, db, q).value;
            && q.env.taskId in db.tasks && q.stateRef != "" && LocalPath(q.env.workspace).Some?
            && d.body.revision >= 1 && d.body == BodyOf(q, d.body.revision)
            && NextRevision(disk, db.artifacts, q.env.taskId) == Ok(d.body.revision)
            && d.path == TargetPath(LocalPath(q.env.workspace).value, LocalPath(q.env.workspace).value in disk.machine,
                                    q.scope, d.body.revision)
  {
  }

  lemma CreateMeaning(disk: Disk, db: Db, q: Request, id: string)
    requires Create(disk, db, q, id).Ok?
    ensures Prepare(disk, db, q).Ok?
    ensures var draft := Prepare(disk, db, q).value;
            var r := Create(disk, db, q, id).value;
            && r.0 == Replace(disk, draft) && r.2 == Sealed(draft.body)
            && r.1.artifacts == db.artifacts + [RowFor(r.0, draft, id, q.at)]
            && r.1.tasks == db.tasks[q.env.taskId := db.tasks[q.env.taskId].(checkpoint := Some(Plain(draft.path)), updatedAt := q.at)]
            && r.1.attempts == db.attempts
  {
  }

  /**
    Round trip: load after create gives the same checkpoint back exactly when its attempt is the
    current one and the artifacts it refers to (found by their last registered row) are unchanged.
   */
  lemma LoadAfterCreate(disk: Disk, db: Db, q: Request, id: string)
    requires Create(disk, db, q, id).Ok? && db.tasks[q.env.taskId].env == q.env
    ensures var r := Create(disk, db, q, id).value;
            var t := q.env.taskId;
            && t in r.1.tasks
            && (Load(r.0, r.1, t, None) == Ok(r.2) <==>
                  db.tasks[t].current == Some(q.attemptId) && AllIntact(r.0, r.1.artifacts, t, q.refs))
            && (Load(r.0, r.1, t, None) == Ok(r.2) || Load(r.0, r.1, t, None).Err?)
            && NextRevision(disk, db.artifacts, t) == Ok(r.2.body.revision) && r.2.body.revision >= 1
            && r.2.body == CheckpointBody("1.0", CheckpointId(r.2.body.revision), r.2.body.revision, q.env.taskId, q.attemptId,
                                          q.generation, q.env.plugin, q.stateRef, "PAUSED", q.worker, q.channel, q.refs,
                                          "resume_plugin", q.at)
  {
    CreateMeaning(disk, db, q, id);
    PrepareMeaning(disk, db, q);
    var draft := Prepare(disk, db, q).value;
    var r := Create(disk, db, q, id).value;
    var t := q.env.taskId;
    assert r.0.files[draft.path] == Written(draft.body);
    assert LastByUri(r.1.artifacts, t, Plain(draft.path)) == Some(RowFor(r.0, draft, id, q.at));
    assert Load(r.0, r.1, t, None) == LoadFrom(r.0, r.1, t, draft.path);
  }

  // ---- crash safety

  /** Every registered checkpoint file of t can be read and still shows the revision it was registered with. */
  ghost predicate Readable(disk: Disk, db: Db, t: string) {
    forall i, body :: 0 <= i < |db.artifacts| && db.artifacts[i].taskId == t && db.artifacts[i].kind == "checkpoint"
                      && db.artifacts[i].sha == Some(Sha256(Written(body))) ==>
      IsFile(disk, db.artifacts[i].uri) && ReadRevision(FileAt(disk, db.artifacts[i].uri)) == Number(body.revision)
  }

  lemma {:induction false} MaxRevisionBound(disk: Disk, artifacts: seq<Artifact>, t: string, n: nat, i: nat)
    requires i < n <= |artifacts| && MaxRevision(disk, artifacts, t, n).Ok?
    requires artifacts[i].taskId == t && artifacts[i].kind == "checkpoint" && IsFile(disk, artifacts[i].uri)
    requires ReadRevision(FileAt(disk, artifacts[i].uri)).Number?
    ensures MaxRevision(disk, artifacts, t, n).value.Some?
    ensures ReadRevision(FileAt(disk, artifacts[i].uri)).n <= MaxRevision(disk, artifacts, t, n).value.value
  {
    if i < n - 1 {
      MaxRevisionBound(disk, artifacts, t, n - 1, i);
    }
  }

  /** Revisions strictly increase: the next one is above every registered one. */
  lemma NextRevisionIsNew(disk: Disk, db: Db, q: Request, i: nat, body: CheckpointBody)
    requires Prepare(disk, db, q).Ok? && Readable(disk, db, q.env.taskId)
    requires i < |db.artifacts| && db.artifacts[i].taskId == q.env.taskId && db.artifacts[i].kind == "checkpoint"
    requires db.artifacts[i].sha == Some(Sha256(Written(body)))
    ensures body.revision < Prepare(disk, db, q).value.body.revision
  {
    MaxRevisionBound(disk, db.artifacts, q.env.taskId, |db.artifacts|, i);
  }

  /** create never writes over a file that a registered checkpoint row of the task names. */
  lemma CreateNeverOverwrites(disk: Disk, db: Db, q: Request, i: nat)
    requires Prepare(disk, db, q).Ok? && Readable(disk, db, q.env.taskId) && Genuine(db, q.env.taskId, q.scope)
    requires i < |db.artifacts| && LocalHashed(db.artifacts[i], q.env.taskId)
    ensures db.artifacts[i].uri.path != Prepare(disk, db, q).value.path
  {
    var row := db.artifacts[i];
    assert RowGenuine(db, q.scope, row);
    var body :| FromCreate(db, q.scope, row, body);
    NextRevisionIsNew(disk, db, q, i, body);
    PrepareMeaning(disk, db, q);
    var d := Prepare(disk, db, q).value;
    var root := LocalPath(db.tasks[row.taskId].env.workspace).value;
    var machine :| row.uri == Plain(TargetPath(root, machine, q.scope, body.revision));
    if row.uri.path == d.path {
      PathDeterminesRevision(root, machine, q.scope, body.revision,
                             LocalPath(q.env.workspace).value, LocalPath(q.env.workspace).value in disk.machine, q.scope, d.body.revision);
      assert false;
    }
  }

  /** A reference whose registered hash the new checkpoint file cannot have, but whose file it replaces. */
  predicate Loses(artifacts: seq<Artifact>, t: string, ref: Uri, draft: Draft) {
    var row := LastByUri(artifacts, t, ref);
    && LocalPath(ref) == Some(draft.path)
    && row.Some? && row.value.sha.Some? && row.value.sha.value != Sha256(Written(draft.body))
  }

  predicate LosesAny(artifacts: seq<Artifact>, t: string, refs: seq<Uri>, draft: Draft) {
    exists i :: 0 <= i < |refs| && Loses(artifacts, t, refs[i], draft)
  }

  lemma IntactAfterReplace(disk: Disk, artifacts: seq<Artifact>, t: string, ref: Uri, draft: Draft)
    requires RefIntact(disk, artifacts, t, ref)
    ensures RefIntact(Replace(disk, draft), artifacts, t, ref) <==> !Loses(artifacts, t, ref, draft)
  {
  }

  lemma AllIntactAfterReplace(disk: Disk, artifacts: seq<Artifact>, t: string, refs: seq<Uri>, draft: Draft)
    requires AllIntact(disk, artifacts, t, refs)
    ensures AllIntact(Replace(disk, draft), artifacts, t, refs) <==> !LosesAny(artifacts, t, refs, draft)
  {
    forall i | 0 <= i < |refs| ensures RefIntact(Replace(disk, draft), artifacts, t, refs[i]) <==> !Loses(artifacts, t, refs[i], draft) {
      assert RefIntact(disk, artifacts, t, refs[i]);
      IntactAfterReplace(disk, artifacts, t, refs[i], draft);
    }
  }

  /** The file that the latest pointer leads to is not the one the next create writes. */
  lemma LatestIsElsewhere(disk: Disk, db: Db, q: Request)
    requires Prepare(disk, db, q).Ok? && Readable(disk, db, q.env.taskId) && Genuine(db, q.env.taskId, q.scope)
    requires Load(disk, db, q.env.taskId, None).Ok?
    ensures LocalPath(db.tasks[q.env.taskId].checkpoint.value) != Some(Prepare(disk, db, q).value.path)
  {
    var t := q.env.taskId;
    var path := LocalPath(db.tasks[t].checkpoint.value).value;
    LastByUriMeaning(db.artifacts, t, Plain(path));
    var row := LastByUri(db.artifacts, t, Plain(path)).value;
    var i :| 0 <= i < |db.artifacts| && db.artifacts[i] == row;
    CreateNeverOverwrites(disk, db, q, i);
  }

  /**
    A crash between the file replace and the registration. The pointer still leads to the previous
    checkpoint, and load gives the same answer as before create began exactly when that checkpoint
    refers to no artifact with another recorded hash under the name of the new file; otherwise load
    fails.
   */
  lemma CrashBeforeRegistration(disk: Disk, db: Db, q: Request)
    requires Prepare(disk, db, q).Ok? && Readable(disk, db, q.env.taskId) && Genuine(db, q.env.taskId, q.scope)
    requires Load(disk, db, q.env.taskId, None).Ok?
    ensures var draft, t := Prepare(disk, db, q).value, q.env.taskId;
            var before, after := Load(disk, db, t, None), Load(Replace(disk, draft), db, t, None);
            && (after == before <==> !LosesAny(db.artifacts, t, before.value.body.artifactRefs, draft))
            && (after == before || after == Err(CheckpointFailed))
  {
    var t := q.env.taskId;
    var draft := Prepare(disk, db, q).value;
    LatestIsElsewhere(disk, db, q);
    var path := LocalPath(db.tasks[t].checkpoint.value).value;
    AllIntactAfterReplace(disk, db.artifacts, t, disk.files[path].doc.value.body.artifactRefs, draft);
  }

  /** Checkpoint directories of tasks with different scopes never share a file. */
  lemma TasksAreIsolated(disk: Disk, db: Db, q: Request, disk2: Disk, db2: Db, q2: Request)
    requires Prepare(disk, db, q).Ok? && Prepare(disk2, db2, q2).Ok?
    requires |q.scope| == |q2.scope| && q.scope != q2.scope
    ensures Prepare(disk, db, q).value.path != Prepare(disk2, db2, q2).value.path
  {
    PrepareMeaning(disk, db, q);
    PrepareMeaning(disk2, db2, q2);
    var d, d2 := Prepare(disk, db, q).value, Prepare(disk2, db2, q2).value;
    if d.path == d2.path {
      PathDeterminesRevision(LocalPath(q.env.workspace).value, LocalPath(q.env.workspace).value in disk.machine, q.scope, d.body.revision,
                             LocalPath(q2.env.workspace).value, LocalPath(q2.env.workspace).value in disk2.machine, q2.scope, d2.body.revision);
    }
  }

  /** Registering a created checkpoint keeps every hashed local row genuine. */
  lemma CreateKeepsGenuine(disk: Disk, db: Db, q: Request, id: string)
    requires Genuine(db, q.env.taskId, q.scope) && Create(disk, db, q, id).Ok?
    requires db.tasks[q.env.taskId].env == q.env
    ensures Genuine(Create(disk, db, q, id).value.1, q.env.taskId, q.scope)
  {
    CreateMeaning(disk, db, q, id);
    PrepareMeaning(disk, db, q);
    var r := Create(disk, db, q, id).value;
    var draft := Prepare(disk, db, q).value;
    RegisterKeepsGenuine(r.0, db, draft, id, q.at, q, r.1);
  }

  lemma RegisterKeepsGenuine(disk: Disk, db: Db, draft: Draft, id: string, at: string, q: Request, d: Db)
    requires Genuine(db, q.env.taskId, q.scope) && Register(disk, db, draft, id, at) == Ok(d)
    requires q.env.taskId in db.tasks && db.tasks[q.env.taskId].env == q.env && LocalPath(q.env.workspace).Some?
    requires draft.path in disk.files && disk.files[draft.path] == Written(draft.body)
    requires draft.body.revision >= 1 && draft.body == BodyOf(q, draft.body.revision) && q.stateRef != ""
    requires exists machine :: draft.path == TargetPath(LocalPath(q.env.workspace).value, machine, q.scope, draft.body.revision)
    ensures Genuine(d, q.env.taskId, q.scope)
  {
    var t := q.env.taskId;
    var row := RowFor(disk, draft, id, at);
    assert d.artifacts == db.artifacts + [row];
    assert d.tasks[t].env == q.env;
    forall i | 0 <= i < |d.artifacts| && LocalHashed(d.artifacts[i], t)
      ensures RowGenuine(d, q.scope, d.artifacts[i])
    {
      if i < |db.artifacts| {
        assert RowGenuine(db, q.scope, db.artifacts[i]);
        var body :| FromCreate(db, q.scope, db.artifacts[i], body);
        assert FromCreate(d, q.scope, d.artifacts[i], body);
      } else {
        assert FromCreate(d, q.scope, row, draft.body);
      }
    }
  }
}

/** The service object over the shared database and the local disk. */
module CheckpointService {
  import opened Prelude
  import opened Records
  import opened CheckpointPolicy
  import CheckpointNames
  import Store

  class Service {
    const store: Store.Database
    var files: map<string, Content>
    var machine: set<string>

    ghost function OnDisk(): Disk
      reads this
    {
      Disk(files, machine)
    }

    constructor (store: Store.Database)
      ensures this.store == store && OnDisk() == Disk(map[], {})
    {
      this.store := store;
      files, machine := map[], {};
    }

    /** _next_revision: one pass over the registered checkpoint files. */
    method NextRevision(t: string) returns (r: Result<int>)
      ensures r == CheckpointPolicy.NextRevision(OnDisk(), store.artifacts, t)
      ensures r.Err? <==> HasRaising(OnDisk(), store.artifacts, t, |store.artifacts|)
    {
      NextRevisionMeaning(OnDisk(), store.artifacts, t);
      var best: Option<int> := None;
      var i := 0;
      while i < |store.artifacts|
        invariant 0 <= i <= |store.artifacts|
        invariant MaxRevision(OnDisk(), store.artifacts, t, i) == Ok(best)
      {
        var item := store.artifacts[i];
        if item.taskId == t && item.kind == "checkpoint" && IsFile(Disk(files, machine), item.uri) {
          match ReadRevision(FileAt(Disk(files, machine), item.uri))
          case Unreadable =>
          case NotAnObject =>
            FailsFrom(OnDisk(), store.artifacts, t, i + 1, |store.artifacts|);
            return Err(AttributeError);
          case Infinite =>
            FailsFrom(OnDisk(), store.artifacts, t, i + 1, |store.artifacts|);
            return Err(OverflowError);
          case TooDeep =>
            FailsFrom(OnDisk(), store.artifacts, t, i + 1, |store.artifacts|);
            return Err(RecursionError);
          case Number(k) =>
            best := Some(if best.Some? then Max(best.value, k) else k);
        }
        i := i + 1;
      }
      return Ok(if best.Some? then best.value + 1 else 1);
    }

    /** create: write the numbered file, then register it with the hash of what was written. */
    method Create(q: Request, id: string) returns (r: Result<GlobalCheckpoint>)
      modifies this, store
      ensures match CheckpointPolicy.Prepare(old(OnDisk()), old(store.Contents()), q)
              case Err(e) => r == Err(e) && OnDisk() == old(OnDisk()) && store.Contents() == old(store.Contents())
              case Ok(draft) =>
                && OnDisk() == Replace(old(OnDisk()), draft)
                && match CheckpointPolicy.Create(old(OnDisk()), old(store.Contents()), q, id)
                   case Err(e) => r == Err(e) && store.Contents() == old(store.Contents())
                   case Ok(done) => r == Ok(done.2) && store.Contents() == done.1
    {
      if q.stateRef == "" {
        return Err(CheckpointFailed);
      }
      if q.env.taskId !in store.tasks {
        return Err(TaskNotFound);
      }
      var next := NextRevision(q.env.taskId);
      if next.Err? {
        return Err(next.error);
      }
      var root := LocalPath(q.env.workspace);
      if root.None? {
        return Err(CheckpointFailed);
      }
      if next.value < 1 || q.generation < 1 || q.attemptId == "" || q.worker == "" || q.env.plugin == "" {
        return Err(ValueError);
      }
      var body := BodyOf(q, next.value);
      var path := CheckpointNames.TargetPath(root.value, root.value in machine, q.scope, next.value);
      files := files[path := Written(body)];
      var raised := store.RegisterArtifact(
        Artifact(id, q.env.taskId, Some(q.attemptId), "checkpoint", Plain(path), Some(Sha256(files[path])), Some(0), q.at), true);
      if raised.Some? {
        return Err(CheckpointFailed);
      }
      return Ok(Sealed(body));
    }

    /** load: identity, integrity and reference checks in the order of the source. */
    method Load(t: string, uri: Option<Uri>) returns (r: Result<GlobalCheckpoint>)
      requires t in store.tasks
      ensures r == CheckpointPolicy.Load(OnDisk(), store.Contents(), t, uri)
    {
      var task := store.tasks[t];
      var chosen := if Given(uri) then uri else task.checkpoint;
      if chosen.None? {
        return Err(CheckpointFailed);
      }
      var path := LocalPath(chosen.value);
      if path.None? || path.value !in files {
        return Err(CheckpointFailed);
      }
      var content := files[path.value];
      if content.doc.None? {
        return Err(if content.revision.TooDeep? then RecursionError else CheckpointFailed);
      }
      var cp := content.doc.value;
      if cp.body.taskId != t || cp.body.plugin != task.env.plugin || cp.body.schemaVersion != "1.0"
         || task.current != Some(cp.body.attemptId) || cp.body.globalStatus != "PAUSED" {
        return Err(CheckpointIncompatible);
      }
      if PayloadSha256(cp.body, content.raw) != cp.payloadSha {
        return Err(CheckpointFailed);
      }
      var row := LastByUri(store.artifacts, t, Plain(path.value));
      if row.None? || row.value.sha != Some(Sha256(content)) {
        return Err(CheckpointFailed);
      }
      var i := 0;
      while i < |cp.body.artifactRefs|
        invariant 0 <= i <= |cp.body.artifactRefs|
        invariant forall j :: 0 <= j < i ==> RefIntact(OnDisk(), store.artifacts, t, cp.body.artifactRefs[j])
      {
        var ref := cp.body.artifactRefs[i];
        var artifact := LastByUri(store.artifacts, t, ref);
        var refPath := LocalPath(ref);
        if artifact.None? || refPath.None? || refPath.value !in files {
          return Err(CheckpointFailed);
        }
        if artifact.value.sha.Some? && Sha256(files[refPath.value]) != artifact.value.sha.value {
          return Err(CheckpointFailed);
        }
        i := i + 1;
      }
      return Ok(cp);
    }
  }

  lemma {:induction false} FailsFrom(disk: Disk, artifacts: seq<Artifact>, t: string, m: nat, n: nat)
    requires m <= n <= |artifacts| && MaxRevision(disk, artifacts, t, m).Err?
    ensures MaxRevision(disk, artifacts, t, n) == MaxRevision(disk, artifacts, t, m)
    decreases n
  {
    if m < n {
      FailsFrom(disk, artifacts, t, m, n - 1);
    }
  }
}
