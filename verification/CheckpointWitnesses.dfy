/**
  Three databases, each made by plain repository calls, on which a checkpoint is refused, is
  unusable as soon as it is written, or is lost to a crash.
 */
module CheckpointWitnesses {
  import opened Prelude
  import opened Records
  import opened CheckpointNames
  import opened CheckpointPolicy
  import opened Repositories

  const OLD: Content := Text(None, Unreadable, 0, 0)
  const NEW: Content := Text(None, Unreadable, 0, 1)

  /** Something a plugin or a channel left behind: a file: URL with the hash it had then. */
  function Row(env: Envelope, kind: string, path: string, sha: Hash): Artifact {
    Artifact("o", env.taskId, Some("a"), kind, FileUrl(path), Some(sha), None, "")
  }

  /** A task, its attempt "a" and one artifact. */
  function Calls(env: Envelope, row: Artifact): seq<Txn> {
    [TxCreateTask(env, ""), TxCreateAttempt(env.taskId, "a", "w", Some("ch"), "", None), TxRegisterArtifact(row, false)]
  }

  function Asked(env: Envelope, refs: seq<Uri>): Request {
    Request(env, "a", 1, "w", Some("ch"), "h", refs, "s", "")
  }

  predicate Usable(env: Envelope) {
    LocalPath(env.workspace).Some? && env.plugin != ""
  }

  lemma Made(env: Envelope, row: Artifact) returns (db: Db)
    requires row.taskId == env.taskId && row.attempt == Some("a")
    ensures db == Exec(EMPTY, Calls(env, row))
    ensures env.taskId in db.tasks && db.tasks[env.taskId].env == env && db.tasks[env.taskId].current == Some("a")
    ensures "a" in db.attempts && db.attempts["a"].taskId == env.taskId && db.artifacts == [row]
  {
    var xs := Calls(env, row);
    var one := After(EMPTY, xs[0]);
    var two := After(one, xs[1]);
    db := After(two, xs[2]);
    assert xs[..3] == xs && xs[..2] == [xs[0], xs[1]] && xs[..2][..1] == [xs[0]] && xs[..1][..0] == [];
    assert Exec(EMPTY, xs[..1]) == one;
    assert Exec(EMPTY, xs[..2]) == two;
  }

  lemma FirstRevision(disk: Disk, row: Artifact, t: string)
    requires row.kind != "checkpoint"
    ensures NextRevision(disk, [row], t) == Ok(1)
  {
    assert MaxRevision(disk, [row], t, 0) == Ok(None);
  }

  /** The revision of a registered "checkpoint" file that leaves its task without a next one. */
  predicate Blocks(f: RevisionField) {
    Uncaught(f).Some? || (f.Number? && f.n < 0)
  }

  function Blame(f: RevisionField): Error {
    if Uncaught(f).Some? then Uncaught(f).value else ValueError
  }

  lemma OneFile(f: RevisionField, disk: Disk, row: Artifact, t: string)
    requires IsCheckpointFile(disk, row, t) && ReadRevision(FileAt(disk, row.uri)) == f
    ensures var next := NextRevision(disk, [row], t);
            match f
            case Unreadable => next == Ok(1)
            case Number(k) => next == Ok(k + 1)
            case _ => next == Err(Uncaught(f).value)
  {
    assert MaxRevision(disk, [row], t, 0) == Ok(None);
  }

  /**
    A plugin result may register an artifact of kind "checkpoint" over any JSON file of its own. If
    that is a list, an object with an infinite or a negative revision, or nested too deeply, create
    raises an exception that is not a checkpoint error; with any other file it works.
   */
  lemma PluginFileDecidesCreate(env: Envelope, f: RevisionField) returns (db: Db, disk: Disk)
    requires Usable(env)
    ensures var file := Text(None, f, 0, 0);
            && db == Exec(EMPTY, Calls(env, Row(env, "checkpoint", "out", Sha256(file)))) && disk == Disk(map["out" := file], {})
    ensures var made := Create(disk, db, Asked(env, [FileUrl("out")]), "k");
            if Blocks(f) then made == Err(Blame(f)) else made.Ok?
  {
    var row := Row(env, "checkpoint", "out", Sha256(Text(None, f, 0, 0)));
    db := Made(env, row);
    disk := Disk(map["out" := Text(None, f, 0, 0)], {});
    OneFile(f, disk, row, env.taskId);
  }

  /**
    The references of a checkpoint are collected without looking at their hashes. When a registered
    output file changed afterwards, the checkpoint that create writes and registers does not load.
   */
  lemma FreshCheckpointDoesNotLoad(env: Envelope) returns (db: Db, disk: Disk)
    requires Usable(env)
    ensures db == Exec(EMPTY, Calls(env, Row(env, "channel-output", "out", Sha256(OLD))))
    ensures var refs := AccessibleRefs(disk, db.artifacts, env.taskId, |db.artifacts|);
            var made := Create(disk, db, Asked(env, refs), "k");
            && refs == [FileUrl("out")] && made.Ok? && env.taskId in made.value.1.tasks
            && Load(made.value.0, made.value.1, env.taskId, None).Err?
  {
    var row := Row(env, "channel-output", "out", Sha256(OLD));
    db := Made(env, row);
    disk := Disk(map["out" := NEW], {});
    assert AccessibleRefs(disk, db.artifacts, env.taskId, 0) == [];
    FirstRevision(disk, row, env.taskId);
    var q := Asked(env, [FileUrl("out")]);
    Creates(env, db, disk, q, row);
    LoadAfterCreate(disk, db, q, "k");
    var r := Create(disk, db, q, "k").value;
    TargetHasSlash(env, 1);
    LastOfTwo(r.1.artifacts, env.taskId, row);
    assert !RefIntact(r.0, r.1.artifacts, env.taskId, q.refs[0]);
  }

  lemma Creates(env: Envelope, db: Db, disk: Disk, q: Request, row: Artifact)
    requires Usable(env) && q == Asked(env, q.refs) && row.id == "o" && disk.machine == {}
    requires env.taskId in db.tasks && db.tasks[env.taskId].env == env && db.artifacts == [row]
    requires "a" in db.attempts && db.attempts["a"].taskId == env.taskId
    requires NextRevision(disk, db.artifacts, env.taskId) == Ok(1)
    ensures Create(disk, db, q, "k").Ok?
    ensures Prepare(disk, db, q) == Ok(Draft(Target(env, 1), BodyOf(q, 1)))
  {
  }

  function Target(env: Envelope, revision: nat): string
    requires Usable(env)
  {
    TargetPath(LocalPath(env.workspace).value, false, "s", revision)
  }

  lemma TargetHasSlash(env: Envelope, revision: nat)
    requires Usable(env)
    ensures Target(env, revision) != "out"
  {
    var d := Directory(LocalPath(env.workspace).value, false, "s");
    assert Target(env, revision)[|d|] == '/';
    assert forall i :: 0 <= i < |"out"| ==> "out"[i] != '/';
  }

  lemma LastOfTwo(artifacts: seq<Artifact>, t: string, row: Artifact)
    requires |artifacts| == 2 && artifacts[0] == row && row.taskId == t && artifacts[1].uri != row.uri
    ensures LastByUri(artifacts, t, row.uri) == Some(row)
  {
    assert artifacts[..1] == [row];
    assert LastByUri([row], t, row.uri) == Some(row);
  }

  /** The new checkpoint of this task would replace the file behind a reference of its latest one. */
  lemma OrphanIsReplaced(env: Envelope, db: Db, disk: Disk, q: Request, r: (Disk, Db, GlobalCheckpoint), row: Artifact)
    requires Usable(env) && row == Row(env, "channel-output", Target(env, 2), Sha256(OLD))
    requires db == Exec(EMPTY, Calls(env, row)) && disk == Disk(map[Target(env, 2) := OLD], {})
    requires env.taskId in db.tasks && db.tasks[env.taskId].env == env && db.artifacts == [row]
    requires db.tasks[env.taskId].current == Some("a")
    requires q == Asked(env, [FileUrl(Target(env, 2))]) && Create(disk, db, q, "k") == Ok(r)
    requires Prepare(disk, db, q) == Ok(Draft(Target(env, 1), BodyOf(q, 1))) && Target(env, 1) != Target(env, 2)
    ensures env.taskId in r.1.tasks && Load(r.0, r.1, env.taskId, None) == Ok(r.2)
    ensures Prepare(r.0, r.1, q) == Ok(Draft(Target(env, 2), BodyOf(q, 2)))
    ensures LosesAny(r.1.artifacts, env.taskId, r.2.body.artifactRefs, Draft(Target(env, 2), BodyOf(q, 2)))
  {
    CreateMeaning(disk, db, q, "k");
    LoadAfterCreate(disk, db, q, "k");
    LastOfTwo(r.1.artifacts, env.taskId, row);
    assert RefIntact(r.0, r.1.artifacts, env.taskId, q.refs[0]);
    hide Load, Create, Register, RefIntact, AllIntact;
    OrphanIsNext(env, r.0, r.1.artifacts, row);
    assert Loses(r.1.artifacts, env.taskId, r.2.body.artifactRefs[0], Draft(Target(env, 2), BodyOf(q, 2)));
  }

  lemma OrphanIsNext(env: Envelope, disk: Disk, n: seq<Artifact>, row: Artifact)
    requires |n| == 2 && n[0] == row && row.kind == "channel-output"
    requires n[1].taskId == env.taskId && n[1].kind == "checkpoint" && IsFile(disk, n[1].uri)
    requires ReadRevision(FileAt(disk, n[1].uri)) == Number(1)
    ensures NextRevision(disk, n, env.taskId) == Ok(2)
  {
    assert MaxRevision(disk, n, env.taskId, 1) == Ok(None) by {
      assert MaxRevision(disk, n, env.taskId, 0) == Ok(None);
    }
    assert MaxRevision(disk, n, env.taskId, 2) == Ok(Some(1));
  }

  /**
    A file that an earlier crash left under the next checkpoint name, registered since then as an
    output and referred to by the latest checkpoint: a crash between the replace and the registration
    of the next one makes the latest checkpoint unloadable.
   */
  lemma CrashLosesCheckpoint(env: Envelope) returns (db: Db, disk: Disk, q: Request)
    requires Usable(env)
    ensures env.taskId in db.tasks && Load(disk, db, env.taskId, None).Ok? && Prepare(disk, db, q).Ok?
    ensures q.env == env && Readable(disk, db, env.taskId) && Genuine(db, env.taskId, q.scope)
    ensures Load(Replace(disk, Prepare(disk, db, q).value), db, env.taskId, None) == Err(CheckpointFailed)
  {
    var row := Row(env, "channel-output", Target(env, 2), Sha256(OLD));
    var db0 := Made(env, row);
    var disk0 := Disk(map[Target(env, 2) := OLD], {});
    q := Asked(env, [FileUrl(Target(env, 2))]);
    FirstRevision(disk0, row, env.taskId);
    Creates(env, db0, disk0, q, row);
    if Target(env, 1) == Target(env, 2) {
      PathDeterminesRevision(LocalPath(env.workspace).value, false, "s", 1, LocalPath(env.workspace).value, false, "s", 2);
    }
    var r := Create(disk0, db0, q, "k").value;
    disk, db := r.0, r.1;
    OrphanIsReplaced(env, db0, disk0, q, r, row);
    assert Genuine(db0, env.taskId, "s");
    CreateKeepsGenuine(disk0, db0, q, "k");
    CreateMeaning(disk0, db0, q, "k");
    assert Readable(disk, db, env.taskId);
    CrashBeforeRegistration(disk, db, q);
  }
}
