/** Schedules that reach every listed pair of statuses, and a stop that comes too early to be heard. */
module ProtocolWitnesses {
  import opened Prelude
  import opened Records
  import opened StateMachine
  import opened CheckpointPolicy
  import opened ChannelPolicy
  import opened Effects
  import opened Protocol
  import opened ProtocolStates
  import opened ProtocolTheorems
  import CheckpointWitnesses
  import ProtocolCommands
  import ProtocolInvariant
  import ProtocolOutcomes
  import Repositories
  import CheckpointNames

  const START: World := World(Durable(EMPTY, Disk(map[], {})), Memory(map[], None, NoPause, 0))

  const FILE: Content := Text(None, Unreadable, 0, 0)
  const OUTPUT: Uri := FileUrl("out")

  /** The task can be checkpointed. */
  predicate Usable(c: Config) {
    LocalPath(c.env.workspace).Some? && c.env.plugin != ""
  }

  function Ch(c: Config): Channel {
    Channel("ch", "p", SUBSCRIPTION, "flat", {c.env.capability}, true, 0, AVAILABLE, Hints(None, None, None, None, None))
  }

  function Found(c: Config): Input {
    Probed(map["ch" := Ch(c)], "ch", "w", "a", true)
  }

  function Moved(r: nat, input: Input): Choice {
    Do(Go(r, input, ""))
  }

  function Lost(r: nat, input: Input, k: nat): Choice {
    Crash(Go(r, input, ""), k)
  }

  lemma More(c: Config, cs: seq<Choice>, choice: Choice)
    ensures After(c, START, cs + [choice]) == Next(c, After(c, START, cs), choice)
  {
    assert (cs + [choice])[..|cs|] == cs;
  }

  /** The task with its attempt "a" on channel "ch". */
  predicate Stands(c: Config, s: Durable, task: Status, attempt: Status) {
    var t := c.env.taskId;
    && t in s.db.tasks && s.db.tasks[t].env == c.env && s.db.tasks[t].current == Some("a") && s.db.tasks[t].status == task
    && s.db.attempts.Keys == {"a"}
    && var row := s.db.attempts["a"];
       row.taskId == t && row.generation == 1 && row.worker == "w" && row.channel == Some("ch") && row.status == attempt
  }

  /** What the files, the registered rows and the pointer are. */
  predicate Holds(c: Config, s: Durable, files: map<string, Content>, rows: seq<Artifact>, pointer: Option<Uri>) {
    && s.disk == Disk(files, {}) && s.db.artifacts == rows && s.db.metrics == map[]
    && c.env.taskId in s.db.tasks && s.db.tasks[c.env.taskId].checkpoint == pointer
  }

  predicate Same(c: Config, s: Durable, d: Durable) {
    && d.disk == s.disk && d.db.artifacts == s.db.artifacts && d.db.metrics == s.db.metrics
    && Pointer(c, d.db) == Pointer(c, s.db)
  }

  // ---- effects in this setting

  lemma EmitOk(c: Config, tr: Trail, e: Effect, d: Durable)
    requires !tr.failed && Apply(c.env.taskId, tr.last, e, "") == Ok(d)
    ensures Emit(c, tr, e, "") == Trail(tr.before + [tr.last], d, false)
  {
  }

  lemma DoMoveTask(c: Config, s: Durable, x: Status, y: Status, target: Status) returns (d: Durable)
    requires Stands(c, s, x, y) && Allowed(x, target)
    ensures Apply(c.env.taskId, s, MoveTask(target, "a", 1), "") == Ok(d) && Stands(c, d, target, y) && Same(c, s, d)
  {
    d := Apply(c.env.taskId, s, MoveTask(target, "a", 1), "").value;
  }

  lemma DoMoveAttempt(c: Config, s: Durable, x: Status, y: Status, target: Status) returns (d: Durable)
    requires Stands(c, s, x, y) && Allowed(y, target)
    ensures Apply(c.env.taskId, s, MoveAttempt("a", 1, target), "") == Ok(d) && Stands(c, d, x, target) && Same(c, s, d)
  {
    d := Apply(c.env.taskId, s, MoveAttempt("a", 1, target), "").value;
  }

  lemma DoPromote(c: Config, s: Durable, x: Status, y: Status, target: Status) returns (d: Durable)
    requires Stands(c, s, x, y) && (x == target || Allowed(x, target))
    ensures Apply(c.env.taskId, s, Promote(target), "") == Ok(d) && Stands(c, d, target, y) && Same(c, s, d)
  {
    d := Apply(c.env.taskId, s, Promote(target), "").value;
  }

  lemma DoWrite(c: Config, s: Durable, x: Status, y: Status, note: Note) returns (d: Durable)
    requires Stands(c, s, x, y)
    ensures Apply(c.env.taskId, s, Write(note, "a"), "") == Ok(d) && Stands(c, d, x, y) && Same(c, s, d)
  {
    d := Apply(c.env.taskId, s, Write(note, "a"), "").value;
  }

  // ---- segments in this setting

  lemma FinishFrom(c: Config, tr: Trail, run: Run, x: Status, y: Status, target: Status) returns (d: Durable, e: Durable)
    requires !tr.failed && Stands(c, tr.last, x, y) && Allowed(x, target) && Allowed(y, target)
    requires run.attempt == "a" && run.generation == 1
    ensures Finish(c, tr, run, target, "") == Trail(tr.before + [tr.last, d], e, false)
    ensures Stands(c, d, x, target) && Stands(c, e, target, target)
  {
    d := DoMoveAttempt(c, tr.last, x, y, target);
    EmitOk(c, tr, MoveAttempt("a", 1, target), d);
    e := DoMoveTask(c, d, x, target, target);
    EmitOk(c, Trail(tr.before + [tr.last], d, false), MoveTask(target, "a", 1), e);
  }

  lemma AbortFrom(c: Config, s: Durable, run: Run, x: Status, y: Status) returns (n: Durable, d: Durable, e: Durable)
    requires Stands(c, s, x, y) && x != PAUSED && Allowed(x, FAILED) && Allowed(y, FAILED)
    requires run.attempt == "a" && run.generation == 1
    ensures Abort(c, Begin(s), run, "") == Trail([s, n, d], e, false)
    ensures Stands(c, d, x, FAILED) && Stands(c, e, FAILED, FAILED)
  {
    n := DoWrite(c, s, x, y, PluginFailed);
    EmitOk(c, Begin(s), Write(PluginFailed, "a"), n);
    d, e := FinishFrom(c, Trail([s], n, false), run, x, y, FAILED);
    assert [s] + [n, d] == [s, n, d];
  }

  lemma PromoteFrom(c: Config, s: Durable, x: Status, y: Status) returns (q: Durable, p: Durable, r: Durable)
    requires Stands(c, s, x, y) && x in {CREATED, QUEUED}
    ensures Emit(c, Emit(c, Emit(c, Begin(s), Promote(QUEUED), ""), Promote(ASSIGNED), ""), Promote(RUNNING), "")
            == Trail([s, q, p], r, false)
    ensures Stands(c, q, QUEUED, y) && Stands(c, p, ASSIGNED, y) && Stands(c, r, RUNNING, y) && Same(c, s, r)
  {
    q := DoPromote(c, s, x, y, QUEUED);
    EmitOk(c, Begin(s), Promote(QUEUED), q);
    p := DoPromote(c, q, QUEUED, y, ASSIGNED);
    EmitOk(c, Trail([s], q, false), Promote(ASSIGNED), p);
    assert [s] + [q] == [s, q];
    r := DoPromote(c, p, ASSIGNED, y, RUNNING);
    EmitOk(c, Trail([s, q], p, false), Promote(RUNNING), r);
    assert [s, q] + [p] == [s, q, p];
  }

  lemma LaunchFrom(c: Config, s: Durable, run: Run, x: Status, y: Status)
    returns (q: Durable, p: Durable, r: Durable)
    requires Stands(c, s, x, y) && x in {CREATED, QUEUED} && y in {ASSIGNED, PAUSED, FAILED}
    requires run.attempt == "a" && run.generation == 1
    ensures var tr := Launch(c, s, run, "");
            && |tr.before| >= 3 && tr.before[..3] == [s, q, p] && StateAt(tr, 3) == r
            && Stands(c, q, QUEUED, y) && Stands(c, p, ASSIGNED, y) && Stands(c, r, RUNNING, y) && Same(c, s, r)
            && (y != FAILED ==> !tr.failed && Stands(c, tr.last, RUNNING, RUNNING) && Same(c, s, tr.last))
  {
    q, p, r := PromoteFrom(c, s, x, y);
    StartFrom(c, Trail([s, q, p], r, false), run, y);
    LaunchIsStart(c, s, run, Trail([s, q, p], r, false));
  }

  lemma LaunchIsStart(c: Config, s: Durable, run: Run, tr: Trail)
    requires Emit(c, Emit(c, Emit(c, Begin(s), Promote(QUEUED), ""), Promote(ASSIGNED), ""), Promote(RUNNING), "") == tr
    ensures Launch(c, s, run, "")
            == Emit(c, Emit(c, tr, MoveAttempt(run.attempt, run.generation, RUNNING), ""), Write(PluginStarted(c.env.plugin), run.attempt), "")
  {
  }

  lemma StartFrom(c: Config, tr: Trail, run: Run, y: Status)
    requires !tr.failed && Stands(c, tr.last, RUNNING, y) && y in {ASSIGNED, PAUSED, FAILED}
    requires run.attempt == "a" && run.generation == 1
    ensures var moved := Emit(c, tr, MoveAttempt(run.attempt, run.generation, RUNNING), "");
            var d := Emit(c, moved, Write(PluginStarted(c.env.plugin), run.attempt), "");
            && |d.before| >= |tr.before| && d.before[..|tr.before|] == tr.before && StateAt(d, |tr.before|) == tr.last
            && (y != FAILED ==> !d.failed && Stands(c, d.last, RUNNING, RUNNING) && Same(c, tr.last, d.last))
  {
    if y != FAILED {
      var m := DoMoveAttempt(c, tr.last, RUNNING, y, RUNNING);
      EmitOk(c, tr, MoveAttempt("a", 1, RUNNING), m);
      var n := DoWrite(c, m, RUNNING, RUNNING, PluginStarted(c.env.plugin));
      EmitOk(c, Trail(tr.before + [tr.last], m, false), Write(PluginStarted(c.env.plugin), "a"), n);
    }
  }

  // ---- schedules

  /** One run, owning the task, with nothing else in memory. */
  predicate Alone(w: World, r: nat, run: Run, pause: Pause) {
    w.m == Memory(map[r := run], Some(r), pause, r + 1) && run.attempt == "a" && run.generation == 1
  }

  lemma Claimed(c: Config) returns (cs: seq<Choice>, run: Run)
    ensures var w := After(c, START, cs);
            && Alone(w, 0, run, NoPause) && run == Run(Fresh, Health, "a", 1, map["ch" := Ch(c)], false, false, None, None)
            && Stands(c, w.s, CREATED, ASSIGNED) && Holds(c, w.s, map[], [], None)
    ensures |cs| == 2
    ensures var v := After(c, START, [cs[0], Lost(0, Found(c), 1)]); T(c, v.s.db) == Some(CREATED) && A(c, v.s.db) == None
  {
    hide Claim, Stands;
    var first := Do(RunCommand);
    cs := [] + [first];
    More(c, [], first);
    var w := After(c, START, cs);
    assert w == World(START.s, Memory(map[0 := NewRun(Fresh, "")], None, NoPause, 1));
    More(c, cs, Lost(0, Found(c), 1));
    assert cs + [Lost(0, Found(c), 1)] == [cs[0], Lost(0, Found(c), 1)];
    More(c, cs, Moved(0, Found(c)));
    ClaimFrom(c);
    cs := cs + [Moved(0, Found(c))];
    run := Run(Fresh, Health, "a", 1, map["ch" := Ch(c)], false, false, None, None);
  }

  lemma ClaimFrom(c: Config)
    ensures var tr := Claim(c, START.s, "a", "w", "ch", "");
            && !tr.failed && |tr.before| == 2
            && T(c, tr.before[1].db) == Some(CREATED) && A(c, tr.before[1].db) == None
            && Stands(c, tr.last, CREATED, ASSIGNED) && Holds(c, tr.last, map[], [], None)
  {
    var created := Emit(c, Begin(START.s), Create(c.env), "");
    assert created.before == [START.s] && !created.failed;
    assert Repositories.AttemptNumbers(created.last.db.attempts, c.env.taskId) == {};
    assert Repositories.Generations(created.last.db.attempts, c.env.taskId) == {};
  }

  /** d goes on from tr. */
  predicate Grows(tr: Trail, d: Trail) {
    |tr.before| <= |d.before| && d.before[..|tr.before|] == tr.before && StateAt(d, |tr.before|) == tr.last
  }

  lemma EmitGrows(c: Config, from: Trail, tr: Trail, e: Effect)
    requires Grows(from, tr)
    ensures Grows(from, Emit(c, tr, e, ""))
  {
  }

  lemma AbortGrows(c: Config, tr: Trail, run: Run)
    ensures Grows(tr, Abort(c, tr, run, ""))
  {
    var handler := tr.(failed := false);
    var noted := Emit(c, handler, Write(PluginFailed, run.attempt), "");
    var one := MoveAttempt(run.attempt, run.generation, FAILED);
    EmitGrows(c, tr, handler, Write(PluginFailed, run.attempt));
    EmitGrows(c, tr, noted, one);
    EmitGrows(c, tr, Emit(c, noted, one, ""), MoveTask(FAILED, run.attempt, run.generation));
  }

  lemma LaunchOutcome(c: Config, w: World, r: nat, run: Run)
    requires Alone(w, r, run, NoPause) && run.pc.Health?
    ensures var tr := Launch(c, w.s, run, "");
            var o := Perform(c, w, Go(r, Proceeds, ""));
            && Grows(tr, o.trail)
            && (!tr.failed ==> o == Outcome(tr, Update(w.m, r, run.(pc := Spawning))))
  {
    hide Launch, Abort;
    var tr := Launch(c, w.s, run, "");
    AbortGrows(c, tr, run);
    assert Perform(c, w, Go(r, Proceeds, "")) == GoHealth(c, w, r, run, Proceeds, "");
    HealthOutcome(c, w, r, run, tr);
  }

  lemma HealthOutcome(c: Config, w: World, r: nat, run: Run, tr: Trail)
    requires tr == Launch(c, w.s, run, "")
    ensures GoHealth(c, w, r, run, Proceeds, "") == if tr.failed then Outcome(Abort(c, tr, run, ""), End(w.m, r))
                                                    else Outcome(tr, Update(w.m, r, run.(pc := Spawning)))
  {
  }

  /** A crash after k effects of the launch leaves the k-th state of its trail. */
  lemma LaunchCrash(c: Config, w: World, r: nat, run: Run, x: Status, y: Status, k: nat)
    requires Alone(w, r, run, NoPause) && Stands(c, w.s, x, y) && run.pc.Health?
    requires x in {CREATED, QUEUED} && y in {ASSIGNED, PAUSED, FAILED} && 1 <= k <= 3
    ensures Stands(c, Next(c, w, Lost(r, Proceeds, k)).s, if k == 1 then QUEUED else if k == 2 then ASSIGNED else RUNNING, y)
    ensures k == 3 ==> Same(c, w.s, Next(c, w, Lost(r, Proceeds, k)).s)
  {
    hide Launch, Perform, Stands, Same;
    var q, p, d := LaunchFrom(c, w.s, run, x, y);
    LaunchOutcome(c, w, r, run);
    var tr := Launch(c, w.s, run, "");
    var o := Perform(c, w, Go(r, Proceeds, ""));
    assert tr.before[..3] == o.trail.before[..3];
    if k < 3 {
      assert StateAt(o.trail, k) == tr.before[..3][k];
    } else if |tr.before| > 3 {
      assert o.trail.before[..|tr.before|][3] == tr.before[3];
    }
  }

  /** The run is in the active table and its process is being started. */
  predicate Starting(m: Memory, r: nat) {
    m.active == Some(r) && r in m.runs && m.runs[r].pc.Spawning?
  }

  lemma LaunchSteps(c: Config, cs: seq<Choice>, r: nat, run: Run) returns (ds: seq<Choice>)
    requires var w := After(c, START, cs);
             Alone(w, r, run, NoPause) && run.pc.Health? && !Launch(c, w.s, run, "").failed
    ensures var w := After(c, START, cs);
            var v := After(c, START, ds);
            && cs <= ds && Alone(v, r, run.(pc := Polling), NoPause) && v.s == Launch(c, w.s, run, "").last
            && |ds| == |cs| + 2 && Starting(After(c, START, ds[..|cs| + 1]).m, r)
  {
    hide Launch;
    var w := After(c, START, cs);
    LaunchOutcome(c, w, r, run);
    More(c, cs, Moved(r, Proceeds));
    ds := cs + [Moved(r, Proceeds)];
    var u := After(c, START, ds);
    assert u.m.runs == map[r := run.(pc := Spawning)];
    ghost var first := ds;
    More(c, ds, Moved(r, Proceeds));
    ds := ds + [Moved(r, Proceeds)];
    assert ds[..|cs| + 1] == first;
    assert After(c, START, ds).m.runs == map[r := run.(pc := Polling)];
  }

  lemma LaunchDone(c: Config, cs: seq<Choice>, r: nat, run: Run, x: Status, y: Status) returns (ds: seq<Choice>)
    requires var w := After(c, START, cs); Alone(w, r, run, NoPause) && Stands(c, w.s, x, y)
    requires run.pc.Health? && x in {CREATED, QUEUED} && y in {ASSIGNED, PAUSED}
    ensures var v := After(c, START, ds);
            && cs <= ds && Alone(v, r, run.(pc := Polling), NoPause) && Stands(c, v.s, RUNNING, RUNNING) && Same(c, After(c, START, cs).s, v.s)
            && |ds| == |cs| + 2 && Starting(After(c, START, ds[..|cs| + 1]).m, r)
  {
    hide Launch, Stands;
    var w := After(c, START, cs);
    var q, p, d := LaunchFrom(c, w.s, run, x, y);
    ds := LaunchSteps(c, cs, r, run);
  }

  // ---- aborting

  /** A run that raises with nothing paused is failed: first the attempt, then the task. */
  lemma Aborted(c: Config, w: World, r: nat, run: Run, x: Status, y: Status)
    requires Alone(w, r, run, NoPause) && Stands(c, w.s, x, y) && (run.pc.Health? || run.pc.Winding?)
    requires x != PAUSED && Allowed(x, FAILED) && Allowed(y, FAILED)
    ensures Stands(c, Next(c, w, Lost(r, Raises, 2)).s, x, FAILED)
    ensures Stands(c, Next(c, w, Moved(r, Raises)).s, FAILED, FAILED)
  {
    hide Abort, Stands;
    var n, d, e := AbortFrom(c, w.s, run, x, y);
    assert Perform(c, w, Go(r, Raises, "")) == Fail(c, w, r, run, Begin(w.s), "");
  }

  lemma Wound(c: Config, cs: seq<Choice>, r: nat, run: Run) returns (ds: seq<Choice>)
    requires var w := After(c, START, cs); Alone(w, r, run, NoPause) && run.pc.Polling?
    ensures var w := After(c, START, cs);
            var v := After(c, START, ds);
            Alone(v, r, run.(pc := Winding), NoPause) && v.s == w.s
  {
    ds := cs + [Moved(r, Raises)];
    More(c, cs, Moved(r, Raises));
    assert After(c, START, ds).m.runs == map[r := run.(pc := Winding)];
  }

  // ---- pausing

  function FirstDraft(c: Config): Draft
    requires Usable(c)
  {
    var q := CheckpointPolicy.Request(c.env, "a", 1, "w", Some("ch"), "h", [], c.scope, "");
    Draft(CheckpointNames.TargetPath(LocalPath(c.env.workspace).value, false, c.scope, 1), BodyOf(q, 1))
  }

  /** The first checkpoint of a task without artifacts. */
  lemma PreparesFirst(c: Config, s: Durable)
    requires Usable(c) && Stands(c, s, RUNNING, RUNNING) && s.disk == Disk(map[], {}) && s.db.artifacts == []
    ensures Prepare(s.disk, s.db, CheckpointRequest(c, s, "a", "h", "")) == Ok(FirstDraft(c))
  {
    assert MaxRevision(s.disk, s.db.artifacts, c.env.taskId, 0) == Ok(None);
  }

  lemma SealFrom(c: Config, s: Durable) returns (d: Durable)
    requires Usable(c) && Stands(c, s, RUNNING, RUNNING) && s.db.artifacts == []
    requires s.disk == Disk(map[FirstDraft(c).path := Written(FirstDraft(c).body)], {})
    ensures Apply(c.env.taskId, s, Seal(FirstDraft(c), "k"), "") == Ok(d) && Stands(c, d, RUNNING, RUNNING)
    ensures d.disk == s.disk && Pointer(c, d.db) == Some(Plain(FirstDraft(c).path))
    ensures d.db.artifacts == [RowFor(s.disk, FirstDraft(c), "k", "")]
  {
    d := Apply(c.env.taskId, s, Seal(FirstDraft(c), "k"), "").value;
  }

  lemma LoadsFirst(c: Config, s: Durable, x: Status, y: Status)
    requires Usable(c) && Stands(c, s, x, y) && Pointer(c, s.db) == Some(Plain(FirstDraft(c).path))
    requires s.disk == Disk(map[FirstDraft(c).path := Written(FirstDraft(c).body)], {})
    requires s.db.artifacts == [RowFor(s.disk, FirstDraft(c), "k", "")]
    ensures Load(s.disk, s.db, c.env.taskId, None) == Ok(Sealed(FirstDraft(c).body))
  {
    var row := RowFor(s.disk, FirstDraft(c), "k", "");
    assert LastByUri(s.db.artifacts, c.env.taskId, Plain(FirstDraft(c).path)) == Some(row);
  }

  predicate Saved(c: Config, s: Durable)
    requires Usable(c)
  {
    && Pointer(c, s.db) == Some(Plain(FirstDraft(c).path))
    && s.disk == Disk(map[FirstDraft(c).path := Written(FirstDraft(c).body)], {})
    && s.db.artifacts == [RowFor(s.disk, FirstDraft(c), "k", "")]
  }

  lemma PersistFrom(c: Config, s: Durable) returns (s1: Durable, s2: Durable, s3: Durable, s4: Durable)
    requires Usable(c) && Stands(c, s, RUNNING, RUNNING) && s.disk == Disk(map[], {}) && s.db.artifacts == []
    ensures Persist(c, s, "a", "h", "k", "") == Trail([s, s1, s2, s3], s4, false)
    ensures Stands(c, s3, RUNNING, PAUSED) && Stands(c, s4, PAUSED, PAUSED) && Saved(c, s4)
  {
    PreparesFirst(c, s);
    var draft := FirstDraft(c);
    s1 := s.(disk := Replace(s.disk, draft));
    EmitOk(c, Begin(s), Save(draft), s1);
    s2 := SealFrom(c, s1);
    EmitOk(c, Trail([s], s1, false), Seal(draft, "k"), s2);
    assert [s] + [s1] == [s, s1];
    s3 := DoMoveAttempt(c, s2, RUNNING, RUNNING, PAUSED);
    EmitOk(c, Trail([s, s1], s2, false), MoveAttempt("a", 1, PAUSED), s3);
    assert [s, s1] + [s2] == [s, s1, s2];
    s4 := DoMoveTask(c, s3, RUNNING, PAUSED, PAUSED);
    EmitOk(c, Trail([s, s1, s2], s3, false), MoveTask(PAUSED, "a", 1), s4);
    assert [s, s1, s2] + [s3] == [s, s1, s2, s3];
  }

  const SAVE: Action := PauseSaved("k", "")

  /** A pause of a polling run up to the point where everything is ready to be saved. */
  lemma PauseAsked(c: Config, cs: seq<Choice>, r: nat, run: Run) returns (ds: seq<Choice>)
    requires var w := After(c, START, cs);
             Alone(w, r, run, NoPause) && run.pc.Polling? && Stands(c, w.s, RUNNING, RUNNING)
    ensures var w, v := After(c, START, cs), After(c, START, ds);
            v.s == w.s && Alone(v, r, run.(exited := true), Answered(r, "a", "h"))
  {
    var w := After(c, START, cs);
    More(c, cs, Do(PauseCommand));
    ds := cs + [Do(PauseCommand)];
    assert After(c, START, ds) == World(w.s, w.m.(pause := Asked(r, "a")));
    More(c, ds, Do(PauseAnswered("h")));
    ds := ds + [Do(PauseAnswered("h"))];
    assert After(c, START, ds) == World(w.s, w.m.(pause := Answered(r, "a", "h")));
    More(c, ds, Do(ProcessExits));
    ds := ds + [Do(ProcessExits)];
    assert After(c, START, ds).m.runs == map[r := run.(exited := true)];
  }

  /** A pause of a polling run up to complete_pause, and the crash between its two status changes. */
  lemma Paused(c: Config, cs: seq<Choice>, r: nat, run: Run) returns (ds: seq<Choice>, es: seq<Choice>)
    requires Usable(c)
    requires var w := After(c, START, cs);
             && Alone(w, r, run, NoPause) && run.pc.Polling? && run.outcome.None?
             && Stands(c, w.s, RUNNING, RUNNING) && w.s.disk == Disk(map[], {}) && w.s.db.artifacts == []
    ensures var v := After(c, START, ds);
            && Alone(v, r, run.(exited := true, outcome := Some(true)), NoPause)
            && Stands(c, v.s, PAUSED, PAUSED) && Saved(c, v.s)
    ensures Stands(c, After(c, START, es).s, RUNNING, PAUSED)
  {
    hide Persist, Saved;
    var w := After(c, START, cs);
    var s1, s2, s3, s4 := PersistFrom(c, w.s);
    ds := PauseAsked(c, cs, r, run);
    var u := After(c, START, ds);
    SaveOutcome(c, u, r, run.(exited := true), Trail([w.s, s1, s2, s3], s4, false));
    More(c, ds, Crash(SAVE, 3));
    es := ds + [Crash(SAVE, 3)];
    More(c, ds, Do(SAVE));
    ds := ds + [Do(SAVE)];
    assert After(c, START, ds).m.runs == map[r := run.(exited := true, outcome := Some(true))];
  }

  lemma SaveOutcome(c: Config, w: World, r: nat, run: Run, tr: Trail)
    requires Alone(w, r, run, Answered(r, "a", "h")) && run.exited && Live(run.pc) && run.outcome.None?
    requires tr == Persist(c, w.s, "a", "h", "k", "") && !tr.failed
    ensures Perform(c, w, SAVE) == Outcome(tr, Update(w.m.(pause := NoPause), r, run.(outcome := Some(true))))
  {
    hide Persist;
  }

  // ---- resuming

  lemma SavedStays(c: Config, s: Durable, d: Durable)
    requires Usable(c) && Saved(c, s) && Same(c, s, d)
    ensures Saved(c, d)
  {
  }

  lemma Requeued(c: Config, cs: seq<Choice>, y: Status) returns (ds: seq<Choice>, d: Durable)
    requires Usable(c) && y in {PAUSED, FAILED}
    requires var w := After(c, START, cs);
             Stands(c, w.s, PAUSED, y) && Saved(c, w.s) && w.m == Forget(w.m)
    ensures var r := After(c, START, cs).m.next;
            After(c, START, ds) == World(d, Memory(map[r := NewRun(Kind.Resumed("h"), "a")], None, NoPause, r + 1))
    ensures Stands(c, d, QUEUED, y) && Saved(c, d)
  {
    var w := After(c, START, cs);
    LoadsFirst(c, w.s, PAUSED, y);
    hide Load, Saved;
    d := DoMoveTask(c, w.s, PAUSED, y, QUEUED);
    EmitOk(c, Begin(w.s), MoveTask(QUEUED, "a", 1), d);
    SavedStays(c, w.s, d);
    ResumeOutcomeIs(c, w, Sealed(FirstDraft(c).body), d);
    More(c, cs, Do(ResumeCommand("")));
    ds := cs + [Do(ResumeCommand(""))];
  }

  /** A paused task whose checkpoint is intact gets a new run at its healthcheck. */
  lemma Resumed(c: Config, cs: seq<Choice>, y: Status) returns (ds: seq<Choice>, r: nat, run: Run)
    requires Usable(c) && y in {PAUSED, FAILED}
    requires var w := After(c, START, cs);
             Stands(c, w.s, PAUSED, y) && Saved(c, w.s) && w.m == Forget(w.m)
    ensures var v := After(c, START, ds);
            && Alone(v, r, run, NoPause) && run == Again(c) && Stands(c, v.s, QUEUED, y) && Saved(c, v.s)
  {
    hide Next;
    var d: Durable;
    r := After(c, START, cs).m.next;
    ds, d := Requeued(c, cs, y);
    run := Again(c);
    More(c, ds, Moved(r, Found(c)));
    ProbedAgain(c, World(d, Memory(map[r := NewRun(Kind.Resumed("h"), "a")], None, NoPause, r + 1)), r, y);
    ds := ds + [Moved(r, Found(c))];
  }

  function Again(c: Config): Run {
    NewRun(Kind.Resumed("h"), "a").(pc := Health, generation := 1, channels := map["ch" := Ch(c)])
  }

  lemma ProbedAgain(c: Config, w: World, r: nat, y: Status)
    requires w.m == Memory(map[r := NewRun(Kind.Resumed("h"), "a")], None, NoPause, r + 1) && Stands(c, w.s, QUEUED, y)
    ensures Next(c, w, Moved(r, Found(c))) == World(w.s, Memory(map[r := Again(c)], Some(r), NoPause, r + 1))
  {
    assert Update(w.m, r, Again(c)).runs == map[r := Again(c)];
    assert Perform(c, w, Go(r, Found(c), "")) == GoProbing(c, w, r, w.m.runs[r], Found(c), "");
  }

  lemma ResumeOutcomeIs(c: Config, w: World, cp: GlobalCheckpoint, d: Durable)
    requires T(c, w.s.db) == Some(PAUSED) && w.m.active.None? && Load(w.s.disk, w.s.db, c.env.taskId, None) == Ok(cp)
    requires cp.body.attemptId == "a" && cp.body.generation == 1
    requires Emit(c, Begin(w.s), MoveTask(QUEUED, "a", 1), "") == Trail([w.s], d, false) && Current(c, d.db) == Some("a")
    ensures DoResume(c, w, "") == Outcome(Trail([w.s], d, false), Spawn(w.m, NewRun(Kind.Resumed(cp.body.stateRef), "a")))
  {
    hide Load;
  }

  // ---- calling the channel

  function Request(c: Config): ChannelRequest {
    ChannelRequest(c.env.taskId, c.env.capability, c.env.workspace)
  }

  function Reply(success: bool): ChannelResponse {
    ChannelResponse(success, if success then Some(OUTPUT) else None, None, None, 0.0)
  }

  const IDS: Ids := Ids("i", "m")

  lemma Permitted(c: Config, s: Durable)
    requires Stands(c, s, RUNNING, RUNNING)
    ensures Permit(s.db, c.env.taskId, "a", 1, Request(c), map["ch" := Ch(c)]) == Ok(Ch(c))
  {
  }

  lemma MeasuredFrom(c: Config, tr: Trail, response: ChannelResponse)
    requires !tr.failed && Stands(c, tr.last, RUNNING, RUNNING) && tr.last.db.metrics == map[]
    ensures var d := Measured(c.env.taskId, tr, c.env, "a", Ch(c), response, "m", "");
            !d.failed && Stands(c, d.last, RUNNING, RUNNING)
  {
    var charged := Emit(c, tr, Charge(CostRow(c.env.taskId, "a", Ch(c), response, "")), "");
    assert !charged.failed && Stands(c, charged.last, RUNNING, RUNNING) && charged.last.db.metrics == map[];
  }

  lemma ReceiveFrom(c: Config, s: Durable, success: bool)
    requires Stands(c, s, RUNNING, RUNNING) && s.db.artifacts == [] && s.db.metrics == map[]
    ensures !Receive(c.env.taskId, s, c.env, "a", 1, Ch(c), Reply(success), IDS, "").failed
  {
    var t := c.env.taskId;
    var registered := Begin(s);
    if success {
      registered := Emit(c, Begin(s), Register(OutputRow(s.disk, t, "a", OUTPUT, "i", "")), "");
      assert !registered.failed && Stands(c, registered.last, RUNNING, RUNNING) && registered.last.db.metrics == map[];
    }
    MeasuredFrom(c, registered, Reply(success));
    var measured := Measured(t, registered, c.env, "a", Ch(c), Reply(success), "m", "");
    var n := DoWrite(c, measured.last, RUNNING, RUNNING, Finished(Ch(c), Reply(success), IDS));
  }

  lemma Called(c: Config, cs: seq<Choice>, r: nat, run: Run, success: bool) returns (ds: seq<Choice>)
    requires var w := After(c, START, cs);
             && Alone(w, r, run, NoPause) && run.pc.Polling? && !run.exited && !run.cancelled && run.response.None?
             && run.channels == map["ch" := Ch(c)]
             && Stands(c, w.s, RUNNING, RUNNING) && w.s.db.artifacts == [] && w.s.db.metrics == map[]
    ensures var w := After(c, START, cs);
            var v := After(c, START, ds);
            && cs <= ds && Alone(v, r, run.(response := Some(Reply(success))), NoPause)
            && Stands(c, v.s, RUNNING, RUNNING) && v.s.disk == w.s.disk
            && v.s.db.artifacts == (if success then [OutputRow(w.s.disk, c.env.taskId, "a", OUTPUT, "i", "")] else [])
  {
    hide Receive;
    var w := After(c, START, cs);
    Permitted(c, w.s);
    More(c, cs, Moved(r, Asks(Request(c))));
    ds := cs + [Moved(r, Asks(Request(c)))];
    assert After(c, START, ds).m.runs == map[r := run.(pc := Calling(Request(c)))];
    ReceiveFrom(c, w.s, success);
    AcceptedResponse(c.env.taskId, w.s, c.env, "a", 1, Ch(c), Reply(success), IDS, "");
    More(c, ds, Moved(r, Responds(Reply(success), IDS)));
    ds := ds + [Moved(r, Responds(Reply(success), IDS))];
    assert After(c, START, ds).m.runs == map[r := run.(response := Some(Reply(success)))];
  }

  // ---- returning a result

  function Result(c: Config, status: Status, outputs: seq<Output>): PluginResult {
    PluginResult(c.env.taskId, status, outputs, Usage(0, 0, 1, 0), None, {})
  }

  lemma Exited(c: Config, cs: seq<Choice>, r: nat, run: Run, result: PluginResult) returns (ds: seq<Choice>)
    requires var w := After(c, START, cs); Alone(w, r, run, NoPause) && run.pc.Polling? && Admissible(c, run.response, result)
    ensures var w := After(c, START, cs);
            var v := After(c, START, ds);
            cs <= ds && Alone(v, r, run.(exited := true, pc := Returning(result)), NoPause) && v.s == w.s
  {
    hide Admissible;
    More(c, cs, Do(ProcessExits));
    ds := cs + [Do(ProcessExits)];
    assert After(c, START, ds).m.runs == map[r := run.(exited := true)];
    More(c, ds, Moved(r, Exits(Final(result))));
    ds := ds + [Moved(r, Exits(Final(result)))];
    assert After(c, START, ds).m.runs == map[r := run.(exited := true, pc := Returning(result))];
  }

  lemma FailedTrail(c: Config, s: Durable, run: Run) returns (n: Durable, d: Durable, e: Durable)
    requires run.attempt == "a" && run.generation == 1 && !run.cancelled && Stands(c, s, PAUSED, PAUSED)
    ensures Settle(c, s, run, Result(c, FAILED, []), "z", "") == Trail([s, n, d], e, false)
    ensures Stands(c, d, PAUSED, FAILED) && Same(c, s, d)
  {
    var note := ResultAccepted(c.env.plugin, FAILED, 0);
    n := DoWrite(c, s, PAUSED, PAUSED, note);
    EmitOk(c, Begin(s), Write(note, "a"), n);
    d := DoMoveAttempt(c, n, PAUSED, PAUSED, FAILED);
    EmitOk(c, Trail([s], n, false), MoveAttempt("a", 1, FAILED), d);
    e := DoMoveTask(c, d, PAUSED, FAILED, FAILED);
    EmitOk(c, Trail([s, n], d, false), MoveTask(FAILED, "a", 1), e);
    assert [s] + [n] == [s, n];
    assert [s, n] + [d] == [s, n, d];
    SettleIsShort(c, s, run, Trail([s], n, false));
  }

  lemma SettleIsShort(c: Config, s: Durable, run: Run, tr: Trail)
    requires run.attempt == "a" && run.generation == 1 && !run.cancelled && Stands(c, s, PAUSED, PAUSED)
    requires Emit(c, Begin(s), Write(ResultAccepted(c.env.plugin, FAILED, 0), "a"), "") == tr
    ensures Settle(c, s, run, Result(c, FAILED, []), "z", "") == Finish(c, tr, run, FAILED, "")
  {
    hide Finish;
  }

  /** A FAILED result without output, accepted in a paused task: its third state has lost the attempt. */
  lemma FailedResultFrom(c: Config, w: World, r: nat, run: Run)
    requires Alone(w, r, run, NoPause) && run.pc == Returning(Result(c, FAILED, [])) && !run.cancelled
    requires Stands(c, w.s, PAUSED, PAUSED)
    ensures var v := Next(c, w, Lost(r, Concludes("z"), 2));
            Stands(c, v.s, PAUSED, FAILED) && Same(c, w.s, v.s) && v.m == Forget(v.m)
  {
    hide Settle, Stands;
    var n, d, e := FailedTrail(c, w.s, run);
    ConcludeOutcome(c, w, r, run, Result(c, FAILED, []), Trail([w.s, n, d], e, false));
  }

  lemma ConcludeOutcome(c: Config, w: World, r: nat, run: Run, result: PluginResult, tr: Trail)
    requires Alone(w, r, run, NoPause) && run.pc == Returning(result)
    requires tr == Settle(c, w.s, run, result, "z", "") && !tr.failed
    ensures Perform(c, w, Go(r, Concludes("z"), "")) == Outcome(tr, End(w.m, r))
  {
    hide Settle;
  }

  const REPORT: Output := Output("report", OUTPUT, Sha256(FILE))

  lemma DoAccept(c: Config, s: Durable) returns (d: Durable)
    requires Stands(c, s, RUNNING, RUNNING) && s.disk == Disk(map["out" := FILE], {})
    requires s.db.artifacts == [OutputRow(s.disk, c.env.taskId, "a", OUTPUT, "i", "")]
    ensures Apply(c.env.taskId, s, Accept(REPORT, "z", "a"), "") == Ok(d) && Stands(c, d, RUNNING, RUNNING)
  {
    assert HashMatches(s.disk, REPORT);
    d := Apply(c.env.taskId, s, Accept(REPORT, "z", "a"), "").value;
  }

  lemma CompletedTrail(c: Config, s: Durable, run: Run) returns (p: Durable, n: Durable, d: Durable, e: Durable)
    requires run.attempt == "a" && run.generation == 1
    requires !run.cancelled && Stands(c, s, RUNNING, RUNNING) && s.disk == Disk(map["out" := FILE], {})
    requires s.db.artifacts == [OutputRow(s.disk, c.env.taskId, "a", OUTPUT, "i", "")]
    ensures Settle(c, s, run, Result(c, COMPLETED, [REPORT]), "z", "") == Trail([s, p, n, d], e, false)
    ensures Stands(c, d, RUNNING, COMPLETED) && Stands(c, e, COMPLETED, COMPLETED)
  {
    p := DoAccept(c, s);
    EmitOk(c, Begin(s), Accept(REPORT, "z", "a"), p);
    var note := ResultAccepted(c.env.plugin, COMPLETED, 1);
    n := DoWrite(c, p, RUNNING, RUNNING, note);
    EmitOk(c, Trail([s], p, false), Write(note, "a"), n);
    assert [s] + [p] == [s, p];
    d, e := FinishFrom(c, Trail([s, p], n, false), run, RUNNING, RUNNING, COMPLETED);
    assert [s, p] + [n, d] == [s, p, n, d];
    SettleIs(c, s, run, Trail([s, p], n, false));
  }

  lemma SettleIs(c: Config, s: Durable, run: Run, tr: Trail)
    requires run.attempt == "a" && run.generation == 1 && !run.cancelled && Stands(c, s, RUNNING, RUNNING)
    requires Emit(c, Emit(c, Begin(s), Accept(REPORT, "z", "a"), ""), Write(ResultAccepted(c.env.plugin, COMPLETED, 1), "a"), "") == tr
    ensures Settle(c, s, run, Result(c, COMPLETED, [REPORT]), "z", "") == Finish(c, tr, run, COMPLETED, "")
  {
    hide Finish;
  }

  /** A COMPLETED result with the channel's output, cut short before the task moves, or carried through. */
  lemma CompletedResultFrom(c: Config, w: World, r: nat, run: Run)
    requires Alone(w, r, run, NoPause) && run.pc == Returning(Result(c, COMPLETED, [REPORT]))
    requires !run.cancelled && Stands(c, w.s, RUNNING, RUNNING)
    requires w.s.disk == Disk(map["out" := FILE], {})
    requires w.s.db.artifacts == [OutputRow(w.s.disk, c.env.taskId, "a", OUTPUT, "i", "")]
    ensures Stands(c, Next(c, w, Lost(r, Concludes("z"), 3)).s, RUNNING, COMPLETED)
    ensures Stands(c, Next(c, w, Moved(r, Concludes("z"))).s, COMPLETED, COMPLETED)
  {
    hide Settle, Stands;
    var p, n, d, e := CompletedTrail(c, w.s, run);
    ConcludeOutcome(c, w, r, run, Result(c, COMPLETED, [REPORT]), Trail([w.s, p, n, d], e, false));
  }

  // ---- every pair

  predicate Reaches(c: Config, cs: seq<Choice>, task: Option<Status>, attempt: Option<Status>) {
    T(c, After(c, START, cs).s.db) == task && A(c, After(c, START, cs).s.db) == attempt
  }

  lemma StandsThere(c: Config, cs: seq<Choice>, task: Status, attempt: Status)
    requires Stands(c, After(c, START, cs).s, task, attempt)
    ensures Reaches(c, cs, Some(task), Some(attempt))
  {
  }

  lemma ReachesEarly(c: Config) returns (open: seq<Choice>, failed: seq<Choice>, half: seq<Choice>, claimed: seq<Choice>)
    ensures Reaches(c, open, Some(CREATED), None)
    ensures Reaches(c, claimed, Some(CREATED), Some(ASSIGNED))
    ensures Reaches(c, half, Some(CREATED), Some(FAILED))
    ensures Reaches(c, failed, Some(FAILED), Some(FAILED))
  {
    var run: Run;
    claimed, run := Claimed(c);
    open := [claimed[0], Lost(0, Found(c), 1)];
    Aborted(c, After(c, START, claimed), 0, run, CREATED, ASSIGNED);
    More(c, claimed, Lost(0, Raises, 2));
    half := claimed + [Lost(0, Raises, 2)];
    More(c, claimed, Moved(0, Raises));
    failed := claimed + [Moved(0, Raises)];
  }

  lemma ReachesLaunch(c: Config, cs: seq<Choice>, r: nat, run: Run, x: Status, y: Status, k: nat) returns (ds: seq<Choice>)
    requires var w := After(c, START, cs); Alone(w, r, run, NoPause) && Stands(c, w.s, x, y)
    requires run.pc.Health? && x in {CREATED, QUEUED} && y in {ASSIGNED, PAUSED, FAILED} && 1 <= k <= 3
    ensures Reaches(c, ds, Some(if k == 1 then QUEUED else if k == 2 then ASSIGNED else RUNNING), Some(y))
  {
    LaunchCrash(c, After(c, START, cs), r, run, x, y, k);
    More(c, cs, Lost(r, Proceeds, k));
    ds := cs + [Lost(r, Proceeds, k)];
  }

  /** A run polling its process, and what an abort of it leaves. */
  lemma ReachesRunning(c: Config) returns (cs: seq<Choice>, run: Run, broken: seq<Choice>)
    ensures var w := After(c, START, cs);
            && Alone(w, 0, run, NoPause)
            && run == Run(Fresh, Polling, "a", 1, map["ch" := Ch(c)], false, false, None, None)
            && Stands(c, w.s, RUNNING, RUNNING) && Holds(c, w.s, map[], [], None)
    ensures Reaches(c, broken, Some(RUNNING), Some(FAILED))
  {
    var claimed, first := Claimed(c);
    cs := LaunchDone(c, claimed, 0, first, CREATED, ASSIGNED);
    run := first.(pc := Polling);
    broken := Wound(c, cs, 0, run);
    Aborted(c, After(c, START, broken), 0, run.(pc := Winding), RUNNING, RUNNING);
    More(c, broken, Lost(0, Raises, 2));
    broken := broken + [Lost(0, Raises, 2)];
  }

  /** After a crash the paused state is all there is. */
  lemma Crashed(c: Config, cs: seq<Choice>) returns (ds: seq<Choice>)
    ensures var w := After(c, START, cs);
            var v := After(c, START, ds);
            v.s == w.s && v.m == Forget(w.m)
  {
    More(c, cs, Crash(StopCommand, 0));
    ds := cs + [Crash(StopCommand, 0)];
  }

  lemma ReachesPaused(c: Config) returns (paused: seq<Choice>, torn: seq<Choice>, queued: seq<Choice>, placed: seq<Choice>)
    requires Usable(c)
    ensures Reaches(c, paused, Some(PAUSED), Some(PAUSED))
    ensures Reaches(c, torn, Some(RUNNING), Some(PAUSED))
    ensures Reaches(c, queued, Some(QUEUED), Some(PAUSED))
    ensures Reaches(c, placed, Some(ASSIGNED), Some(PAUSED))
  {
    hide Stands, Saved, Reaches;
    var cs, run, broken := ReachesRunning(c);
    paused, torn := Paused(c, cs, 0, run);
    StandsThere(c, paused, PAUSED, PAUSED);
    StandsThere(c, torn, RUNNING, PAUSED);
    var gone := Crashed(c, paused);
    var ds, r, again := Resumed(c, gone, PAUSED);
    queued := ds;
    StandsThere(c, queued, QUEUED, PAUSED);
    placed := ReachesLaunch(c, ds, r, again, QUEUED, PAUSED, 2);
  }

  lemma ReachesFailedAfterPause(c: Config) returns (lost: seq<Choice>, queued: seq<Choice>, placed: seq<Choice>)
    requires Usable(c)
    ensures Reaches(c, lost, Some(PAUSED), Some(FAILED))
    ensures Reaches(c, queued, Some(QUEUED), Some(FAILED))
    ensures Reaches(c, placed, Some(ASSIGNED), Some(FAILED))
  {
    hide Stands, Reaches;
    var cs, run, broken := ReachesRunning(c);
    var called := Called(c, cs, 0, run, false);
    var answered := run.(response := Some(Reply(false)));
    var paused, torn := Paused(c, called, 0, answered);
    var late := answered.(exited := true, outcome := Some(true));
    var result := Result(c, FAILED, []);
    var returning := Exited(c, paused, 0, late, result);
    FailedResultFrom(c, After(c, START, returning), 0, late.(pc := Returning(result)));
    More(c, returning, Lost(0, Concludes("z"), 2));
    lost := returning + [Lost(0, Concludes("z"), 2)];
    StandsThere(c, lost, PAUSED, FAILED);
    var ds, r, again := Resumed(c, lost, FAILED);
    queued := ds;
    StandsThere(c, queued, QUEUED, FAILED);
    placed := ReachesLaunch(c, ds, r, again, QUEUED, FAILED, 2);
  }

  lemma StandsOnAnyDisk(c: Config, s: Durable, disk: Disk, x: Status, y: Status)
    requires Stands(c, s, x, y)
    ensures Stands(c, s.(disk := disk), x, y)
  {
  }

  /** From a run at its healthcheck, on to a completed task. */
  lemma Completes(c: Config, cs: seq<Choice>, run: Run) returns (done: seq<Choice>, half: seq<Choice>)
    requires run == Run(Fresh, Health, "a", 1, map["ch" := Ch(c)], false, false, None, None)
    requires var w := After(c, START, cs);
             Alone(w, 0, run, NoPause) && Stands(c, w.s, CREATED, ASSIGNED) && Holds(c, w.s, map[], [], None)
    ensures cs <= done && Reaches(c, done, Some(COMPLETED), Some(COMPLETED))
    ensures |cs| + 2 < |done| && Starting(After(c, START, done[..|cs| + 2]).m, 0)
    ensures Reaches(c, half, Some(RUNNING), Some(COMPLETED))
  {
    hide Stands, Reaches;
    var files := Do(FilesChange(Disk(map["out" := FILE], {})));
    More(c, cs, files);
    var ready := cs + [files];
    StandsOnAnyDisk(c, After(c, START, cs).s, Disk(map["out" := FILE], {}), CREATED, ASSIGNED);
    var polling := LaunchDone(c, ready, 0, run, CREATED, ASSIGNED);
    var called := Called(c, polling, 0, run.(pc := Polling), true);
    var answered := run.(pc := Polling, response := Some(Reply(true)));
    var result := Result(c, COMPLETED, [REPORT]);
    var returning := Exited(c, called, 0, answered, result);
    CompletedResultFrom(c, After(c, START, returning), 0, answered.(exited := true, pc := Returning(result)));
    More(c, returning, Lost(0, Concludes("z"), 3));
    More(c, returning, Moved(0, Concludes("z")));
    half := returning + [Lost(0, Concludes("z"), 3)];
    done := returning + [Moved(0, Concludes("z"))];
    assert done[..|cs| + 2] == polling[..|ready| + 1];
    StandsThere(c, half, RUNNING, COMPLETED);
    StandsThere(c, done, COMPLETED, COMPLETED);
  }

  // ---- states nothing leads out of

  /** A crash adds that no run is left. */
  lemma CrashStrands(c: Config, cs: seq<Choice>) returns (ds: seq<Choice>)
    requires var s := After(c, START, cs).s;
             && T(c, s.db).Some? && T(c, s.db) != Some(PAUSED)
             && (T(c, s.db) == Some(RUNNING) && A(c, s.db) in {Some(ASSIGNED), Some(RUNNING)} ==> Pointer(c, s.db).None?)
    ensures After(c, START, ds).s == After(c, START, cs).s && ProtocolOutcomes.Stranded(c, After(c, START, ds))
  {
    ds := Crashed(c, cs);
  }

  /** RUNNING without a checkpoint, before and after the attempt has started. */
  lemma ReachesUnsaved(c: Config, attempt: Status) returns (cs: seq<Choice>)
    requires attempt == ASSIGNED || attempt == RUNNING
    ensures Reaches(c, cs, Some(RUNNING), Some(attempt)) && Pointer(c, After(c, START, cs).s.db).None?
  {
    if attempt == ASSIGNED {
      var first, run := Claimed(c);
      LaunchCrash(c, After(c, START, first), 0, run, CREATED, ASSIGNED, 3);
      More(c, first, Lost(0, Proceeds, 3));
      cs := first + [Lost(0, Proceeds, 3)];
    } else {
      var run: Run, broken: seq<Choice>;
      cs, run, broken := ReachesRunning(c);
    }
    StandsThere(c, cs, RUNNING, attempt);
  }

  /**
    Every listed pair but the two PAUSED ones is also reached with nobody left to own the task and
    nothing that resume accepts, so that it stays that way under every schedule.
   */
  lemma EveryPairCanStrand(c: Config, task: Status, attempt: Option<Status>) returns (cs: seq<Choice>)
    requires Usable(c) && PairOk(Some(task), attempt) && task != PAUSED
    ensures Reaches(c, cs, Some(task), attempt) && ProtocolOutcomes.Stranded(c, After(c, START, cs))
    ensures forall more :: Reaches(c, cs + more, Some(task), attempt)
  {
    var ds: seq<Choice>;
    if task == RUNNING && (attempt == Some(ASSIGNED) || attempt == Some(RUNNING)) {
      ds := ReachesUnsaved(c, attempt.value);
    } else {
      ds := EveryPairIsReached(c, Some(task), attempt);
    }
    cs := CrashStrands(c, ds);
    forall more ensures Reaches(c, cs + more, Some(task), attempt) {
      StaysThere(c, cs, more, task, attempt);
    }
  }

  lemma StaysThere(c: Config, cs: seq<Choice>, more: seq<Choice>, task: Status, attempt: Option<Status>)
    requires Reaches(c, cs, Some(task), attempt) && ProtocolOutcomes.Stranded(c, After(c, START, cs))
    ensures Reaches(c, cs + more, Some(task), attempt)
  {
    hide After, ProtocolOutcomes.Stranded;
    Reachable(c, cs);
    AfterBoth(c, START, cs, more);
    ProtocolOutcomes.StrandedForever(c, After(c, START, cs), more);
  }

  lemma Reachable(c: Config, cs: seq<Choice>)
    ensures ProtocolInvariant.Inv(c, After(c, START, cs))
  {
    ProtocolCommands.AlwaysInv(c, START, cs);
  }

  // ---- a pause that cannot be saved

  /** A paused run, resumed, and polling again with its first checkpoint registered. */
  lemma ReachesSecondRun(c: Config) returns (cs: seq<Choice>, r: nat, run: Run)
    requires Usable(c)
    ensures var w := After(c, START, cs);
            && Alone(w, r, run, NoPause) && run == Again(c).(pc := Polling)
            && Stands(c, w.s, RUNNING, RUNNING) && w.s.db.artifacts == FirstRow(c)
  {
    hide Stands;
    var first, one, broken := ReachesRunning(c);
    var paused, torn := Paused(c, first, 0, one);
    var gone := Crashed(c, paused);
    var ds: seq<Choice>;
    ds, r, run := Resumed(c, gone, PAUSED);
    cs := LaunchDone(c, ds, r, run, QUEUED, PAUSED);
    run := run.(pc := Polling);
  }

  function FirstRow(c: Config): seq<Artifact>
    requires Usable(c)
  {
    [RowFor(Disk(map[FirstDraft(c).path := Written(FirstDraft(c).body)], {}), FirstDraft(c), "k", "")]
  }

  /** What the plugin leaves where its first checkpoint was. */
  function Spoilt(c: Config, f: RevisionField): Disk
    requires Usable(c)
  {
    Disk(map[FirstDraft(c).path := Text(None, f, 0, 0)], {})
  }

  lemma SpoiltBlocks(c: Config, f: RevisionField)
    requires Usable(c) && CheckpointWitnesses.Blocks(f)
    ensures Blocked(Spoilt(c, f), FirstRow(c), c.env.taskId)
  {
    CheckpointWitnesses.OneFile(f, Spoilt(c, f), FirstRow(c)[0], c.env.taskId);
    NextIsInvalid(Spoilt(c, f), FirstRow(c), c.env.taskId);
  }

  /**
    Pause, resume, and then the plugin overwrites the registered checkpoint file with JSON whose
    revision raises or is negative: the second pause, though answered, saves nothing and the task
    stays RUNNING.
   */
  lemma SecondPauseIsBlocked(c: Config, f: RevisionField) returns (cs: seq<Choice>)
    requires Usable(c) && CheckpointWitnesses.Blocks(f)
    ensures var w := After(c, START, cs);
            var v := After(c, START, cs + [Do(PauseSaved("k2", ""))]);
            && w.m.pause.Answered? && v.m.pause.NoPause?
            && Reaches(c, cs, Some(RUNNING), Some(RUNNING)) && v.s == w.s
            && w.m.pause.run in v.m.runs && v.m.runs[w.m.pause.run].outcome == Some(false)
  {
    hide Stands;
    var first, r, run := ReachesSecondRun(c);
    var files := Do(FilesChange(Spoilt(c, f)));
    More(c, first, files);
    var spoilt := first + [files];
    StandsOnAnyDisk(c, After(c, START, first).s, Spoilt(c, f), RUNNING, RUNNING);
    cs := PauseAsked(c, spoilt, r, run);
    StandsThere(c, cs, RUNNING, RUNNING);
    SpoiltBlocks(c, f);
    PauseRefused(c, cs, r, run.(exited := true));
  }

  lemma PauseRefused(c: Config, cs: seq<Choice>, r: nat, run: Run)
    requires Usable(c) && Reaches(c, cs, Some(RUNNING), Some(RUNNING))
    requires var w := After(c, START, cs);
             && Alone(w, r, run, Answered(r, "a", "h")) && run.exited && Live(run.pc) && run.outcome.None?
             && Blocked(w.s.disk, w.s.db.artifacts, c.env.taskId) && w.s.db.artifacts == FirstRow(c)
    ensures var w := After(c, START, cs);
            var v := After(c, START, cs + [Do(PauseSaved("k2", ""))]);
            v.s == w.s && v.m == CompletePause(w.m, r, false) && r in v.m.runs && v.m.runs[r].outcome == Some(false)
  {
    hide Blocked, After;
    var w := After(c, START, cs);
    Reachable(c, cs);
    More(c, cs, Do(PauseSaved("k2", "")));
    assert w.s.db.artifacts[0].id == "k";
    hide Next, ProtocolInvariant.Inv;
    ProtocolOutcomes.PauseSavesExactlyWhen(c, w, "k2", "");
  }

  /** The set of pairs is exact: each of them is reached by some schedule, in any usable configuration. */
  lemma EveryPairIsReached(c: Config, task: Option<Status>, attempt: Option<Status>) returns (cs: seq<Choice>)
    requires Usable(c) && PairOk(task, attempt)
    ensures Initial(c, START) && Reaches(c, cs, task, attempt)
  {
    if task.None? {
      return [];
    }
    var open, failed, half, claimed := ReachesEarly(c);
    var first, run := Claimed(c);
    if task == Some(CREATED) {
      cs := if attempt.None? then open else if attempt == Some(ASSIGNED) then claimed else half;
    } else if task == Some(FAILED) {
      cs := failed;
    } else if task == Some(COMPLETED) {
      var done, torn := Completes(c, first, run);
      cs := done;
    } else {
      cs := ReachesLater(c, task.value, attempt.value);
    }
  }

  lemma ReachesLater(c: Config, task: Status, attempt: Status) returns (cs: seq<Choice>)
    requires Usable(c) && PairOk(Some(task), Some(attempt)) && task in {QUEUED, ASSIGNED, RUNNING, PAUSED}
    ensures Reaches(c, cs, Some(task), Some(attempt))
  {
    hide Stands, Alone, Reaches;
    if attempt == ASSIGNED {
      var first, run := Claimed(c);
      cs := ReachesLaunch(c, first, 0, run, CREATED, ASSIGNED, if task == QUEUED then 1 else if task == ASSIGNED then 2 else 3);
    } else if attempt == PAUSED {
      var paused, torn, queued, placed := ReachesPaused(c);
      cs := if task == PAUSED then paused else if task == RUNNING then torn else if task == QUEUED then queued else placed;
    } else if attempt == FAILED {
      var polling, r, broken := ReachesRunning(c);
      var lost, queued, placed := ReachesFailedAfterPause(c);
      cs := if task == PAUSED then lost else if task == RUNNING then broken else if task == QUEUED then queued else placed;
    } else {
      cs := ReachesInside(c, attempt);
    }
  }

  lemma ReachesInside(c: Config, attempt: Status) returns (cs: seq<Choice>)
    requires attempt == RUNNING || attempt == COMPLETED
    ensures Reaches(c, cs, Some(RUNNING), Some(attempt))
  {
    hide Stands, Alone, Reaches;
    if attempt == RUNNING {
      var polling, r, broken := ReachesRunning(c);
      StandsThere(c, polling, RUNNING, RUNNING);
      cs := polling;
    } else {
      var first, run := Claimed(c);
      var done, torn := Completes(c, first, run);
      cs := torn;
    }
  }

  /**
    A stop is not always heard: asked for while the plugin is being health-checked, or while its
    process is being started, when the run is already in the active table, it leaves no trace and the
    task still completes.
   */
  lemma EarlyStopIsLost(c: Config, starting: bool) returns (cs: seq<Choice>, k: nat)
    ensures k < |cs| && cs[k] == Do(StopCommand)
    ensures var m := After(c, START, cs[..k]).m;
            m.active == Some(0) && 0 in m.runs && if starting then m.runs[0].pc.Spawning? else m.runs[0].pc.Health?
    ensures Reaches(c, cs, Some(COMPLETED), Some(COMPLETED))
  {
    hide Reaches, Stands, After;
    var first, run := Claimed(c);
    var done, half := Completes(c, first, run);
    k := if starting then |first| + 2 else |first|;
    assert done[..|first|] == first;
    cs := StopInserted(c, done, k);
    SameReach(c, done, cs);
  }

  lemma StopInserted(c: Config, done: seq<Choice>, k: nat) returns (cs: seq<Choice>)
    requires k <= |done| && NoProcess(After(c, START, done[..k]).m)
    ensures k < |cs| && cs[k] == Do(StopCommand) && cs[..k] == done[..k] && After(c, START, cs) == After(c, START, done)
  {
    hide After, NoProcess;
    UnheardStop(c, START, done[..k], done[k..]);
    cs := done[..k] + [Do(StopCommand)] + done[k..];
    assert done[..k] + done[k..] == done && cs[..k] == done[..k];
  }

  lemma SameReach(c: Config, cs: seq<Choice>, ds: seq<Choice>)
    requires Reaches(c, cs, Some(COMPLETED), Some(COMPLETED)) && After(c, START, ds) == After(c, START, cs)
    ensures Reaches(c, ds, Some(COMPLETED), Some(COMPLETED))
  {
  }
}
