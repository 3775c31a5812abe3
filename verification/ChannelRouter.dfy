/** Class-first channel ranking (routing/channel_router.py). */
module ChannelRouter {
  import opened Prelude
  import opened Records
  import opened Timestamps

  datatype Subscription = Subscription(enabled: bool, preferred: string)

  datatype Weights = Weights(
    capabilityFit: real, subscriptionBonus: real, quality: real, reliability: real, workerAffinity: real,
    monetaryCost: real, tokenCost: real, latency: real, handoffPenalty: real)

  /** A persisted channel_health row. Times are instants. */
  datatype HealthState = HealthState(health: Health, cooldownUntil: Option<int>)

  /** What the router reads of the configuration. `channels` keeps the order of channels.yaml. */
  datatype Routing = Routing(
    channels: seq<Channel>, subscriptions: map<string, Subscription>, premiumAllowed: map<CostMode, bool>,
    priority: map<ChannelClass, int>, weights: Weights, crossProvider: bool,
    healthRows: Option<map<string, HealthState>>)

  datatype Query = Query(capability: string, mode: CostMode, worker: string, current: Option<string>, now: int)

  datatype Ranked = Ranked(channel: Channel, health: Health, score: real)

  /** The facts configuration loading guarantees: unique keys, every class and mode present. */
  ghost predicate Loaded(r: Routing) {
    && (forall i, j :: 0 <= i < j < |r.channels| ==> r.channels[i].id != r.channels[j].id)
    && Complete(r.priority)
    && (forall m: CostMode :: m in r.premiumAllowed)
  }

  function EffectiveHealth(r: Routing, c: Channel, now: int): Health {
    if r.healthRows.None? || c.id !in r.healthRows.value then c.health
    else
      var row := r.healthRows.value[c.id];
      if row.cooldownUntil.Some? && now < row.cooldownUntil.value then RATE_LIMITED else row.health
  }

  predicate Disabled(r: Routing, id: string) {
    exists s :: s in r.subscriptions && !r.subscriptions[s].enabled && r.subscriptions[s].preferred == id
  }

  predicate Eligible(r: Routing, q: Query, c: Channel)
    requires q.mode in r.premiumAllowed
  {
    var health := EffectiveHealth(r, c, q.now);
    && c.enabled && q.capability in c.capabilities
    && health != UNAVAILABLE && health != RATE_LIMITED
    && !Disabled(r, c.id)
    && (c.class_ == PREMIUM_API ==> r.premiumAllowed[q.mode])
  }

  function HealthScore(h: Health): real {
    match h
    case AVAILABLE => 1.0
    case DEGRADED => 0.6
    case LIMIT_WARNING => 0.4
    case _ => 0.0
  }

  function MonetaryScore(c: ChannelClass): real {
    match c
    case SUBSCRIPTION => 0.0
    case FREE_LOCAL => 0.0
    case CHEAP_API => 1.0
    case PREMIUM_API => 2.0
  }

  function GetOr(x: Option<real>, default: real): real {
    if x.Some? then x.value else default
  }

  function Flag(b: bool): real {
    if b then 1.0 else 0.0
  }

  function Least(a: real, b: real): real {
    if b < a then b else a
  }

  function Score(w: Weights, q: Query, c: Channel, health: Health): real {
    var affinity := if c.hints.workers.None? then 0.5 else Flag(q.worker in c.hints.workers.value);
    var quality := GetOr(c.hints.quality, if q.mode == MAX_QUALITY then 0.8 else 0.7);
    var reliability := Least(GetOr(c.hints.reliability, HealthScore(health)), HealthScore(health));
    var handoff := Flag(q.current.Some? && q.current.value != c.id);
    w.capabilityFit
    + w.subscriptionBonus * Flag(c.class_ == SUBSCRIPTION)
    + w.quality * quality
    + w.reliability * reliability
    + w.workerAffinity * affinity
    + w.monetaryCost * MonetaryScore(c.class_)
    + w.tokenCost * GetOr(c.hints.tokenCost, 0.0)
    + w.latency * GetOr(c.hints.latency, 0.0)
    + w.handoffPenalty * handoff
  }

  function Candidate(r: Routing, q: Query, c: Channel): Ranked {
    var health := EffectiveHealth(r, c, q.now);
    Ranked(c, health, Score(r.weights, q, c, health))
  }

  predicate Complete(p: map<ChannelClass, int>) {
    SUBSCRIPTION in p && FREE_LOCAL in p && CHEAP_API in p && PREMIUM_API in p
  }

  function ClassPriority(p: map<ChannelClass, int>, c: ChannelClass): int
    requires Complete(p)
  {
    match c
    case SUBSCRIPTION => p[SUBSCRIPTION]
    case FREE_LOCAL => p[FREE_LOCAL]
    case CHEAP_API => p[CHEAP_API]
    case PREMIUM_API => p[PREMIUM_API]
  }

  /** The sort key, compared: class priority, score and priority downwards, then the id. */
  predicate Before(p: map<ChannelClass, int>, a: Ranked, b: Ranked)
    requires Complete(p)
  {
    var ca, cb := ClassPriority(p, a.channel.class_), ClassPriority(p, b.channel.class_);
    || ca > cb
    || (ca == cb && (|| a.score > b.score
                     || (a.score == b.score && (|| a.channel.priority > b.channel.priority
                                                || (a.channel.priority == b.channel.priority
                                                    && TextLess(a.channel.id, b.channel.id))))))
  }

  /** Key by key: class priority, score, own priority, and only then the id. */
  predicate InOrder(p: map<ChannelClass, int>, x: Ranked, y: Ranked) {
    && x.channel.class_ in p && y.channel.class_ in p
    && p[x.channel.class_] >= p[y.channel.class_]
    && (p[x.channel.class_] == p[y.channel.class_] ==>
          && x.score >= y.score
          && (x.score == y.score ==>
                && x.channel.priority >= y.channel.priority
                && (x.channel.priority == y.channel.priority ==> TextLess(x.channel.id, y.channel.id))))
  }

  lemma BeforeMeaning(p: map<ChannelClass, int>, x: Ranked, y: Ranked)
    requires Complete(p)
    ensures Before(p, x, y) <==> InOrder(p, x, y)
  {
  }

  /** The candidates in configuration order. */
  function Candidates(r: Routing, q: Query, n: nat): seq<Ranked>
    requires n <= |r.channels| && q.mode in r.premiumAllowed
  {
    if n == 0 then [] else
      var c := r.channels[n - 1];
      Candidates(r, q, n - 1) + if Eligible(r, q, c) then [Candidate(r, q, c)] else []
  }

  function Insert(p: map<ChannelClass, int>, x: Ranked, s: seq<Ranked>): seq<Ranked>
    requires Complete(p)
  {
    if s == [] || Before(p, x, s[0]) then [x] + s else [s[0]] + Insert(p, x, s[1..])
  }

  /** list.sort by the key. */
  function Sort(p: map<ChannelClass, int>, s: seq<Ranked>): seq<Ranked>
    requires Complete(p)
  {
    if s == [] then [] else Insert(p, s[0], Sort(p, s[1..]))
  }

  /** rank_candidates: collect the eligible channels in a loop, then sort them in place. */
  method RankCandidates(r: Routing, q: Query) returns (ranked: Result<seq<Ranked>>)
    requires Complete(r.priority) && q.mode in r.premiumAllowed
    ensures ranked == Rank(r, q)
    ensures Loaded(r) && ranked.Ok? ==>
              forall i, j :: 0 <= i < j < |ranked.value| ==> InOrder(r.priority, ranked.value[i], ranked.value[j])
  {
    if Loaded(r) && Rank(r, q).Ok? {
      RankingInOrder(r, q);
    }
    var candidates: seq<Ranked> := [];
    var i := 0;
    while i < |r.channels|
      invariant 0 <= i <= |r.channels|
      invariant candidates == Candidates(r, q, i)
    {
      var c := r.channels[i];
      if Eligible(r, q, c) {
        candidates := candidates + [Candidate(r, q, c)];
      }
      i := i + 1;
    }
    candidates := Sort(r.priority, candidates);
    if candidates == [] {
      return Err(NoEligibleChannel);
    }
    return Ok(candidates);
  }

  function Rank(r: Routing, q: Query): Result<seq<Ranked>>
    requires Complete(r.priority) && q.mode in r.premiumAllowed
  {
    var sorted := Sort(r.priority, Candidates(r, q, |r.channels|));
    if sorted == [] then Err(NoEligibleChannel) else Ok(sorted)
  }

  // ---- the order

  lemma {:induction false} TextTotal(a: string, b: string)
    ensures TextLess(a, b) || TextLess(b, a) || a == b
  {
    if a != "" && b != "" && a[0] == b[0] {
      TextTotal(a[1..], b[1..]);
      assert a == [a[0]] + a[1..] && b == [b[0]] + b[1..];
    }
  }

  lemma {:induction false} TextTransitive(a: string, b: string, c: string)
    requires TextLess(a, b) && TextLess(b, c)
    ensures TextLess(a, c)
  {
    if a != "" && a[0] == b[0] && b[0] == c[0] {
      TextTransitive(a[1..], b[1..], c[1..]);
    }
  }

  /** The key is a strict total order on channels with different ids. */
  lemma BeforeIsStrictTotal(p: map<ChannelClass, int>, a: Ranked, b: Ranked, c: Ranked)
    requires Complete(p)
    ensures !Before(p, a, a)
    ensures Before(p, a, b) && Before(p, b, c) ==> Before(p, a, c)
    ensures a.channel.id != b.channel.id ==> Before(p, a, b) || Before(p, b, a)
    ensures !(Before(p, a, b) && Before(p, b, a))
  {
    Irreflexive(a.channel.id);
    TextTotal(a.channel.id, b.channel.id);
    if TextLess(a.channel.id, b.channel.id) && TextLess(b.channel.id, c.channel.id) {
      TextTransitive(a.channel.id, b.channel.id, c.channel.id);
    }
    if TextLess(a.channel.id, b.channel.id) && TextLess(b.channel.id, a.channel.id) {
      TextTransitive(a.channel.id, b.channel.id, a.channel.id);
    }
  }

  ghost predicate Sorted(p: map<ChannelClass, int>, s: seq<Ranked>)
    requires Complete(p)
  {
    forall i, j :: 0 <= i < j < |s| ==> Before(p, s[i], s[j])
  }

  ghost predicate DistinctIds(s: seq<Ranked>) {
    forall i, j :: 0 <= i < j < |s| ==> s[i].channel.id != s[j].channel.id
  }

  lemma {:induction false} InsertSorts(p: map<ChannelClass, int>, x: Ranked, s: seq<Ranked>)
    requires Complete(p) && Sorted(p, s) && forall i :: 0 <= i < |s| ==> s[i].channel.id != x.channel.id
    ensures Sorted(p, Insert(p, x, s))
    ensures multiset(Insert(p, x, s)) == multiset(s) + multiset{x}
  {
    if s == [] {
    } else if Before(p, x, s[0]) {
      forall j | 0 <= j < |s| ensures Before(p, x, s[j]) {
        if j > 0 { BeforeIsStrictTotal(p, x, s[0], s[j]); }
      }
    } else {
      InsertSorts(p, x, s[1..]);
      BeforeIsStrictTotal(p, s[0], x, x);
      BeforeIsStrictTotal(p, x, s[0], x);
      var rest := Insert(p, x, s[1..]);
      forall j | 0 <= j < |rest| ensures Before(p, s[0], rest[j]) {
        assert rest[j] in multiset(rest);
        assert rest[j] == x || rest[j] in multiset(s[1..]);
      }
      assert s == [s[0]] + s[1..];
    }
  }

  lemma {:induction false} SortSorts(p: map<ChannelClass, int>, s: seq<Ranked>)
    requires Complete(p) && DistinctIds(s)
    ensures Sorted(p, Sort(p, s)) && multiset(Sort(p, s)) == multiset(s)
  {
    if s != [] {
      SortSorts(p, s[1..]);
      var rest := Sort(p, s[1..]);
      forall i | 0 <= i < |rest| ensures rest[i].channel.id != s[0].channel.id {
        assert rest[i] in multiset(s[1..]);
      }
      InsertSorts(p, s[0], rest);
      assert s == [s[0]] + s[1..];
    }
  }

  /** Two sorted sequences of the same channels are the same sequence. */
  lemma {:induction false} SortedIsUnique(p: map<ChannelClass, int>, s: seq<Ranked>, t: seq<Ranked>)
    requires Complete(p) && Sorted(p, s) && Sorted(p, t) && multiset(s) == multiset(t)
    ensures s == t
  {
    if s == [] {
      assert |multiset(t)| == 0;
    } else {
      assert s[0] in multiset(t) && |multiset(s)| == |multiset(t)|;
      assert t[0] in multiset(s);
      if s[0] != t[0] {
        var i :| 0 <= i < |t| && t[i] == s[0];
        var j :| 0 <= j < |s| && s[j] == t[0];
        BeforeIsStrictTotal(p, s[0], t[0], s[0]);
        assert false;
      }
      assert s == [s[0]] + s[1..] && t == [t[0]] + t[1..];
      assert multiset(s[1..]) == multiset(s) - multiset{s[0]};
      assert multiset(t[1..]) == multiset(t) - multiset{t[0]};
      SortedIsUnique(p, s[1..], t[1..]);
    }
  }

  // ---- what a ranking is

  lemma {:induction false} CandidatesMeaning(r: Routing, q: Query, n: nat)
    requires Loaded(r) && n <= |r.channels|
    ensures forall x :: x in Candidates(r, q, n) <==>
                        exists i :: 0 <= i < n && Eligible(r, q, r.channels[i]) && x == Candidate(r, q, r.channels[i])
    ensures DistinctIds(Candidates(r, q, n))
  {
    if n > 0 {
      CandidatesMeaning(r, q, n - 1);
      var before := Candidates(r, q, n - 1);
      forall i | 0 <= i < |before| ensures before[i].channel.id != r.channels[n - 1].id {
        assert before[i] in before;
      }
    }
  }

  /** x is what the ranking would hold for some configured, eligible channel. */
  ghost predicate Qualifies(r: Routing, q: Query, x: Ranked)
    requires q.mode in r.premiumAllowed
  {
    x.channel in r.channels && Eligible(r, q, x.channel) && x == Candidate(r, q, x.channel)
  }

  lemma CandidatesQualify(r: Routing, q: Query)
    requires Loaded(r)
    ensures forall x :: x in Candidates(r, q, |r.channels|) <==> Qualifies(r, q, x)
    ensures DistinctIds(Candidates(r, q, |r.channels|))
  {
    CandidatesMeaning(r, q, |r.channels|);
    forall x | Qualifies(r, q, x) ensures x in Candidates(r, q, |r.channels|) {
      var i :| 0 <= i < |r.channels| && r.channels[i] == x.channel;
      assert Eligible(r, q, r.channels[i]);
    }
  }

  /** The ranking is a sorted list of exactly the eligible channels, each once; it fails when there are none. */
  lemma RankMeaning(r: Routing, q: Query)
    requires Loaded(r)
    ensures Rank(r, q).Err? <==> forall c :: c in r.channels ==> !Eligible(r, q, c)
    ensures Rank(r, q).Ok? ==>
              var s := Rank(r, q).value;
              && s != [] && Sorted(r.priority, s) && DistinctIds(s)
              && forall x :: x in s <==> Qualifies(r, q, x)
  {
    var all := Candidates(r, q, |r.channels|);
    CandidatesQualify(r, q);
    SortSorts(r.priority, all);
    var s := Sort(r.priority, all);
    SameElements(all, s);
    SameIds(all, s);
    if s == [] {
      forall c | c in r.channels ensures !Eligible(r, q, c) {
        assert Candidate(r, q, c) !in s;
      }
    } else {
      assert s[0] in s;
    }
  }

  lemma RankingInOrder(r: Routing, q: Query)
    requires Loaded(r) && Rank(r, q).Ok?
    ensures var s := Rank(r, q).value; forall i, j :: 0 <= i < j < |s| ==> InOrder(r.priority, s[i], s[j])
  {
    RankMeaning(r, q);
    var s := Rank(r, q).value;
    forall i, j | 0 <= i < j < |s| ensures InOrder(r.priority, s[i], s[j]) {
      BeforeMeaning(r.priority, s[i], s[j]);
    }
  }

  lemma SameElements(s: seq<Ranked>, t: seq<Ranked>)
    requires multiset(s) == multiset(t)
    ensures forall x :: x in s <==> x in t
  {
    forall x ensures x in s <==> x in t {
      assert x in s <==> x in multiset(s);
      assert x in t <==> x in multiset(t);
    }
  }

  lemma SameIds(s: seq<Ranked>, t: seq<Ranked>)
    requires DistinctIds(s) && multiset(s) == multiset(t)
    ensures DistinctIds(t)
  {
    NoRepeats(s);
    forall i, j | 0 <= i < j < |t| ensures t[i].channel.id != t[j].channel.id {
      TwiceInMultiset(t, i, j);
      assert t[i] in multiset(s) && t[j] in multiset(s);
      var k :| 0 <= k < |s| && s[k] == t[i];
      var l :| 0 <= l < |s| && s[l] == t[j];
      assert k != l;
    }
  }

  lemma {:induction false} NoRepeats(s: seq<Ranked>)
    requires DistinctIds(s)
    ensures forall x :: x in s ==> multiset(s)[x] == 1
  {
    if s != [] {
      NoRepeats(s[1..]);
      assert s == [s[0]] + s[1..];
      assert s[0] !in s[1..];
    }
  }

  lemma TwiceInMultiset(t: seq<Ranked>, i: nat, j: nat)
    requires i < j < |t|
    ensures t[i] == t[j] ==> multiset(t)[t[i]] >= 2
  {
    assert t == t[..i] + [t[i]] + t[i + 1..j] + [t[j]] + t[j + 1..];
  }

  lemma OnlyChannelsDiffer(r: Routing, channels: seq<Channel>, q: Query, c: Channel)
    requires q.mode in r.premiumAllowed
    ensures Eligible(r.(channels := channels), q, c) == Eligible(r, q, c)
    ensures Candidate(r.(channels := channels), q, c) == Candidate(r, q, c)
  {
    hide Score;
  }

  lemma SameQualifies(r: Routing, channels: seq<Channel>, q: Query)
    requires q.mode in r.premiumAllowed
    ensures forall x :: Qualifies(r.(channels := channels), q, x) <==>
                        x.channel in channels && Eligible(r, q, x.channel) && x == Candidate(r, q, x.channel)
  {
    hide Eligible, Candidate;
    forall x
      ensures Qualifies(r.(channels := channels), q, x) <==>
              x.channel in channels && Eligible(r, q, x.channel) && x == Candidate(r, q, x.channel)
    {
      OnlyChannelsDiffer(r, channels, q, x.channel);
    }
  }

  /** The ranking does not depend on the order of the configuration file. */
  lemma ConfigurationOrderIsIrrelevant(r: Routing, channels: seq<Channel>, q: Query)
    requires Loaded(r) && Loaded(r.(channels := channels))
    requires forall c :: c in channels <==> c in r.channels
    ensures Rank(r.(channels := channels), q) == Rank(r, q)
  {
    var r' := r.(channels := channels);
    var a, b := Candidates(r, q, |r.channels|), Candidates(r', q, |r'.channels|);
    CandidatesQualify(r, q);
    CandidatesQualify(r', q);
    SameQualifies(r, channels, q);
    SameMembers(a, b);
    SortSorts(r.priority, a);
    SortSorts(r.priority, b);
    SortedIsUnique(r.priority, Sort(r.priority, a), Sort(r.priority, b));
  }

  lemma SameMembers(a: seq<Ranked>, b: seq<Ranked>)
    requires DistinctIds(a) && DistinctIds(b) && forall x :: x in a <==> x in b
    ensures multiset(a) == multiset(b)
  {
    NoRepeats(a);
    NoRepeats(b);
    forall x ensures multiset(a)[x] == multiset(b)[x] {
      assert x in a <==> x in multiset(a);
      assert x in b <==> x in multiset(b);
    }
  }

  /** Whatever the scores and priorities, a channel of a lower-priority class never ranks above one of a higher. */
  lemma ClassComesFirst(r: Routing, q: Query, i: nat, j: nat)
    requires Loaded(r) && Rank(r, q).Ok? && i < |Rank(r, q).value| && j < |Rank(r, q).value|
    requires var s := Rank(r, q).value;
             ClassPriority(r.priority, s[i].channel.class_) > ClassPriority(r.priority, s[j].channel.class_)
    ensures i < j
  {
    RankMeaning(r, q);
  }

  /** The first channel of the ranking is the one that beats every other eligible channel. */
  lemma FirstBeatsAll(r: Routing, q: Query, x: Ranked)
    requires Loaded(r) && Rank(r, q).Ok?
    ensures x == Rank(r, q).value[0] <==>
            Qualifies(r, q, x) && forall y :: Qualifies(r, q, y) && y != x ==> Before(r.priority, x, y)
  {
    RankMeaning(r, q);
    var s := Rank(r, q).value;
    assert s[0] in s;
    forall y | Qualifies(r, q, y) && y != s[0] ensures Before(r.priority, s[0], y) {
      var k :| 0 <= k < |s| && s[k] == y;
    }
    if Qualifies(r, q, x) && x != s[0] && Before(r.priority, x, s[0]) {
      BeforeIsStrictTotal(r.priority, x, s[0], x);
    }
  }

  /** Removing a channel that was not chosen never changes the AUTO choice. */
  lemma UnchosenIsIrrelevant(r: Routing, q: Query, channels: seq<Channel>, gone: string)
    requires Loaded(r) && Loaded(r.(channels := channels)) && Rank(r, q).Ok?
    requires Rank(r, q).value[0].channel.id != gone
    requires forall c :: c in channels <==> c in r.channels && c.id != gone
    ensures var r' := r.(channels := channels);
            Rank(r', q).Ok? && Rank(r', q).value[0] == Rank(r, q).value[0]
  {
    var r' := r.(channels := channels);
    var best := Rank(r, q).value[0];
    FirstBeatsAll(r, q, best);
    RankMeaning(r', q);
    SameQualifies(r, channels, q);
    assert Qualifies(r', q, best);
    assert best.channel in channels && Eligible(r', q, best.channel);
    FirstBeatsAll(r', q, best);
  }
}
