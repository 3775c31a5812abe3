/** The ranking and the choice read off the configuration: who is ranked, in which order, and who is chosen. */
module RoutingTheorems {
  import opened Prelude
  import opened Records
  import opened Timestamps
  import opened ChannelRouter
  import MasterSelector

  // ---- who is ranked

  /** The router's own record of the channel is a cooldown that has not ended. */
  predicate Cooling(r: Routing, q: Query, id: string) {
    && r.healthRows.Some? && id in r.healthRows.value
    && r.healthRows.value[id].cooldownUntil.Some? && q.now < r.healthRows.value[id].cooldownUntil.value
  }

  /** The health last recorded for the channel, or the configured one. */
  function Reported(r: Routing, c: Channel): Health {
    if r.healthRows.Some? && c.id in r.healthRows.value then r.healthRows.value[c.id].health else c.health
  }

  /**
    A configured channel is ranked exactly when it is enabled, has the capability, is not cooling
    down, is neither unavailable nor rate limited, is not the channel of a disabled subscription,
    and is not premium in a mode without premium.
   */
  lemma RankedExactlyWhen(r: Routing, q: Query, c: Channel)
    requires Loaded(r) && c in r.channels
    ensures (Rank(r, q).Ok? && exists i :: 0 <= i < |Rank(r, q).value| && Rank(r, q).value[i].channel == c) <==>
              && c.enabled && q.capability in c.capabilities
              && !Cooling(r, q, c.id) && Reported(r, c) != UNAVAILABLE && Reported(r, c) != RATE_LIMITED
              && (forall s :: s in r.subscriptions && r.subscriptions[s].preferred == c.id ==> r.subscriptions[s].enabled)
              && (c.class_ == PREMIUM_API ==> r.premiumAllowed[q.mode])
  {
    hide Score;
    RankMeaning(r, q);
    EligibleMeaning(r, q, c);
    if Eligible(r, q, c) {
      assert Qualifies(r, q, Candidate(r, q, c));
      var i :| 0 <= i < |Rank(r, q).value| && Rank(r, q).value[i] == Candidate(r, q, c);
    } else if Rank(r, q).Ok? {
      forall i | 0 <= i < |Rank(r, q).value| ensures Rank(r, q).value[i].channel != c {
        assert Qualifies(r, q, Rank(r, q).value[i]);
      }
    }
  }

  lemma EligibleMeaning(r: Routing, q: Query, c: Channel)
    requires q.mode in r.premiumAllowed
    ensures Eligible(r, q, c) <==>
              && c.enabled && q.capability in c.capabilities
              && !Cooling(r, q, c.id) && Reported(r, c) != UNAVAILABLE && Reported(r, c) != RATE_LIMITED
              && (forall s :: s in r.subscriptions && r.subscriptions[s].preferred == c.id ==> r.subscriptions[s].enabled)
              && (c.class_ == PREMIUM_API ==> r.premiumAllowed[q.mode])
  {
  }

  // ---- in which order

  /** An entry of the ranking carries its channel's health and score. */
  lemma EntryMeaning(r: Routing, q: Query, i: nat)
    requires Loaded(r) && Rank(r, q).Ok? && i < |Rank(r, q).value|
    ensures var x := Rank(r, q).value[i];
            && x.channel in r.channels && x.health == Reported(r, x.channel)
            && x.score == Score(r.weights, q, x.channel, Reported(r, x.channel))
  {
    hide Score;
    RankMeaning(r, q);
    assert Qualifies(r, q, Rank(r, q).value[i]);
  }

  /**
    The order of the ranking, key by key: the priority of the class never increases, within a class
    priority the score never increases, within a score the channel's own priority never increases,
    and channels that tie in all three stand in the order of their ids.
   */
  lemma RankOrder(r: Routing, q: Query, i: nat, j: nat)
    requires Loaded(r) && Rank(r, q).Ok? && i < j < |Rank(r, q).value|
    ensures var x, y := Rank(r, q).value[i], Rank(r, q).value[j];
            x.channel.class_ in r.priority && y.channel.class_ in r.priority &&
            var p, p' := r.priority[x.channel.class_], r.priority[y.channel.class_];
            && p >= p'
            && (p == p' ==> x.score >= y.score)
            && (p == p' && x.score == y.score ==> x.channel.priority >= y.channel.priority)
            && (p == p' && x.score == y.score && x.channel.priority == y.channel.priority ==>
                  TextLess(x.channel.id, y.channel.id))
            && x.channel.id != y.channel.id
  {
    RankMeaning(r, q);
    var x, y := Rank(r, q).value[i], Rank(r, q).value[j];
    assert Before(r.priority, x, y);
    BeforeMeaning(r.priority, x, y);
  }

  // ---- what the score rewards

  /** The quantities that the weights apply to. */
  datatype Features = Features(
    subscription: real, quality: real, reliability: real, affinity: real, money: real, tokens: real, latency: real, handoff: real)

  function FeaturesOf(q: Query, c: Channel, h: Health): Features {
    Features(Flag(c.class_ == SUBSCRIPTION),
             GetOr(c.hints.quality, if q.mode == MAX_QUALITY then 0.8 else 0.7),
             Least(GetOr(c.hints.reliability, HealthScore(h)), HealthScore(h)),
             if c.hints.workers.None? then 0.5 else Flag(q.worker in c.hints.workers.value),
             MonetaryScore(c.class_), GetOr(c.hints.tokenCost, 0.0), GetOr(c.hints.latency, 0.0),
             Flag(q.current.Some? && q.current.value != c.id))
  }

  function Weighted(w: Weights, f: Features): real {
    w.capabilityFit + w.subscriptionBonus * f.subscription + w.quality * f.quality + w.reliability * f.reliability
    + w.workerAffinity * f.affinity + w.monetaryCost * f.money + w.tokenCost * f.tokens + w.latency * f.latency
    + w.handoffPenalty * f.handoff
  }

  lemma ScoreIsWeighted(w: Weights, q: Query, c: Channel, h: Health)
    ensures Score(w, q, c, h) == Weighted(w, FeaturesOf(q, c, h))
  {
  }

  lemma Difference(w: real, x: real, y: real)
    ensures w * x - w * y == w * (x - y)
  {
  }

  // Two scores that differ in one feature.

  lemma OnlySubscription(w: Weights, q: Query, c: Channel, h: Health, q': Query, d: Channel, k: Health, x: real, y: real)
    requires var g := FeaturesOf(q', d, k); g.subscription == y && FeaturesOf(q, c, h) == g.(subscription := x)
    ensures Score(w, q, c, h) - Score(w, q', d, k) == w.subscriptionBonus * (x - y)
  {
    hide Score, FeaturesOf;
    ScoreIsWeighted(w, q, c, h);
    ScoreIsWeighted(w, q', d, k);
    Difference(w.subscriptionBonus, x, y);
  }

  lemma OnlyQuality(w: Weights, q: Query, c: Channel, h: Health, q': Query, d: Channel, k: Health, x: real, y: real)
    requires var g := FeaturesOf(q', d, k); g.quality == y && FeaturesOf(q, c, h) == g.(quality := x)
    ensures Score(w, q, c, h) - Score(w, q', d, k) == w.quality * (x - y)
  {
    hide Score, FeaturesOf;
    ScoreIsWeighted(w, q, c, h);
    ScoreIsWeighted(w, q', d, k);
    Difference(w.quality, x, y);
  }

  lemma OnlyReliability(w: Weights, q: Query, c: Channel, h: Health, q': Query, d: Channel, k: Health, x: real, y: real)
    requires var g := FeaturesOf(q', d, k); g.reliability == y && FeaturesOf(q, c, h) == g.(reliability := x)
    ensures Score(w, q, c, h) - Score(w, q', d, k) == w.reliability * (x - y)
  {
    hide Score, FeaturesOf;
    ScoreIsWeighted(w, q, c, h);
    ScoreIsWeighted(w, q', d, k);
    Difference(w.reliability, x, y);
  }

  lemma OnlyAffinity(w: Weights, q: Query, c: Channel, h: Health, q': Query, d: Channel, k: Health, x: real, y: real)
    requires var g := FeaturesOf(q', d, k); g.affinity == y && FeaturesOf(q, c, h) == g.(affinity := x)
    ensures Score(w, q, c, h) - Score(w, q', d, k) == w.workerAffinity * (x - y)
  {
    hide Score, FeaturesOf;
    ScoreIsWeighted(w, q, c, h);
    ScoreIsWeighted(w, q', d, k);
    Difference(w.workerAffinity, x, y);
  }

  lemma OnlyMoney(w: Weights, q: Query, c: Channel, h: Health, q': Query, d: Channel, k: Health, x: real, y: real)
    requires var g := FeaturesOf(q', d, k); g.money == y && FeaturesOf(q, c, h) == g.(money := x)
    ensures Score(w, q, c, h) - Score(w, q', d, k) == w.monetaryCost * (x - y)
  {
    hide Score, FeaturesOf;
    ScoreIsWeighted(w, q, c, h);
    ScoreIsWeighted(w, q', d, k);
    Difference(w.monetaryCost, x, y);
  }

  lemma OnlyTokens(w: Weights, q: Query, c: Channel, h: Health, q': Query, d: Channel, k: Health, x: real, y: real)
    requires var g := FeaturesOf(q', d, k); g.tokens == y && FeaturesOf(q, c, h) == g.(tokens := x)
    ensures Score(w, q, c, h) - Score(w, q', d, k) == w.tokenCost * (x - y)
  {
    hide Score, FeaturesOf;
    ScoreIsWeighted(w, q, c, h);
    ScoreIsWeighted(w, q', d, k);
    Difference(w.tokenCost, x, y);
  }

  lemma OnlyLatency(w: Weights, q: Query, c: Channel, h: Health, q': Query, d: Channel, k: Health, x: real, y: real)
    requires var g := FeaturesOf(q', d, k); g.latency == y && FeaturesOf(q, c, h) == g.(latency := x)
    ensures Score(w, q, c, h) - Score(w, q', d, k) == w.latency * (x - y)
  {
    hide Score, FeaturesOf;
    ScoreIsWeighted(w, q, c, h);
    ScoreIsWeighted(w, q', d, k);
    Difference(w.latency, x, y);
  }

  lemma OnlyHandoff(w: Weights, q: Query, c: Channel, h: Health, q': Query, d: Channel, k: Health, x: real, y: real)
    requires var g := FeaturesOf(q', d, k); g.handoff == y && FeaturesOf(q, c, h) == g.(handoff := x)
    ensures Score(w, q, c, h) - Score(w, q', d, k) == w.handoffPenalty * (x - y)
  {
    hide Score, FeaturesOf;
    ScoreIsWeighted(w, q, c, h);
    ScoreIsWeighted(w, q', d, k);
    Difference(w.handoffPenalty, x, y);
  }

  /** Quality counts with its weight; an unrated channel counts as 0.8 in MAX_QUALITY and as 0.7 otherwise. */
  lemma QualityMoves(w: Weights, q: Query, c: Channel, h: Health, x: real, y: real)
    ensures var rated := c.(hints := c.hints.(quality := Some(x)));
            && Score(w, q, rated, h) - Score(w, q, c.(hints := c.hints.(quality := Some(y))), h) == w.quality * (x - y)
            && Score(w, q, rated, h) - Score(w, q, c.(hints := c.hints.(quality := None)), h)
               == w.quality * (x - if q.mode == MAX_QUALITY then 0.8 else 0.7)
  {
    hide Score;
    var rated := c.(hints := c.hints.(quality := Some(x)));
    OnlyQuality(w, q, rated, h, q, c.(hints := c.hints.(quality := Some(y))), h, x, y);
    OnlyQuality(w, q, rated, h, q, c.(hints := c.hints.(quality := None)), h, x, if q.mode == MAX_QUALITY then 0.8 else 0.7);
  }

  /** What a health is worth as reliability. */
  function Worth(h: Health): real {
    match h
    case AVAILABLE => 1.0
    case DEGRADED => 0.6
    case LIMIT_WARNING => 0.4
    case RATE_LIMITED => 0.0
    case UNAVAILABLE => 0.0
    case UNKNOWN => 0.0
  }

  /** Reliability counts with its weight, but never above what the channel's present health is worth. */
  lemma ReliabilityMoves(w: Weights, q: Query, c: Channel, h: Health, k: Health, x: real)
    ensures var rated, unrated := c.(hints := c.hints.(reliability := Some(x))), c.(hints := c.hints.(reliability := None));
            && Score(w, q, unrated, h) - Score(w, q, unrated, k) == w.reliability * (Worth(h) - Worth(k))
            && Score(w, q, unrated, h) - Score(w, q, rated, h)
               == w.reliability * (Worth(h) - if x < Worth(h) then x else Worth(h))
  {
    hide Score;
    var rated, unrated := c.(hints := c.hints.(reliability := Some(x))), c.(hints := c.hints.(reliability := None));
    OnlyReliability(w, q, unrated, h, q, unrated, k, Worth(h), Worth(k));
    OnlyReliability(w, q, unrated, h, q, rated, h, Worth(h), if x < Worth(h) then x else Worth(h));
  }

  /** A channel bound to the worker gains the affinity weight over one bound to others; an unbound one half of it. */
  lemma AffinityMoves(w: Weights, q: Query, c: Channel, h: Health, workers: set<string>, others: set<string>)
    requires q.worker in workers && q.worker !in others
    ensures var theirs := c.(hints := c.hints.(workers := Some(others)));
            && Score(w, q, c.(hints := c.hints.(workers := Some(workers))), h) - Score(w, q, theirs, h) == w.workerAffinity
            && Score(w, q, c.(hints := c.hints.(workers := None)), h) - Score(w, q, theirs, h) == 0.5 * w.workerAffinity
  {
    hide Score;
    var theirs := c.(hints := c.hints.(workers := Some(others)));
    OnlyAffinity(w, q, c.(hints := c.hints.(workers := Some(workers))), h, q, theirs, h, 1.0, 0.0);
    OnlyAffinity(w, q, c.(hints := c.hints.(workers := None)), h, q, theirs, h, 0.5, 0.0);
  }

  /** Leaving the current channel costs the handoff weight; with no current channel nothing is a handoff. */
  lemma HandoffMoves(w: Weights, q: Query, c: Channel, h: Health, current: string)
    ensures Score(w, q.(current := Some(current)), c, h) - Score(w, q.(current := None), c, h)
            == if current == c.id then 0.0 else w.handoffPenalty
  {
    hide Score;
    OnlyHandoff(w, q.(current := Some(current)), c, h, q.(current := None), c, h, if current == c.id then 0.0 else 1.0, 0.0);
  }

  /** The class counts by its subscription bonus or by its money: a cheap API once, a premium API twice. */
  lemma ClassMoves(w: Weights, q: Query, c: Channel, h: Health)
    ensures var free := Score(w, q, c.(class_ := FREE_LOCAL), h);
            && Score(w, q, c.(class_ := SUBSCRIPTION), h) - free == w.subscriptionBonus
            && Score(w, q, c.(class_ := CHEAP_API), h) - free == w.monetaryCost
            && Score(w, q, c.(class_ := PREMIUM_API), h) - free == 2.0 * w.monetaryCost
  {
    hide Score;
    var free := c.(class_ := FREE_LOCAL);
    OnlySubscription(w, q, c.(class_ := SUBSCRIPTION), h, q, free, h, 1.0, 0.0);
    OnlyMoney(w, q, c.(class_ := CHEAP_API), h, q, free, h, 1.0, 0.0);
    OnlyMoney(w, q, c.(class_ := PREMIUM_API), h, q, free, h, 2.0, 0.0);
  }

  /** Token cost and latency count with their weights and as 0 when not given. */
  lemma CostsMove(w: Weights, q: Query, c: Channel, h: Health, x: real)
    ensures Score(w, q, c.(hints := c.hints.(tokenCost := Some(x))), h) - Score(w, q, c.(hints := c.hints.(tokenCost := None)), h)
            == w.tokenCost * (x - 0.0)
    ensures Score(w, q, c.(hints := c.hints.(latency := Some(x))), h) - Score(w, q, c.(hints := c.hints.(latency := None)), h)
            == w.latency * (x - 0.0)
  {
    hide Score;
    OnlyTokens(w, q, c.(hints := c.hints.(tokenCost := Some(x))), h, q, c.(hints := c.hints.(tokenCost := None)), h, x, 0.0);
    OnlyLatency(w, q, c.(hints := c.hints.(latency := Some(x))), h, q, c.(hints := c.hints.(latency := None)), h, x, 0.0);
  }

  /** A plain channel: free, unrated, unbound, of unknown health, with nothing to hand off from. */
  lemma PlainScore(w: Weights, q: Query, c: Channel)
    requires c.class_ == FREE_LOCAL && c.hints == Hints(None, None, None, None, None) && q.current.None?
    ensures Score(w, q, c, UNKNOWN)
            == w.capabilityFit + w.quality * (if q.mode == MAX_QUALITY then 0.8 else 0.7) + w.workerAffinity * 0.5
  {
  }

  /**
    In the ranking itself: of two channels alike in everything but id and quality, neither of them
    the current one, the better stands first when quality has a positive weight.
   */
  lemma BetterQualityRanksFirst(r: Routing, q: Query, i: nat, j: nat, x: real, y: real)
    requires Loaded(r) && Rank(r, q).Ok? && i < |Rank(r, q).value| && j < |Rank(r, q).value|
    requires r.weights.quality > 0.0 && x > y && q.current.None?
    requires var s := Rank(r, q).value;
             && s[j].channel == s[i].channel.(id := s[j].channel.id, hints := s[i].channel.hints.(quality := Some(y)))
             && s[i].channel.hints.quality == Some(x) && s[i].health == s[j].health
    ensures i < j
  {
    hide Score;
    EntryMeaning(r, q, i);
    EntryMeaning(r, q, j);
    var s := Rank(r, q).value;
    OnlyQuality(r.weights, q, s[i].channel, s[i].health, q, s[j].channel, s[j].health, x, y);
    Positive(r.weights.quality, x - y);
    if j < i {
      RankOrder(r, q, j, i);
    }
  }

  lemma Positive(w: real, d: real)
    requires w > 0.0 && d > 0.0
    ensures w * d > 0.0
  {
  }

  // ---- who is chosen

  lemma {:induction false} ByIdMeaning(channels: seq<Channel>, id: string)
    requires forall i, j :: 0 <= i < j < |channels| ==> channels[i].id != channels[j].id
    ensures id in MasterSelector.ById(channels) <==> exists c :: c in channels && c.id == id
    ensures forall c :: c in channels && c.id == id ==> id in MasterSelector.ById(channels) && MasterSelector.ById(channels)[id] == c
  {
    if channels != [] {
      var n := |channels| - 1;
      ByIdMeaning(channels[..n], id);
      assert channels == channels[..n] + [channels[n]];
    }
  }

  /** Row i of the ranking is the first with this provider. */
  predicate FirstOfProvider(s: seq<Ranked>, provider: string, i: nat) {
    i < |s| && s[i].channel.provider == provider && forall j :: 0 <= j < i ==> s[j].channel.provider != provider
  }

  /** Without a preference, and with one that nothing limits, the first channel of the ranking is chosen. */
  lemma AutoTakesTheFirst(r: Routing, q: Query)
    requires Loaded(r)
    ensures MasterSelector.Resolve(r, q, AUTO)
            == match Rank(r, q) case Ok(s) => Ok(s[0].channel) case Err(_) => Err(NoEligibleChannel)
  {
    RankMeaning(r, q);
  }

  /** The configured name of a preference. */
  predicate Named(p: MasterPreference, name: string) {
    (p == CLAUDE && name == "claude") || (p == CHATGPT && name == "chatgpt")
  }

  /** The channel of the preferred subscription is in the ranking. */
  predicate PreferredRanked(r: Routing, name: string, s: seq<Ranked>) {
    name in r.subscriptions && exists i :: 0 <= i < |s| && s[i].channel.id == r.subscriptions[name].preferred
  }

  lemma SelectedFrom(r: Routing, q: Query, p: MasterPreference, name: string) returns (ranked: seq<Channel>)
    requires Loaded(r) && Named(p, name) && Rank(r, q).Ok?
    ensures var s := Rank(r, q).value;
            && s != [] && |ranked| == |s| && (forall i :: 0 <= i < |s| ==> ranked[i] == s[i].channel)
            && MasterSelector.Resolve(r, q, p)
               == MasterSelector.Select(r.subscriptions, p, ranked, MasterSelector.ById(r.channels), r.crossProvider)
    ensures MasterSelector.PreferredId(r.subscriptions, p)
            == if name in r.subscriptions then Some(r.subscriptions[name].preferred) else None
    ensures PreferredRanked(r, name, Rank(r, q).value) <==>
              name in r.subscriptions && MasterSelector.FirstWithId(ranked, r.subscriptions[name].preferred).Some?
  {
    hide Rank;
    RankMeaning(r, q);
    var s := Rank(r, q).value;
    ranked := MasterSelector.ChannelsOf(s);
    if name in r.subscriptions {
      var id := r.subscriptions[name].preferred;
      MasterSelector.FirstWithIdMeaning(ranked, id);
      forall i | 0 <= i < |s| && s[i].channel.id == id ensures MasterSelector.FirstWithId(ranked, id).Some? {
        assert ranked[i] in ranked;
      }
    }
  }

  /** A preference for Claude or ChatGPT takes the channel of the subscription of that name if it is ranked. */
  lemma PreferredIsTaken(r: Routing, q: Query, p: MasterPreference, name: string, i: nat)
    requires Loaded(r) && Named(p, name) && Rank(r, q).Ok? && name in r.subscriptions
    requires i < |Rank(r, q).value| && Rank(r, q).value[i].channel.id == r.subscriptions[name].preferred
    ensures MasterSelector.Resolve(r, q, p) == Ok(Rank(r, q).value[i].channel)
  {
    hide Rank, MasterSelector.Resolve;
    RankMeaning(r, q);
    var ranked := SelectedFrom(r, q, p, name);
    var s := Rank(r, q).value;
    var id := r.subscriptions[name].preferred;
    MasterSelector.FirstWithIdMeaning(ranked, id);
    var j :| 0 <= j < |ranked| && ranked[j] == MasterSelector.FirstWithId(ranked, id).value && ranked[j].id == id;
    assert s[j].channel.id == s[i].channel.id;
  }

  /** If it is not ranked and providers may be crossed, the first of the ranking is taken. */
  lemma FallbackCrosses(r: Routing, q: Query, p: MasterPreference, name: string)
    requires Loaded(r) && Named(p, name) && Rank(r, q).Ok? && r.crossProvider
    requires !PreferredRanked(r, name, Rank(r, q).value)
    ensures Rank(r, q).value != [] && MasterSelector.Resolve(r, q, p) == Ok(Rank(r, q).value[0].channel)
  {
    hide Rank, MasterSelector.Resolve;
    var ranked := SelectedFrom(r, q, p, name);
  }

  /** If providers may not be crossed, the first ranked channel of the preferred channel's provider is taken. */
  lemma FallbackStays(r: Routing, q: Query, p: MasterPreference, name: string, d: Channel)
    requires Loaded(r) && Named(p, name) && Rank(r, q).Ok? && !r.crossProvider
    requires !PreferredRanked(r, name, Rank(r, q).value)
    requires name in r.subscriptions && d in r.channels && d.id == r.subscriptions[name].preferred != ""
    ensures var s := Rank(r, q).value;
            match MasterSelector.Resolve(r, q, p)
            case Ok(c) => exists i: nat :: FirstOfProvider(s, d.provider, i) && s[i].channel == c
            case Err(e) => e == NoEligibleChannel && forall i :: 0 <= i < |s| ==> s[i].channel.provider != d.provider
  {
    hide Rank, MasterSelector.Resolve;
    var s := Rank(r, q).value;
    var ranked := SelectedFrom(r, q, p, name);
    ByIdMeaning(r.channels, d.id);
    MasterSelector.FirstOfMeaning(ranked, Some(d.provider));
    var first := MasterSelector.FirstOf(ranked, Some(d.provider));
    if first.Some? {
      var i: nat :| i < |ranked| && ranked[i] == first.value && Some(first.value.provider) == Some(d.provider)
                    && forall j :: 0 <= j < i ==> Some(ranked[j].provider) != Some(d.provider);
      assert FirstOfProvider(s, d.provider, i);
    } else {
      forall i | 0 <= i < |s| ensures s[i].channel.provider != d.provider {
        assert ranked[i] in ranked;
      }
    }
  }

  /** And if the preference names no configured channel either, nothing is taken. */
  lemma NoFallback(r: Routing, q: Query, p: MasterPreference, name: string)
    requires Loaded(r) && Named(p, name) && Rank(r, q).Ok? && !r.crossProvider
    requires !PreferredRanked(r, name, Rank(r, q).value)
    requires name in r.subscriptions && r.subscriptions[name].preferred != "" ==>
               forall d :: d in r.channels ==> d.id != r.subscriptions[name].preferred
    ensures MasterSelector.Resolve(r, q, p) == Err(NoEligibleChannel)
  {
    hide Rank, MasterSelector.Resolve;
    var ranked := SelectedFrom(r, q, p, name);
    if name in r.subscriptions {
      ByIdMeaning(r.channels, r.subscriptions[name].preferred);
    }
    MasterSelector.FirstOfMeaning(ranked, None);
    assert MasterSelector.FirstOf(ranked, None).None?;
  }
}
