/** The logical master preference over ranked channels (routing/master_selector.py). */
module MasterSelector {
  import opened Prelude
  import opened Records
  import opened ChannelRouter

  function SubscriptionName(p: MasterPreference): string
    requires p != AUTO
  {
    if p == CLAUDE then "claude" else "chatgpt"
  }

  function PreferredId(subs: map<string, Subscription>, p: MasterPreference): Option<string>
    requires p != AUTO
  {
    if SubscriptionName(p) in subs then Some(subs[SubscriptionName(p)].preferred) else None
  }

  function Provider(all: map<string, Channel>, id: Option<string>): Option<string> {
    if id.Some? && id.value != "" && id.value in all then Some(all[id.value].provider) else None
  }

  /** The first ranked channel with this id, or with this provider. */
  function FirstWithId(ranked: seq<Channel>, id: string): Option<Channel> {
    if ranked == [] then None
    else if ranked[0].id == id then Some(ranked[0]) else FirstWithId(ranked[1..], id)
  }

  function FirstOf(ranked: seq<Channel>, provider: Option<string>): Option<Channel> {
    if ranked == [] then None
    else if Some(ranked[0].provider) == provider then Some(ranked[0]) else FirstOf(ranked[1..], provider)
  }

  /** MasterSelector.select. */
  function Select(subs: map<string, Subscription>, p: MasterPreference, ranked: seq<Channel>,
                  all: map<string, Channel>, cross: bool): Result<Channel> {
    if ranked == [] then Err(NoEligibleChannel)
    else if p == AUTO then Ok(ranked[0])
    else
      var id := PreferredId(subs, p);
      var wanted := if id.Some? then FirstWithId(ranked, id.value) else None;
      if wanted.Some? then Ok(wanted.value)
      else if cross then Ok(ranked[0])
      else
        var same := FirstOf(ranked, Provider(all, id));
        if same.Some? then Ok(same.value) else Err(NoEligibleChannel)
  }

  /**
    What preference and fallback policy admit, without reference to the search: AUTO admits all; a
    preference admits its own channel when that is eligible, else everything if providers may be
    crossed, else the channels of the preferred provider.
   */
  ghost predicate Admits(subs: map<string, Subscription>, p: MasterPreference, eligible: seq<Channel>,
                         all: map<string, Channel>, cross: bool, c: Channel) {
    || p == AUTO
    || (var id := PreferredId(subs, p);
        if id.Some? && exists d :: d in eligible && d.id == id.value then c.id == id.value
        else cross || Some(c.provider) == Provider(all, id))
  }

  lemma {:induction false} FirstWithIdMeaning(ranked: seq<Channel>, id: string)
    ensures match FirstWithId(ranked, id)
            case Some(c) => exists i :: 0 <= i < |ranked| && ranked[i] == c && c.id == id
                                        && forall j :: 0 <= j < i ==> ranked[j].id != id
            case None => forall d :: d in ranked ==> d.id != id
  {
    if ranked != [] && ranked[0].id != id {
      FirstWithIdMeaning(ranked[1..], id);
      if FirstWithId(ranked, id).Some? {
        var c := FirstWithId(ranked, id).value;
        var i :| 0 <= i < |ranked[1..]| && ranked[1..][i] == c && c.id == id && forall j :: 0 <= j < i ==> ranked[1..][j].id != id;
        assert ranked[i + 1] == c;
        assert forall j :: 1 <= j < i + 1 ==> ranked[j] == ranked[1..][j - 1];
      }
    } else if ranked != [] {
      assert ranked[0].id == id;
    }
  }

  lemma {:induction false} FirstOfMeaning(ranked: seq<Channel>, provider: Option<string>)
    ensures match FirstOf(ranked, provider)
            case Some(c) => exists i :: 0 <= i < |ranked| && ranked[i] == c && Some(c.provider) == provider
                                        && forall j :: 0 <= j < i ==> Some(ranked[j].provider) != provider
            case None => forall d :: d in ranked ==> Some(d.provider) != provider
  {
    if ranked != [] && Some(ranked[0].provider) != provider {
      FirstOfMeaning(ranked[1..], provider);
      if FirstOf(ranked, provider).Some? {
        var c := FirstOf(ranked, provider).value;
        var i :| 0 <= i < |ranked[1..]| && ranked[1..][i] == c && Some(c.provider) == provider
                 && forall j :: 0 <= j < i ==> Some(ranked[1..][j].provider) != provider;
        assert ranked[i + 1] == c;
        assert forall j :: 1 <= j < i + 1 ==> ranked[j] == ranked[1..][j - 1];
      }
    } else if ranked != [] {
      assert Some(ranked[0].provider) == provider;
    }
  }

  /** The highest-ranked admitted channel. */
  ghost predicate IsFirstAdmitted(subs: map<string, Subscription>, p: MasterPreference, ranked: seq<Channel>,
                                  all: map<string, Channel>, cross: bool, i: nat)
    requires i < |ranked|
  {
    && Admits(subs, p, ranked, all, cross, ranked[i])
    && forall j :: 0 <= j < i ==> !Admits(subs, p, ranked, all, cross, ranked[j])
  }

  /** select returns the best-ranked admitted channel, and fails exactly when none is admitted. */
  lemma SelectMeaning(subs: map<string, Subscription>, p: MasterPreference, ranked: seq<Channel>,
                      all: map<string, Channel>, cross: bool)
    ensures match Select(subs, p, ranked, all, cross)
            case Ok(c) => exists i :: 0 <= i < |ranked| && ranked[i] == c && IsFirstAdmitted(subs, p, ranked, all, cross, i)
            case Err(_) => forall c :: c in ranked ==> !Admits(subs, p, ranked, all, cross, c)
  {
    if ranked != [] {
      if p == AUTO {
        assert IsFirstAdmitted(subs, p, ranked, all, cross, 0);
      } else {
        SelectPreferred(subs, p, ranked, all, cross);
      }
    }
  }

  lemma SelectPreferred(subs: map<string, Subscription>, p: MasterPreference, ranked: seq<Channel>,
                        all: map<string, Channel>, cross: bool)
    requires ranked != [] && p != AUTO
    ensures match Select(subs, p, ranked, all, cross)
            case Ok(c) => exists i :: 0 <= i < |ranked| && ranked[i] == c && IsFirstAdmitted(subs, p, ranked, all, cross, i)
            case Err(_) => forall c :: c in ranked ==> !Admits(subs, p, ranked, all, cross, c)
  {
    var id := PreferredId(subs, p);
    if id.Some? {
      FirstWithIdMeaning(ranked, id.value);
    }
    if id.Some? && FirstWithId(ranked, id.value).Some? {
      var c := FirstWithId(ranked, id.value).value;
      var i :| 0 <= i < |ranked| && ranked[i] == c && c.id == id.value && forall j :: 0 <= j < i ==> ranked[j].id != id.value;
      assert c in ranked;
      assert IsFirstAdmitted(subs, p, ranked, all, cross, i);
    } else if cross {
      assert IsFirstAdmitted(subs, p, ranked, all, cross, 0);
    } else {
      FirstOfMeaning(ranked, Provider(all, id));
      if FirstOf(ranked, Provider(all, id)).Some? {
        var c := FirstOf(ranked, Provider(all, id)).value;
        var i :| 0 <= i < |ranked| && ranked[i] == c && Some(c.provider) == Provider(all, id)
                 && forall j :: 0 <= j < i ==> Some(ranked[j].provider) != Provider(all, id);
        assert IsFirstAdmitted(subs, p, ranked, all, cross, i);
      }
    }
  }

  // ---- resolve_master_channel, end to end

  function ById(channels: seq<Channel>): map<string, Channel> {
    if channels == [] then map[] else ById(channels[..|channels| - 1])[channels[|channels| - 1].id := channels[|channels| - 1]]
  }

  function ChannelsOf(ranked: seq<Ranked>): seq<Channel> {
    seq(|ranked|, i requires 0 <= i < |ranked| => ranked[i].channel)
  }

  function Resolve(r: Routing, q: Query, p: MasterPreference): Result<Channel>
    requires Complete(r.priority) && q.mode in r.premiumAllowed
  {
    match Rank(r, q)
    case Err(e) => Err(e)
    case Ok(ranked) => Select(r.subscriptions, p, ChannelsOf(ranked), ById(r.channels), r.crossProvider)
  }

  /** Policy admission stated on the configuration alone. */
  ghost predicate Admissible(r: Routing, q: Query, p: MasterPreference, c: Channel)
    requires q.mode in r.premiumAllowed
  {
    && c in r.channels && Eligible(r, q, c)
    && (|| p == AUTO
        || (var id := PreferredId(r.subscriptions, p);
            if id.Some? && exists d :: d in r.channels && Eligible(r, q, d) && d.id == id.value then c.id == id.value
            else r.crossProvider || Some(c.provider) == Provider(ById(r.channels), id)))
  }

  lemma AdmittedIsAdmissible(r: Routing, q: Query, p: MasterPreference, ranked: seq<Ranked>, c: Channel)
    requires Loaded(r) && Rank(r, q) == Ok(ranked)
    ensures Admissible(r, q, p, c) <==>
            c in ChannelsOf(ranked) && Admits(r.subscriptions, p, ChannelsOf(ranked), ById(r.channels), r.crossProvider, c)
  {
    RankMeaning(r, q);
    forall d ensures d in ChannelsOf(ranked) <==> d in r.channels && Eligible(r, q, d) {
      RankedExactlyEligible(r, q, ranked, d);
    }
  }

  lemma RankedExactlyEligible(r: Routing, q: Query, ranked: seq<Ranked>, d: Channel)
    requires Loaded(r) && Rank(r, q) == Ok(ranked)
    ensures d in ChannelsOf(ranked) <==> d in r.channels && Eligible(r, q, d)
  {
    RankMeaning(r, q);
    if d in ChannelsOf(ranked) {
      var i :| 0 <= i < |ranked| && ChannelsOf(ranked)[i] == d;
      assert ranked[i] in ranked;
    }
    if d in r.channels && Eligible(r, q, d) {
      assert Qualifies(r, q, Candidate(r, q, d));
      var i :| 0 <= i < |ranked| && ranked[i] == Candidate(r, q, d);
      assert ChannelsOf(ranked)[i] == d;
    }
  }

  /**
    Routing picks the optimum: no admissible channel has a higher class priority than the resolved
    one; none of its class priority has a higher score, none of its score a higher priority of its
    own, and none that ties in all three a smaller id. Resolution fails exactly when none is admissible.
   */
  lemma ResolveIsOptimal(r: Routing, q: Query, p: MasterPreference)
    requires Loaded(r)
    ensures match Resolve(r, q, p)
            case Ok(c) =>
              && Admissible(r, q, p, c)
              && forall d :: Admissible(r, q, p, d) && d != c ==> InOrder(r.priority, Candidate(r, q, c), Candidate(r, q, d))
            case Err(_) => forall d :: !Admissible(r, q, p, d)
  {
    RankMeaning(r, q);
    if Rank(r, q).Ok? {
      var ranked := Rank(r, q).value;
      var channels := ChannelsOf(ranked);
      var all := ById(r.channels);
      SelectMeaning(r.subscriptions, p, channels, all, r.crossProvider);
      forall d ensures Admissible(r, q, p, d) <==> d in channels && Admits(r.subscriptions, p, channels, all, r.crossProvider, d) {
        AdmittedIsAdmissible(r, q, p, ranked, d);
      }
      if Resolve(r, q, p).Ok? {
        var c := Resolve(r, q, p).value;
        var i :| 0 <= i < |channels| && channels[i] == c && IsFirstAdmitted(r.subscriptions, p, channels, all, r.crossProvider, i);
        assert c in channels;
        forall d | Admissible(r, q, p, d) && d != c
          ensures InOrder(r.priority, Candidate(r, q, c), Candidate(r, q, d))
        {
          var j :| 0 <= j < |channels| && channels[j] == d;
          assert ranked[i] in ranked && ranked[j] in ranked;
          assert ranked[i] == Candidate(r, q, c) && ranked[j] == Candidate(r, q, d);
          BeforeMeaning(r.priority, ranked[i], ranked[j]);
        }
      }
    }
  }
}
