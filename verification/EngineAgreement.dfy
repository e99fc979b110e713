/** When two engines give the same to every later pass over the held streams. */
module EngineAgreement {
  import opened Wire
  import opened Correlation
  import opened Bags
  import opened Folds
  import opened Engine
  import opened EngineInvariant
  import opened EngineConfluence
  import opened EngineViews

  // ---------------------------------------------------------------------------
  // Equality up to the observer's own clock
  // ---------------------------------------------------------------------------

  function Visible(s: Engine): View
  {
    ViewOf(s).(responses := 0)
  }

  /** Same tables, counters and trace position; only the instants at which calls
      started to be tracked, and the bookkeeping, may differ. */
  ghost predicate Same(u: Engine, v: Engine)
  {
    Visible(u) == Visible(v)
  }

  lemma {:induction false} SamplesVisible(v: View, cid: Cid, xs: seq<HeldSample>)
    ensures SamplesV(v.(responses := 0), cid, xs) == SamplesV(v, cid, xs).(responses := 0)
    decreases |xs|
  {
    if xs != [] {
      assert SampleV(v.(responses := 0), cid, xs[0]) == SampleV(v, cid, xs[0]).(responses := 0);
      SamplesVisible(SampleV(v, cid, xs[0]), cid, xs[1..]);
    }
  }

  lemma ReplayVisible(s: Engine, cid: Cid)
    ensures Visible(Replay(s, cid)) == ReplayV(Visible(s), cid)
  {
    ReplayIsView(s, cid);
    SamplesVisible(WithoutHeld(ViewOf(s), cid), cid, HeldFor(s.deferred, cid));
  }

  lemma {:induction false} SameReplays(u: Engine, v: Engine, ks: seq<Cid>)
    requires Same(u, v)
    ensures Same(Fold(u, ks, Replay), Fold(v, ks, Replay))
    decreases |ks|
  {
    if ks != [] {
      ReplayVisible(u, ks[0]);
      ReplayVisible(v, ks[0]);
      SameReplays(Replay(u, ks[0]), Replay(v, ks[0]), ks[1..]);
    }
  }

  lemma ForfeitVisible(s: Engine, cid: Cid)
    ensures Visible(Forfeit(s, cid)) == ForfeitV(Visible(s), cid)
  {
    ForfeitIsView(s, cid);
  }

  lemma {:induction false} SameForfeits(u: Engine, v: Engine, ks: seq<Cid>)
    requires Same(u, v)
    ensures Same(Fold(u, ks, Forfeit), Fold(v, ks, Forfeit))
    decreases |ks|
  {
    if ks != [] {
      ForfeitVisible(u, ks[0]);
      ForfeitVisible(v, ks[0]);
      SameForfeits(Forfeit(u, ks[0]), Forfeit(v, ks[0]), ks[1..]);
    }
  }

  lemma SameTables(u: Engine, v: Engine)
    requires Same(u, v)
    ensures u.deferred == v.deferred && u.calls.Keys == v.calls.Keys && u.counters == v.counters
  {
    var a, b := Visible(u), Visible(v);
    assert a.calls.Keys == u.calls.Keys && b.calls.Keys == v.calls.Keys;
    assert a.deferred == u.deferred && b.deferred == v.deferred && a.counters == u.counters && b.counters == v.counters;
  }

  // ---------------------------------------------------------------------------
  // A pass that replays one stream more
  // ---------------------------------------------------------------------------

  /** Replaying a stream touches no other call and no other held stream. */
  lemma {:induction false} ReplayTouchesOne(s: Engine, cid: Cid, xs: seq<HeldSample>)
    ensures ReplaySamples(s, cid, xs).calls - {cid} == s.calls - {cid}
    ensures ReplaySamples(s, cid, xs).deferred == s.deferred
    ensures ReplaySamples(s, cid, xs).counters.orphan == s.counters.orphan
    decreases |xs|
  {
    if xs != [] {
      SampleTouchesOne(s, cid, xs[0]);
      ReplayTouchesOne(ReplaySample(s, cid, xs[0]), cid, xs[1..]);
    }
  }

  lemma SampleTouchesOne(s: Engine, cid: Cid, x: HeldSample)
    ensures ReplaySample(s, cid, x).calls - {cid} == s.calls - {cid}
    ensures ReplaySample(s, cid, x).deferred == s.deferred
    ensures ReplaySample(s, cid, x).counters.orphan == s.counters.orphan
  {
    if cid in s.calls {
      MatchIsView(s, cid, x, ReplaySample(s, cid, x));
      AfterTouchesOne(s.calls, cid, x.header.kind.IsTerminal());
    }
  }

  lemma AfterTouchesOne(calls: Calls, cid: Cid, terminal: bool)
    requires cid in calls
    ensures AfterResponse(calls, cid, terminal) - {cid} == calls - {cid}
  {
  }

  lemma ReadyAfter(u: Engine, v: Engine, cid: Cid)
    requires cid in u.deferred && cid in u.calls
    requires v.deferred - {cid} == u.deferred - {cid} && v.calls.Keys - {cid} == u.calls.Keys - {cid}
    requires cid !in Ready(v)
    ensures Ready(u) == Ready(v) + {cid}
  {
    forall c ensures c in Ready(u) <==> c in Ready(v) + {cid} {
      if c != cid {
        assert c in u.deferred <==> c in u.deferred - {cid};
        assert c in v.deferred <==> c in v.deferred - {cid};
        assert c in u.calls <==> c in u.calls.Keys - {cid};
        assert c in v.calls <==> c in v.calls.Keys - {cid};
      }
    }
  }

  lemma ListsFront(ks: seq<Cid>, keys: set<Cid>, k: Cid)
    requires Lists(ks, keys) && k !in keys
    ensures Lists([k] + ks, keys + {k})
  {
  }

  /** A resolve pass may start with any one of the ready ids. */
  lemma ResolveFrom(u: Engine, cid: Cid, rest: seq<Cid>, ready: seq<Cid>, expired: seq<Cid>, now: nat)
    requires ResolveOrders(u, ready, expired, now)
    requires Lists([cid] + rest, Ready(u))
    ensures var mid := Fold(Replay(u, cid), rest, Replay);
            Lists(expired, Expired(mid, now)) && Resolve(u, ready, expired) == Fold(mid, expired, Forfeit)
  {
    AllStepsCommute();
    FoldPermutation(u, ready, [cid] + rest, Replay);
    assert ([cid] + rest)[1..] == rest;
  }

  lemma ForfeitOrder(s: Engine, a: seq<Cid>, b: seq<Cid>)
    requires multiset(a) == multiset(b)
    ensures Fold(s, a, Forfeit) == Fold(s, b, Forfeit)
  {
    AllStepsCommute();
    FoldPermutation(s, a, b, Forfeit);
  }

  lemma OthersUntouched(u: Engine, cid: Cid)
    requires cid in u.deferred
    ensures var r := Replay(u, cid);
            r.deferred == u.deferred - {cid} && r.calls.Keys - {cid} == u.calls.Keys - {cid}
            && r.counters.orphan == u.counters.orphan
  {
    ReplayTouchesOne(u.(deferred := u.deferred - {cid}), cid, u.deferred[cid].samples);
    assert (Replay(u, cid).calls - {cid}).Keys == (u.calls - {cid}).Keys;
  }

  /** Whatever the time and the orders of a resolve pass over each of two states, the
      results are the same. */
  ghost predicate Agree(u: Engine, v: Engine)
  {
    forall now: nat, ready: seq<Cid>, expired: seq<Cid>, ready': seq<Cid>, expired': seq<Cid> ::
      ResolveOrders(u, ready, expired, now) && ResolveOrders(v, ready', expired', now)
      ==> Same(Resolve(u, ready, expired), Resolve(v, ready', expired'))
  }

  /** ... or they always differ. */
  ghost predicate Differ(u: Engine, v: Engine)
  {
    forall now: nat, ready: seq<Cid>, expired: seq<Cid>, ready': seq<Cid>, expired': seq<Cid> ::
      ResolveOrders(u, ready, expired, now) && ResolveOrders(v, ready', expired', now)
      ==> !Same(Resolve(u, ready, expired), Resolve(v, ready', expired'))
  }

  lemma SameResolve(u: Engine, v: Engine, now: nat, ready: seq<Cid>, expired: seq<Cid>, ready': seq<Cid>, expired': seq<Cid>)
    requires Same(u, v) && ResolveOrders(u, ready, expired, now) && ResolveOrders(v, ready', expired', now)
    ensures Same(Resolve(u, ready, expired), Resolve(v, ready', expired'))
  {
    SameTables(u, v);
    assert Ready(u) == Ready(v);
    AllStepsCommute();
    FoldPermutation(u, ready, ready', Replay);
    SameReplays(u, v, ready');
    var mu, mv := Fold(u, ready', Replay), Fold(v, ready', Replay);
    SameTables(mu, mv);
    assert Expired(mu, now) == Expired(mv, now);
    FoldPermutation(mu, expired, expired', Forfeit);
    SameForfeits(mu, mv, expired');
  }

  lemma SameAgree(u: Engine, v: Engine)
    requires Same(u, v)
    ensures Agree(u, v)
  {
    forall now: nat, ready: seq<Cid>, expired: seq<Cid>, ready': seq<Cid>, expired': seq<Cid>
      | ResolveOrders(u, ready, expired, now) && ResolveOrders(v, ready', expired', now)
      ensures Same(Resolve(u, ready, expired), Resolve(v, ready', expired'))
    {
      SameResolve(u, v, now, ready, expired, ready', expired');
    }
  }

  lemma CaughtUpAgree(u: Engine, v: Engine, cid: Cid)
    requires cid in u.deferred && cid in u.calls && Same(Replay(u, cid), v)
    ensures Agree(u, v)
  {
    forall now: nat, ready: seq<Cid>, expired: seq<Cid>, ready': seq<Cid>, expired': seq<Cid>
      | ResolveOrders(u, ready, expired, now) && ResolveOrders(v, ready', expired', now)
      ensures Same(Resolve(u, ready, expired), Resolve(v, ready', expired'))
    {
      ResolveCatchesUp(u, v, cid, now, ready, expired, ready', expired');
    }
  }

  /** Once one replay makes two states alike, so does a whole resolve pass. */
  lemma ResolveCatchesUp(u: Engine, v: Engine, cid: Cid, now: nat,
                         ready: seq<Cid>, expired: seq<Cid>, ready': seq<Cid>, expired': seq<Cid>)
    requires cid in u.deferred && cid in u.calls && Same(Replay(u, cid), v)
    requires ResolveOrders(u, ready, expired, now) && ResolveOrders(v, ready', expired', now)
    ensures Same(Resolve(u, ready, expired), Resolve(v, ready', expired'))
  {
    var r := Replay(u, cid);
    OthersUntouched(u, cid);
    SameTables(r, v);
    ReadyAfter(u, v, cid);
    ListsFront(ready', Ready(v), cid);
    ResolveFrom(u, cid, ready', ready, expired, now);
    SameReplays(r, v, ready');
    var mu, mv := Fold(r, ready', Replay), Fold(v, ready', Replay);
    SameTables(mu, mv);
    assert Expired(mu, now) == Expired(mv, now);
    ForfeitOrder(mu, expired, expired');
    SameForfeits(mu, mv, expired');
  }

  // ---------------------------------------------------------------------------
  // A pass that can no longer catch up
  // ---------------------------------------------------------------------------

  /** `v` is `r` plus one held stream. */
  ghost predicate Lags(r: Engine, v: Engine, cid: Cid)
  {
    && r.deferred == v.deferred - {cid}
    && cid in v.deferred && v.deferred[cid].samples != []
    && r.counters.orphan == v.counters.orphan
  }

  lemma {:induction false} LagStays(r: Engine, v: Engine, cid: Cid, ks: seq<Cid>)
    requires Lags(r, v, cid) && cid !in ks
    ensures Lags(Fold(r, ks, Replay), Fold(v, ks, Replay), cid)
    decreases |ks|
  {
    if ks != [] {
      var k := ks[0];
      assert k in ks && k != cid;
      LagStep(r, v, cid, k);
      LagStays(Replay(r, k), Replay(v, k), cid, ks[1..]);
    }
  }

  lemma LagStep(r: Engine, v: Engine, cid: Cid, k: Cid)
    requires Lags(r, v, cid) && k != cid
    ensures Lags(Replay(r, k), Replay(v, k), cid)
  {
    assert k in r.deferred <==> k in v.deferred;
    if k in v.deferred {
      OthersUntouched(r, k);
      OthersUntouched(v, k);
      assert r.deferred - {k} == v.deferred - {k} - {cid};
    }
  }

  /** Orphans counted plus samples held. */
  ghost function Weight(s: Engine): nat
  {
    |s.counters.orphan| + |HeldTags(s.deferred)|
  }

  lemma {:induction false} ForfeitsKeepWeight(s: Engine, ks: seq<Cid>)
    ensures Weight(Fold(s, ks, Forfeit)) == Weight(s)
    decreases |ks|
  {
    if ks != [] {
      if ks[0] in s.deferred {
        BagRemove(s.deferred, TAGS, ks[0]);
        TagsSize(s.deferred[ks[0]].samples);
      }
      ForfeitsKeepWeight(Forfeit(s, ks[0]), ks[1..]);
    }
  }

  lemma LagWeighs(r: Engine, v: Engine, cid: Cid)
    requires Lags(r, v, cid)
    ensures Weight(r) < Weight(v)
  {
    BagRemove(v.deferred, TAGS, cid);
    TagsSize(v.deferred[cid].samples);
  }

  /** A resolve pass that replays one stream more never catches up with a state
      that still holds samples of it: they stay held or are counted as orphans. */
  lemma ResolveStaysBehind(u: Engine, v: Engine, cid: Cid, now: nat,
                           ready: seq<Cid>, expired: seq<Cid>, ready': seq<Cid>, expired': seq<Cid>)
    requires cid in u.deferred && cid in u.calls && cid !in v.calls
    requires v.deferred - {cid} == u.deferred - {cid} && v.calls.Keys - {cid} == u.calls.Keys - {cid}
    requires Lags(Replay(u, cid), v, cid)
    requires ResolveOrders(u, ready, expired, now) && ResolveOrders(v, ready', expired', now)
    ensures !Same(Resolve(u, ready, expired), Resolve(v, ready', expired'))
  {
    ReadyAfter(u, v, cid);
    ListsFront(ready', Ready(v), cid);
    ListsMembers(ready', Ready(v));
    ResolveFrom(u, cid, ready', ready, expired, now);
    LagStays(Replay(u, cid), v, cid, ready');
    var mu, mv := Fold(Replay(u, cid), ready', Replay), Fold(v, ready', Replay);
    LagWeighs(mu, mv, cid);
    ForfeitsKeepWeight(mu, expired);
    ForfeitsKeepWeight(mv, expired');
    var fu, fv := Resolve(u, ready, expired), Resolve(v, ready', expired');
    if Same(fu, fv) { SameTables(fu, fv); }
  }

  // ---------------------------------------------------------------------------
  // Passes that replay the same streams, over states that differ in one call
  // ---------------------------------------------------------------------------

  /** The same orphans, and the same held for every call but one. */
  ghost predicate Aside(u: Engine, v: Engine, cid: Cid)
  {
    u.deferred - {cid} == v.deferred - {cid} && u.counters.orphan == v.counters.orphan
  }

  lemma AsideStep(u: Engine, v: Engine, cid: Cid, k: Cid)
    requires Aside(u, v, cid) && k != cid
    ensures Aside(Replay(u, k), Replay(v, k), cid)
    ensures HeldFor(Replay(u, k).deferred, cid) == HeldFor(u.deferred, cid)
    ensures HeldFor(Replay(v, k).deferred, cid) == HeldFor(v.deferred, cid)
  {
    assert k in u.deferred <==> k in u.deferred - {cid};
    assert k in v.deferred <==> k in v.deferred - {cid};
    if k in u.deferred {
      OthersUntouched(u, k);
      OthersUntouched(v, k);
      assert u.deferred - {k} - {cid} == u.deferred - {cid} - {k};
      assert v.deferred - {k} - {cid} == v.deferred - {cid} - {k};
    }
  }

  lemma {:induction false} AsideStays(u: Engine, v: Engine, cid: Cid, ks: seq<Cid>)
    requires Aside(u, v, cid) && cid !in ks
    ensures Aside(Fold(u, ks, Replay), Fold(v, ks, Replay), cid)
    ensures HeldFor(Fold(u, ks, Replay).deferred, cid) == HeldFor(u.deferred, cid)
    ensures HeldFor(Fold(v, ks, Replay).deferred, cid) == HeldFor(v.deferred, cid)
    decreases |ks|
  {
    if ks != [] {
      assert ks[0] in ks;
      AsideStep(u, v, cid, ks[0]);
      AsideStays(Replay(u, ks[0]), Replay(v, ks[0]), cid, ks[1..]);
    }
  }

  lemma WeightOf(s: Engine, cid: Cid)
    ensures Weight(s) == |s.counters.orphan| + |HeldTags(s.deferred - {cid})| + |HeldFor(s.deferred, cid)|
  {
    if cid in s.deferred {
      BagRemove(s.deferred, TAGS, cid);
      TagsSize(s.deferred[cid].samples);
    } else {
      assert s.deferred - {cid} == s.deferred;
    }
  }

  /** The two states track the same calls but one, which neither replays. */
  ghost predicate Closed(u: Engine, v: Engine, cid: Cid)
  {
    Aside(u, v, cid) && cid !in u.calls && cid !in v.calls && u.calls.Keys == v.calls.Keys
  }

  lemma ClosedReady(u: Engine, v: Engine, cid: Cid)
    requires Closed(u, v, cid)
    ensures Ready(u) == Ready(v) && cid !in Ready(u)
  {
    forall c ensures c in Ready(u) <==> c in Ready(v) {
      if c != cid {
        assert c in u.deferred <==> c in u.deferred - {cid};
        assert c in v.deferred <==> c in v.deferred - {cid};
      }
    }
  }

  lemma ReplayOrder(u: Engine, a: seq<Cid>, b: seq<Cid>)
    requires multiset(a) == multiset(b)
    ensures Fold(u, a, Replay) == Fold(u, b, Replay)
  {
    AllStepsCommute();
    FoldPermutation(u, a, b, Replay);
  }

  /** Holding more or less for a closed call is never made up for. */
  lemma ClosedDiffer(u: Engine, v: Engine, cid: Cid)
    requires Closed(u, v, cid) && |HeldFor(u.deferred, cid)| != |HeldFor(v.deferred, cid)|
    ensures Differ(u, v)
  {
    ClosedReady(u, v, cid);
    forall now: nat, ready: seq<Cid>, expired: seq<Cid>, ready': seq<Cid>, expired': seq<Cid>
      | ResolveOrders(u, ready, expired, now) && ResolveOrders(v, ready', expired', now)
      ensures !Same(Resolve(u, ready, expired), Resolve(v, ready', expired'))
    {
      ClosedPass(u, v, cid, now, ready, expired, ready', expired');
    }
  }

  lemma ClosedPass(u: Engine, v: Engine, cid: Cid, now: nat,
                   ready: seq<Cid>, expired: seq<Cid>, ready': seq<Cid>, expired': seq<Cid>)
    requires Closed(u, v, cid) && |HeldFor(u.deferred, cid)| != |HeldFor(v.deferred, cid)|
    requires ResolveOrders(u, ready, expired, now) && ResolveOrders(v, ready', expired', now)
    ensures !Same(Resolve(u, ready, expired), Resolve(v, ready', expired'))
  {
    ClosedReady(u, v, cid);
    ReplayOrder(u, ready, ready');
    ListsMembers(ready', Ready(v));
    AsideStays(u, v, cid, ready');
    var mu, mv := Fold(u, ready', Replay), Fold(v, ready', Replay);
    WeightOf(mu, cid);
    WeightOf(mv, cid);
    ForfeitsKeepWeight(mu, expired);
    ForfeitsKeepWeight(mv, expired');
    var fu, fv := Resolve(u, ready, expired), Resolve(v, ready', expired');
    if Same(fu, fv) { SameTables(fu, fv); }
  }

  /** Holding other responses for a closed call shows as long as they are held. */
  lemma ClosedDisagree(u: Engine, v: Engine, cid: Cid)
    requires Closed(u, v, cid) && HeldFor(u.deferred, cid) != HeldFor(v.deferred, cid)
    ensures !Agree(u, v)
  {
    ClosedReady(u, v, cid);
    var ready, expired := SomeOrders(u, 0);
    var ready', expired' := SomeOrders(v, 0);
    NothingExpires(Fold(u, ready, Replay), expired);
    NothingExpires(Fold(v, ready', Replay), expired');
    ReplayOrder(u, ready, ready');
    ListsMembers(ready', Ready(v));
    AsideStays(u, v, cid, ready');
    var fu, fv := Resolve(u, ready, expired), Resolve(v, ready', expired');
    if Same(fu, fv) { SameTables(fu, fv); }
    assert !Same(fu, fv);
  }

  /** At time 0 nothing has been held for any time. */
  lemma NothingExpires(s: Engine, expired: seq<Cid>)
    requires Lists(expired, Expired(s, 0))
    ensures Fold(s, expired, Forfeit) == s
  {
    assert Expired(s, 0) == {};
    assert |multiset(expired)| == |expired|;
    assert expired == [];
  }

  // ---------------------------------------------------------------------------
  // Passes over states that differ in one record
  // ---------------------------------------------------------------------------

  /** `u` and `v` are alike but for the records `m`, `n` and `m'`, `n'`. */
  ghost predicate Offset(u: Engine, v: Engine, m: multiset<LatencySample>, n: nat, m': multiset<LatencySample>, n': nat)
  {
    AddV(Visible(u), m, n) == AddV(Visible(v), m', n')
  }

  lemma {:induction false} OffsetReplays(u: Engine, v: Engine, m: multiset<LatencySample>, n: nat,
                                         m': multiset<LatencySample>, n': nat, ks: seq<Cid>)
    requires Offset(u, v, m, n, m', n')
    ensures Offset(Fold(u, ks, Replay), Fold(v, ks, Replay), m, n, m', n')
    decreases |ks|
  {
    if ks != [] {
      var k := ks[0];
      ReplayVisible(u, k);
      ReplayVisible(v, k);
      AddReplay(Visible(u), m, n, k);
      AddReplay(Visible(v), m', n', k);
      OffsetReplays(Replay(u, k), Replay(v, k), m, n, m', n', ks[1..]);
    }
  }

  lemma AddForfeit(v: View, m: multiset<LatencySample>, n: nat, cid: Cid)
    ensures ForfeitV(AddV(v, m, n), cid) == AddV(ForfeitV(v, cid), m, n)
  {
  }

  lemma {:induction false} OffsetForfeits(u: Engine, v: Engine, m: multiset<LatencySample>, n: nat,
                                          m': multiset<LatencySample>, n': nat, ks: seq<Cid>)
    requires Offset(u, v, m, n, m', n')
    ensures Offset(Fold(u, ks, Forfeit), Fold(v, ks, Forfeit), m, n, m', n')
    decreases |ks|
  {
    if ks != [] {
      var k := ks[0];
      ForfeitVisible(u, k);
      ForfeitVisible(v, k);
      AddForfeit(Visible(u), m, n, k);
      AddForfeit(Visible(v), m', n', k);
      OffsetForfeits(Forfeit(u, k), Forfeit(v, k), m, n, m', n', ks[1..]);
    }
  }

  lemma OffsetTables(u: Engine, v: Engine, m: multiset<LatencySample>, n: nat, m': multiset<LatencySample>, n': nat)
    requires Offset(u, v, m, n, m', n')
    ensures u.deferred == v.deferred && u.calls.Keys == v.calls.Keys
    ensures Same(u, v) ==> m == m' && n == n'
  {
    var a, b := AddV(Visible(u), m, n), AddV(Visible(v), m', n');
    assert Visible(u).calls.Keys == u.calls.Keys && Visible(v).calls.Keys == v.calls.Keys;
    assert a.deferred == u.deferred && b.deferred == v.deferred;
    assert a.calls == Visible(u).calls && b.calls == Visible(v).calls;
    if Same(u, v) {
      var l := Visible(u).counters.latency;
      assert a.counters.latency == l + m && b.counters.latency == l + m';
      assert l + m - l == m && l + m' - l == m';
    }
  }

  /** Once the held stream is replayed the states differ in their record: a pass
      replaces no record. */
  lemma OffsetDiffer(u: Engine, v: Engine, cid: Cid, m: multiset<LatencySample>, n: nat, m': multiset<LatencySample>, n': nat)
    requires cid in u.deferred && cid in u.calls && Offset(Replay(u, cid), v, m, n, m', n') && (m != m' || n != n')
    ensures Differ(u, v)
  {
    forall now: nat, ready: seq<Cid>, expired: seq<Cid>, ready': seq<Cid>, expired': seq<Cid>
      | ResolveOrders(u, ready, expired, now) && ResolveOrders(v, ready', expired', now)
      ensures !Same(Resolve(u, ready, expired), Resolve(v, ready', expired'))
    {
      OffsetPass(u, v, cid, m, n, m', n', now, ready, expired, ready', expired');
    }
  }

  lemma OffsetPass(u: Engine, v: Engine, cid: Cid, m: multiset<LatencySample>, n: nat, m': multiset<LatencySample>, n': nat,
                   now: nat, ready: seq<Cid>, expired: seq<Cid>, ready': seq<Cid>, expired': seq<Cid>)
    requires cid in u.deferred && cid in u.calls && Offset(Replay(u, cid), v, m, n, m', n') && (m != m' || n != n')
    requires ResolveOrders(u, ready, expired, now) && ResolveOrders(v, ready', expired', now)
    ensures !Same(Resolve(u, ready, expired), Resolve(v, ready', expired'))
  {
    var r := Replay(u, cid);
    OthersUntouched(u, cid);
    OffsetTables(r, v, m, n, m', n');
    ReadyAfter(u, v, cid);
    ListsFront(ready', Ready(v), cid);
    ResolveFrom(u, cid, ready', ready, expired, now);
    OffsetReplays(r, v, m, n, m', n', ready');
    var mu, mv := Fold(r, ready', Replay), Fold(v, ready', Replay);
    OffsetTables(mu, mv, m, n, m', n');
    assert Expired(mu, now) == Expired(mv, now);
    ForfeitOrder(mu, expired, expired');
    OffsetForfeits(mu, mv, m, n, m', n', expired');
    OffsetTables(Fold(mu, expired', Forfeit), Fold(mv, expired', Forfeit), m, n, m', n');
  }

  lemma {:induction false} AnOrder(keys: set<Cid>) returns (ks: seq<Cid>)
    ensures Lists(ks, keys)
    decreases keys
  {
    if keys == {} {
      ks := [];
    } else {
      var k :| k in keys;
      ks := AnOrder(keys - {k});
      ListsAdd(ks, keys - {k}, k);
      assert keys - {k} + {k} == keys;
      ks := ks + [k];
    }
  }

  /** Every state can be resolved, in some orders. */
  lemma SomeOrders(s: Engine, now: nat) returns (ready: seq<Cid>, expired: seq<Cid>)
    ensures ResolveOrders(s, ready, expired, now)
  {
    ready := AnOrder(Ready(s));
    expired := AnOrder(Expired(Fold(s, ready, Replay), now));
  }

  lemma NeverBoth(u: Engine, v: Engine)
    requires Agree(u, v)
    ensures !Differ(u, v)
  {
    var ready, expired := SomeOrders(u, 0);
    var ready', expired' := SomeOrders(v, 0);
    assert Same(Resolve(u, ready, expired), Resolve(v, ready', expired'));
  }
}
