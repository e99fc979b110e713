/** Conservation laws of the correlation engine, over every run. */
module EngineInvariant {
  import opened Wire
  import opened Correlation
  import opened Bags
  import opened Folds
  import opened Engine

  // ---------------------------------------------------------------------------
  // Bags read off the tables
  // ---------------------------------------------------------------------------

  ghost const KEY: PendingCall -> multiset<Key> := (c: PendingCall) => multiset{KeyOf(c)}
  ghost const SERIAL: PendingCall -> multiset<nat> := (c: PendingCall) => multiset{c.serial}
  ghost const TAGS: DeferredResponses -> multiset<nat> := (d: DeferredResponses) => Tags(d.samples)

  ghost function TrackedKeys(calls: Calls): multiset<Key> { Bag(calls, KEY) }
  ghost function TrackedSerials(calls: Calls): multiset<nat> { Bag(calls, SERIAL) }
  ghost function HeldTags(table: DeferredTable): multiset<nat> { Bag(table, TAGS) }

  // ---------------------------------------------------------------------------
  // The invariant, one law per predicate
  // ---------------------------------------------------------------------------

  /** The gauge counts the tracked calls of a key, plus those a reused id hid. */
  ghost predicate GaugeLaw(calls: Calls, inflight: map<Key, int>, hidden: multiset<Key>)
  {
    forall k: Key :: Level(inflight, k) == TrackedKeys(calls)[k] + hidden[k]
  }

  /** Every request is tracked, closed, given up or overwritten: exactly one. */
  ghost predicate RequestLaw(calls: Calls, l: Ledger)
  {
    TrackedSerials(calls) + l.closed + l.unmatched + l.overwritten == Arrivals(l.requests)
  }

  /** Every response has exactly one fate, except the `loose` ones being handled. */
  ghost predicate ResponseLaw(deferred: DeferredTable, l: Ledger, loose: multiset<nat>)
  {
    HeldTags(deferred) + l.direct + l.replayed + l.orphaned + l.triggers + l.behind + loose
    == Arrivals(l.responses)
  }

  /** The exported counters agree with the ledger. */
  ghost predicate CounterLaw(c: Counters, l: Ledger)
  {
    && |c.requests| == l.requests
    && |c.unmatched| == |l.unmatched|
    && |l.overwrittenKeys| == |l.overwritten|
    && |c.responses| == l.responses
    && |c.orphan| == |l.orphaned|
    && |c.latency| + c.clockSkew == |l.measured|
  }

  /** A call is measured once if a response ever matched it, and never otherwise. */
  ghost predicate LatencyLaw(calls: Calls, requests: nat, closed: multiset<nat>, matched: multiset<nat>, measured: multiset<nat>)
  {
    && (forall n: nat :: measured[n] == if n in matched then 1 else 0)
    && (forall n: nat :: n in matched ==> n < requests)
    && (forall c :: c in calls ==> (calls[c].firstResponseSeen <==> calls[c].serial in matched))
    && (forall n: nat :: n in closed ==> n in matched)
  }

  function AtLeastOne(n: nat): nat { if n == 0 then 1 else n }

  ghost predicate HeldBounds(deferred: DeferredTable)
  {
    && |deferred| <= MAX_DEFERRED
    && (forall c :: c in deferred ==> 1 <= |deferred[c].samples| <= MAX_DEFERRED_SAMPLES)
    && (forall c, i :: c in deferred && 0 <= i < |deferred[c].samples| ==> deferred[c].samples[i].header.cid == c)
  }

  /** How many of the first `n` completed calls a counter that wraps at 2^64
      offers to the sink, one in `rate`. */
  ghost function OfferedAfter(n: nat, rate: nat): nat
    requires rate > 0
  {
    if n == 0 then 0 else OfferedAfter(n - 1, rate) + if n % U64_RANGE % rate == 0 then 1 else 0
  }

  ghost predicate TraceLaw(rate: nat, traced: nat, offered: nat, closed: nat)
  {
    rate > 0 ==> traced == closed % U64_RANGE && offered == OfferedAfter(closed, rate)
  }

  /** The laws, while the responses tagged `loose` are being handled and `open`
      matches have not been booked under a fate yet. */
  ghost predicate Laws(s: Engine, loose: multiset<nat>, open: nat)
  {
    && GaugeLaw(s.calls, s.counters.inflight, s.ledger.overwrittenKeys)
    && RequestLaw(s.calls, s.ledger)
    && ResponseLaw(s.deferred, s.ledger, loose)
    && CounterLaw(s.counters, s.ledger)
    && |s.ledger.matched| == |s.ledger.direct| + |s.ledger.replayed| + open
    && LatencyLaw(s.calls, s.ledger.requests, s.ledger.closed, s.ledger.matched, s.ledger.measured)
    && |s.calls| <= AtLeastOne(s.config.maxInflight)
    && HeldBounds(s.deferred)
    && TraceLaw(s.config.sampleRate, s.traced, s.offered, |s.ledger.closed|)
  }

  ghost predicate Inv(s: Engine) { Laws(s, multiset{}, 0) }

  // ---------------------------------------------------------------------------
  // Every operation keeps it
  // ---------------------------------------------------------------------------

  lemma Less<K, V>(m: map<K, V>, k: K)
    requires k in m
    ensures |m - {k}| == |m| - 1
  {
    assert m.Keys == (m - {k}).Keys + {k};
  }

  lemma More<K, V>(m: map<K, V>, k: K, v: V)
    ensures |m[k := v]| == if k in m then |m| else |m| + 1
  {
    assert m[k := v].Keys == m.Keys + {k};
  }

  // Requests

  lemma LowerGauge(calls: Calls, inflight: map<Key, int>, hidden: multiset<Key>, cid: Cid)
    requires GaugeLaw(calls, inflight, hidden) && cid in calls
    ensures GaugeLaw(calls - {cid}, Adjust(inflight, KeyOf(calls[cid]), -1), hidden)
  {
    BagRemove(calls, KEY, cid);
  }

  lemma RaiseGauge(calls: Calls, inflight: map<Key, int>, hidden: multiset<Key>, cid: Cid, call: PendingCall)
    requires GaugeLaw(calls, inflight, hidden)
    ensures var lost := if cid in calls then multiset{KeyOf(calls[cid])} else multiset{};
            GaugeLaw(calls[cid := call], Adjust(inflight, KeyOf(call), 1), hidden + lost)
  {
    BagStore(calls, KEY, cid, call);
  }

  lemma RetireRequests(calls: Calls, l: Ledger, cid: Cid)
    requires RequestLaw(calls, l) && cid in calls
    requires LatencyLaw(calls, l.requests, l.closed, l.matched, l.measured)
    ensures RequestLaw(calls - {cid}, l.(unmatched := l.unmatched + multiset{calls[cid].serial}))
    ensures LatencyLaw(calls - {cid}, l.requests, l.closed, l.matched, l.measured)
  {
    BagRemove(calls, SERIAL, cid);
  }

  lemma RetireTracked(s: Engine, t: Engine, cid: Cid, loose: multiset<nat>)
    requires Laws(s, loose, 0) && cid in s.calls && t == Retire(s, cid)
    ensures Laws(t, loose, 0)
    ensures |t.calls| == |s.calls| - 1
  {
    LowerGauge(s.calls, s.counters.inflight, s.ledger.overwrittenKeys, cid);
    RetireRequests(s.calls, s.ledger, cid);
    Less(s.calls, cid);
    assert ResponseLaw(t.deferred, t.ledger, loose);
    assert CounterLaw(t.counters, t.ledger);
  }

  lemma RetireKeeps(s: Engine, cid: Cid, loose: multiset<nat>)
    requires Laws(s, loose, 0)
    ensures Laws(Retire(s, cid), loose, 0)
    ensures cid in s.calls ==> |Retire(s, cid).calls| == |s.calls| - 1
  {
    if cid in s.calls { RetireTracked(s, Retire(s, cid), cid, loose); }
  }

  lemma TrackRequests(calls: Calls, l: Ledger, cid: Cid, call: PendingCall, l': Ledger)
    requires RequestLaw(calls, l) && call.serial == l.requests
    requires l'.requests == l.requests + 1 && l'.closed == l.closed && l'.unmatched == l.unmatched
    requires l'.overwritten == l.overwritten + if cid in calls then multiset{calls[cid].serial} else multiset{}
    ensures RequestLaw(calls[cid := call], l')
  {
    BagStore(calls, SERIAL, cid, call);
  }

  lemma TrackLatency(calls: Calls, l: Ledger, cid: Cid, call: PendingCall)
    requires LatencyLaw(calls, l.requests, l.closed, l.matched, l.measured)
    requires !call.firstResponseSeen && call.serial == l.requests
    ensures LatencyLaw(calls[cid := call], l.requests + 1, l.closed, l.matched, l.measured)
  {
  }

  lemma TrackCounts(c: Counters, l: Ledger, series: RequestSeries, lost: multiset<nat>, lostKeys: multiset<Key>)
    requires CounterLaw(c, l) && |lost| == |lostKeys|
    ensures CounterLaw(c.(requests := c.requests + multiset{series}),
                       l.(requests := l.requests + 1, overwritten := l.overwritten + lost,
                          overwrittenKeys := l.overwrittenKeys + lostKeys))
  {
    assert |c.requests + multiset{series}| == |c.requests| + 1;
  }

  /** Tracking touches the requests, the gauge and what a reused id hides, and no more. */
  lemma TrackTouches(s: Engine, cid: Cid, call: PendingCall, t: Engine)
    requires t == Track(s, cid, call)
    ensures t.config == s.config && t.deferred == s.deferred && t.traced == s.traced && t.offered == s.offered
    ensures t.calls == s.calls[cid := call]
    ensures t.counters.inflight == Adjust(s.counters.inflight, KeyOf(call), 1)
    ensures var lost := if cid in s.calls then multiset{s.calls[cid].serial} else multiset{};
      var lostKeys := if cid in s.calls then multiset{KeyOf(s.calls[cid])} else multiset{};
      t.ledger == s.ledger.(requests := s.ledger.requests + 1, overwritten := s.ledger.overwritten + lost,
                            overwrittenKeys := s.ledger.overwrittenKeys + lostKeys)
    ensures CounterLaw(s.counters, s.ledger) ==> CounterLaw(t.counters, t.ledger)
  {
    if CounterLaw(s.counters, s.ledger) {
      TrackCounts(s.counters, s.ledger, RequestSeries(call.channel, call.serviceId, call.methodName),
                  if cid in s.calls then multiset{s.calls[cid].serial} else multiset{},
                  if cid in s.calls then multiset{KeyOf(s.calls[cid])} else multiset{});
    }
  }

  lemma TrackKeeps(s: Engine, cid: Cid, call: PendingCall, t: Engine)
    requires Inv(s) && t == Track(s, cid, call)
    requires !call.firstResponseSeen && call.serial == s.ledger.requests
    requires |s.calls| < AtLeastOne(s.config.maxInflight)
    ensures Inv(t)
  {
    TrackTouches(s, cid, call, t);
    RaiseGauge(s.calls, s.counters.inflight, s.ledger.overwrittenKeys, cid, call);
    TrackRequests(s.calls, s.ledger, cid, call, t.ledger);
    TrackLatency(s.calls, s.ledger, cid, call);
    More(s.calls, cid, call);
  }

  lemma RequestKeeps(s: Engine, channel: string, header: RpcHeader, methodName: string, len: nat, now: nat, victim: Cid)
    requires Inv(s)
    requires header.kind == Request && Full(s.calls, s.config.maxInflight) ==> victim in s.calls
    ensures Inv(OnRequest(s, channel, header, methodName, len, now, victim))
  {
    if header.kind == Request {
      RetireKeeps(s, victim, multiset{});
      TrackKeeps(MakeRoom(s, victim), header.cid, NewCall(s, channel, header, methodName, len, now),
                 OnRequest(s, channel, header, methodName, len, now, victim));
    }
  }

  // Responses

  /** The serials of two tracked calls differ, and none is closed. */
  lemma SerialsAreUnique(calls: Calls, l: Ledger, a: Cid)
    requires RequestLaw(calls, l) && a in calls
    ensures calls[a].serial < l.requests
    ensures forall b :: b in calls && b != a ==> calls[b].serial != calls[a].serial
  {
    var n := calls[a].serial;
    BagRemove(calls, SERIAL, a);
    assert Arrivals(l.requests)[n] >= 1;
    forall b | b in calls && b != a ensures calls[b].serial != n {
      BagRemove(calls - {a}, SERIAL, b);
    }
  }

  lemma MatchRequests(calls: Calls, l: Ledger, cid: Cid, terminal: bool)
    requires RequestLaw(calls, l) && cid in calls
    ensures var l' := if terminal then l.(closed := l.closed + multiset{calls[cid].serial}) else l;
            RequestLaw(AfterResponse(calls, cid, terminal), l')
  {
    BagStore(calls, SERIAL, cid, calls[cid].(firstResponseSeen := true));
  }

  lemma MatchGauge(calls: Calls, inflight: map<Key, int>, hidden: multiset<Key>, cid: Cid)
    requires GaugeLaw(calls, inflight, hidden) && cid in calls
    ensures GaugeLaw(AfterResponse(calls, cid, false), inflight, hidden)
  {
    BagStore(calls, KEY, cid, calls[cid].(firstResponseSeen := true));
  }

  lemma MatchLatency(calls: Calls, l: Ledger, cid: Cid, terminal: bool)
    requires RequestLaw(calls, l) && cid in calls
    requires LatencyLaw(calls, l.requests, l.closed, l.matched, l.measured)
    ensures var l' := NoteMatch(l, calls[cid]);
            var closed := if terminal then l.closed + multiset{calls[cid].serial} else l.closed;
            LatencyLaw(AfterResponse(calls, cid, terminal), l.requests, closed, l'.matched, l'.measured)
  {
    SerialsAreUnique(calls, l, cid);
  }

  lemma MeasureCounts(c: Counters, l: Ledger, call: PendingCall, ts: nat)
    requires CounterLaw(c, l)
    ensures CounterLaw(Measure(c, call, ts), NoteMatch(l, call))
    ensures Measure(c, call, ts).inflight == c.inflight
  {
    if !call.firstResponseSeen {
      assert |NoteMatch(l, call).measured| == |l.measured| + 1;
      if ts >= call.requestTs {
        assert |Measure(c, call, ts).latency| == |c.latency| + 1;
      }
    }
  }

  lemma WrapSucc(n: nat)
    ensures (n % U64_RANGE + 1) % U64_RANGE == (n + 1) % U64_RANGE
  {
  }

  lemma CloseTrace(rate: nat, traced: nat, offered: nat, n: nat)
    requires TraceLaw(rate, traced, offered, n)
    ensures TraceLaw(rate, NextTraced(rate, traced), NextOffered(rate, traced, offered), n + 1)
  {
    if rate > 0 {
      WrapSucc(n);
      var wrapped := NextTraced(rate, traced);
      assert wrapped == (n + 1) % U64_RANGE;
      assert OfferedAfter(n + 1, rate) == OfferedAfter(n, rate) + if wrapped % rate == 0 then 1 else 0;
    }
  }

  lemma MatchKeepsOpen(s: Engine, cid: Cid, ts: nat, loose: multiset<nat>)
    requires Laws(s, loose, 0) && cid in s.calls
    ensures Laws(Match(s, cid, ts, false), loose, 1)
  {
    var call := s.calls[cid];
    MatchRequests(s.calls, s.ledger, cid, false);
    MatchLatency(s.calls, s.ledger, cid, false);
    MeasureCounts(s.counters, s.ledger, call, ts);
    MatchGauge(s.calls, s.counters.inflight, s.ledger.overwrittenKeys, cid);
    More(s.calls, cid, call.(firstResponseSeen := true));
    var t := Match(s, cid, ts, false);
    assert t.calls == AfterResponse(s.calls, cid, false);
    assert t.counters.inflight == s.counters.inflight && t.ledger.overwrittenKeys == s.ledger.overwrittenKeys;
    assert GaugeLaw(t.calls, t.counters.inflight, t.ledger.overwrittenKeys);
    assert RequestLaw(t.calls, t.ledger);
    assert ResponseLaw(t.deferred, t.ledger, loose);
    assert CounterLaw(t.counters, t.ledger);
  }

  lemma MatchKeepsClosed(s: Engine, cid: Cid, ts: nat, loose: multiset<nat>)
    requires Laws(s, loose, 0) && cid in s.calls
    ensures Laws(Match(s, cid, ts, true), loose, 1)
  {
    var call := s.calls[cid];
    MatchRequests(s.calls, s.ledger, cid, true);
    MatchLatency(s.calls, s.ledger, cid, true);
    MeasureCounts(s.counters, s.ledger, call, ts);
    LowerGauge(s.calls, s.counters.inflight, s.ledger.overwrittenKeys, cid);
    Less(s.calls, cid);
    CloseTrace(s.config.sampleRate, s.traced, s.offered, |s.ledger.closed|);
    var t := Match(s, cid, ts, true);
    assert t.calls == s.calls - {cid} && t.ledger.overwrittenKeys == s.ledger.overwrittenKeys;
    assert t.counters.inflight == Adjust(s.counters.inflight, KeyOf(call), -1);
    assert GaugeLaw(t.calls, t.counters.inflight, t.ledger.overwrittenKeys);
    assert RequestLaw(t.calls, t.ledger);
    assert ResponseLaw(t.deferred, t.ledger, loose);
    assert CounterLaw(t.counters, t.ledger);
    assert |t.ledger.closed| == |s.ledger.closed| + 1;
    assert t.traced == NextTraced(s.config.sampleRate, s.traced);
    assert t.offered == NextOffered(s.config.sampleRate, s.traced, s.offered);
  }

  lemma MatchKeeps(s: Engine, cid: Cid, ts: nat, terminal: bool, loose: multiset<nat>)
    requires Laws(s, loose, 0) && cid in s.calls
    ensures Laws(Match(s, cid, ts, terminal), loose, 1)
  {
    if terminal { MatchKeepsClosed(s, cid, ts, loose); } else { MatchKeepsOpen(s, cid, ts, loose); }
  }

  lemma {:induction false} TagsSize(samples: seq<HeldSample>)
    ensures |Tags(samples)| == |samples|
  {
    if samples != [] { TagsSize(samples[1..]); }
  }

  lemma {:induction false} TagsAppend(samples: seq<HeldSample>, x: HeldSample)
    ensures Tags(samples + [x]) == Tags(samples) + multiset{x.tag}
  {
    if samples != [] {
      assert (samples + [x])[1..] == samples[1..] + [x];
      TagsAppend(samples[1..], x);
    }
  }

  lemma ForfeitBalance(table: DeferredTable, l: Ledger, cid: Cid, loose: multiset<nat>)
    requires ResponseLaw(table, l, loose) && cid in table
    ensures ResponseLaw(table - {cid}, l.(orphaned := l.orphaned + Tags(table[cid].samples)), loose)
    ensures ResponseLaw(table - {cid}, l, loose + Tags(table[cid].samples))
  {
    BagRemove(table, TAGS, cid);
    var tags, rest := Tags(table[cid].samples), HeldTags(table - {cid});
    assert HeldTags(table) == tags + rest;
    Rebook(tags, rest, l.direct, l.replayed, l.orphaned, l.triggers, l.behind, loose);
  }

  lemma Rebook(tags: multiset<nat>, rest: multiset<nat>, a: multiset<nat>, b: multiset<nat>, c: multiset<nat>,
               d: multiset<nat>, e: multiset<nat>, loose: multiset<nat>)
    ensures tags + rest + a + b + c + d + e + loose == rest + a + b + (c + tags) + d + e + loose
    ensures tags + rest + a + b + c + d + e + loose == rest + a + b + c + d + e + (loose + tags)
  {
  }

  lemma ForfeitKeeps(s: Engine, cid: Cid, loose: multiset<nat>)
    requires Laws(s, loose, 0)
    ensures Laws(Forfeit(s, cid), loose, 0)
    ensures cid in s.deferred ==> |Forfeit(s, cid).deferred| == |s.deferred| - 1
  {
    if cid in s.deferred {
      var t := Forfeit(s, cid);
      ForfeitBalance(s.deferred, s.ledger, cid, loose);
      TagsSize(s.deferred[cid].samples);
      Less(s.deferred, cid);
      assert ResponseLaw(t.deferred, t.ledger, loose);
      assert CounterLaw(t.counters, t.ledger);
    }
  }

  lemma HoldBalance(s: Engine, channel: string, x: HeldSample, now: nat)
    requires ResponseLaw(s.deferred, s.ledger, multiset{x.tag})
    ensures var t := Hold(s, channel, x, now); ResponseLaw(t.deferred, s.ledger, multiset{})
  {
    var cid := x.header.cid;
    var entry := if cid in s.deferred then s.deferred[cid] else DeferredResponses(channel, [], now);
    TagsAppend(entry.samples, x);
    BagStore(s.deferred, TAGS, cid, entry.(samples := entry.samples + [x]));
  }

  lemma HoldBounds(table: DeferredTable, cid: Cid, entry: DeferredResponses, x: HeldSample)
    requires HeldBounds(table)
    requires |table| < MAX_DEFERRED || cid in table
    requires x.header.cid == cid && |entry.samples| < MAX_DEFERRED_SAMPLES
    requires forall i :: 0 <= i < |entry.samples| ==> entry.samples[i].header.cid == cid
    ensures HeldBounds(table[cid := entry.(samples := entry.samples + [x])])
  {
    More(table, cid, entry.(samples := entry.samples + [x]));
  }

  lemma HoldKeeps(s: Engine, channel: string, x: HeldSample, now: nat)
    requires Laws(s, multiset{x.tag}, 0)
    requires |s.deferred| < MAX_DEFERRED || x.header.cid in s.deferred
    requires !Overflowing(s, x.header.cid)
    ensures Inv(Hold(s, channel, x, now))
  {
    HoldBalance(s, channel, x, now);
    var cid := x.header.cid;
    HoldBounds(s.deferred, cid, if cid in s.deferred then s.deferred[cid] else DeferredResponses(channel, [], now), x);
  }

  lemma BookTrigger(m: Engine, tag: nat)
    requires Laws(m, multiset{tag}, 0)
    ensures Inv(m.(ledger := m.ledger.(triggers := m.ledger.triggers + multiset{tag})))
  {
    var t := m.(ledger := m.ledger.(triggers := m.ledger.triggers + multiset{tag}));
    assert ResponseLaw(t.deferred, t.ledger, multiset{});
  }

  lemma DeferKeeps(s: Engine, channel: string, x: HeldSample, now: nat, victim: Cid)
    requires Laws(s, multiset{x.tag}, 0)
    requires |s.deferred| >= MAX_DEFERRED ==> victim in s.deferred
    ensures Inv(Defer(s, channel, x, now, victim))
  {
    if |s.deferred| >= MAX_DEFERRED {
      ForfeitKeeps(s, victim, multiset{x.tag});
      SettleKeeps(Forfeit(s, victim), channel, x, now);
    } else {
      SettleKeeps(s, channel, x, now);
    }
  }

  lemma SettleKeeps(room: Engine, channel: string, x: HeldSample, now: nat)
    requires Laws(room, multiset{x.tag}, 0) && |room.deferred| < MAX_DEFERRED
    ensures Inv(if Overflowing(room, x.header.cid) then GiveUp(room, x) else Hold(room, channel, x, now))
  {
    if Overflowing(room, x.header.cid) {
      ForfeitKeeps(room, x.header.cid, multiset{x.tag});
      BookTrigger(Forfeit(room, x.header.cid), x.tag);
    } else {
      HoldKeeps(room, channel, x, now);
    }
  }

  lemma CountBalance(table: DeferredTable, l: Ledger)
    requires ResponseLaw(table, l, multiset{})
    ensures ResponseLaw(table, l.(responses := l.responses + 1), multiset{l.responses})
  {
    var before := HeldTags(table) + l.direct + l.replayed + l.orphaned + l.triggers + l.behind;
    assert before + multiset{} == before;
  }

  lemma CountKeeps(s: Engine, channel: string, header: RpcHeader)
    requires Inv(s)
    ensures Laws(CountResponse(s, channel, header), multiset{s.ledger.responses}, 0)
  {
    var t := CountResponse(s, channel, header);
    CountBalance(s.deferred, s.ledger);
    assert t.ledger == s.ledger.(responses := s.ledger.responses + 1);
    assert t.calls == s.calls && t.deferred == s.deferred && t.counters.inflight == s.counters.inflight;
    assert RequestLaw(t.calls, t.ledger);
    assert CounterLaw(t.counters, t.ledger);
  }

  lemma DirectKeeps(s: Engine, header: RpcHeader, tag: nat)
    requires Laws(s, multiset{tag}, 0) && header.cid in s.calls
    ensures Inv(Direct(s, header, tag))
  {
    MatchKeeps(s, header.cid, header.timestampNs, header.kind.IsTerminal(), multiset{tag});
    var m := Match(s, header.cid, header.timestampNs, header.kind.IsTerminal());
    BookDirect(m, tag);
  }

  lemma BookDirect(m: Engine, tag: nat)
    requires Laws(m, multiset{tag}, 1)
    ensures Inv(m.(ledger := m.ledger.(direct := m.ledger.direct + multiset{tag})))
  {
    var t := m.(ledger := m.ledger.(direct := m.ledger.direct + multiset{tag}));
    assert ResponseLaw(t.deferred, t.ledger, multiset{});
  }

  lemma ResponseKeeps(s: Engine, channel: string, header: RpcHeader, emitter: Emitter, len: nat, now: nat, victim: Cid)
    requires Inv(s)
    requires header.cid !in s.calls && |s.deferred| >= MAX_DEFERRED ==> victim in s.deferred
    ensures Inv(OnResponse(s, channel, header, emitter, len, now, victim))
  {
    var counted := CountResponse(s, channel, header);
    CountKeeps(s, channel, header);
    if header.cid in s.calls {
      DirectKeeps(counted, header, s.ledger.responses);
    } else {
      DeferKeeps(counted, channel, HeldSample(header, emitter, len, s.ledger.responses), now, victim);
    }
  }

  // Replay, expiry, sweep

  lemma BookReplayed(m: Engine, tag: nat, rest: multiset<nat>)
    requires Laws(m, multiset{tag} + rest, 1)
    ensures Laws(m.(ledger := m.ledger.(replayed := m.ledger.replayed + multiset{tag})), rest, 0)
  {
    var t := m.(ledger := m.ledger.(replayed := m.ledger.replayed + multiset{tag}));
    assert ResponseLaw(t.deferred, t.ledger, rest);
  }

  lemma ReplaySampleKeeps(s: Engine, cid: Cid, x: HeldSample, rest: multiset<nat>)
    requires Laws(s, multiset{x.tag} + rest, 0)
    ensures Laws(ReplaySample(s, cid, x), rest, 0)
  {
    if cid in s.calls {
      MatchKeeps(s, cid, x.header.timestampNs, x.header.kind.IsTerminal(), multiset{x.tag} + rest);
      BookReplayed(Match(s, cid, x.header.timestampNs, x.header.kind.IsTerminal()), x.tag, rest);
    } else {
      var t := ReplaySample(s, cid, x);
      assert ResponseLaw(t.deferred, t.ledger, rest);
    }
  }

  lemma {:induction false} ReplaySamplesKeep(s: Engine, cid: Cid, samples: seq<HeldSample>)
    requires Laws(s, Tags(samples), 0)
    ensures Inv(ReplaySamples(s, cid, samples))
    decreases |samples|
  {
    if samples != [] {
      ReplaySampleKeeps(s, cid, samples[0], Tags(samples[1..]));
      ReplaySamplesKeep(ReplaySample(s, cid, samples[0]), cid, samples[1..]);
    }
  }

  lemma ReplayKeeps(s: Engine, cid: Cid)
    requires Inv(s)
    ensures Inv(Replay(s, cid))
  {
    if cid in s.deferred {
      var samples := s.deferred[cid].samples;
      var t := s.(deferred := s.deferred - {cid});
      ForfeitBalance(s.deferred, s.ledger, cid, multiset{});
      Less(s.deferred, cid);
      assert multiset{} + Tags(samples) == Tags(samples);
      ReplaySamplesKeep(t, cid, samples);
    }
  }

  /** A fold keeps what each of its steps keeps. */
  lemma {:induction false} FoldKeeps(s: Engine, ks: seq<Cid>, step: (Engine, Cid) -> Engine, kept: Engine -> bool)
    requires kept(s)
    requires forall u: Engine, k :: kept(u) ==> kept(step(u, k))
    ensures kept(Fold(s, ks, step))
    decreases |ks|
  {
    if ks != [] { FoldKeeps(step(s, ks[0]), ks[1..], step, kept); }
  }

  lemma ResolveKeeps(s: Engine, ready: seq<Cid>, expired: seq<Cid>)
    requires Inv(s)
    ensures Inv(Resolve(s, ready, expired))
  {
    forall u: Engine, k | Inv(u) ensures Inv(Replay(u, k)) { ReplayKeeps(u, k); }
    FoldKeeps(s, ready, Replay, Inv);
    forall u: Engine, k | Inv(u) ensures Inv(Forfeit(u, k)) { ForfeitKeeps(u, k, multiset{}); }
    FoldKeeps(Fold(s, ready, Replay), expired, Forfeit, Inv);
  }

  lemma SweepKeeps(s: Engine, outlived: seq<Cid>)
    requires Inv(s)
    ensures Inv(Sweep(s, outlived))
  {
    forall u: Engine, k | Inv(u) ensures Inv(Retire(u, k)) { RetireKeeps(u, k, multiset{}); }
    FoldKeeps(s, outlived, Retire, Inv);
  }

  /** No operation breaks a law. */
  lemma StepKeeps(s: Engine, op: Op)
    requires Inv(s) && Allowed(s, op)
    ensures Inv(Apply(s, op))
  {
    match op
    case RequestSample(channel, header, methodName, len, now, victim) =>
      RequestKeeps(s, channel, header, methodName, len, now, victim);
    case ResponseSample(channel, header, emitter, len, now, victim) =>
      ResponseKeeps(s, channel, header, emitter, len, now, victim);
    case ResolveDeferred(_, ready, expired) => ResolveKeeps(s, ready, expired);
    case SweepCalls(_, outlived) => SweepKeeps(s, outlived);
  }

  /** Whatever holds of a fresh engine and is kept by every operation holds in every run. */
  lemma {:induction false} Induct(config: Config, ops: seq<Op>, states: seq<Engine>, holds: Engine -> bool, i: nat)
    requires Run(config, ops, states) && i < |states|
    requires holds(Init(config)) && forall s, op, t :: holds(s) && Leads(s, op, t) ==> holds(t)
    ensures holds(states[i])
  {
    if i > 0 {
      Induct(config, ops, states, holds, i - 1);
      assert Leads(states[i - 1], ops[i - 1], states[i]);
    }
  }

  lemma FreshKeeps(config: Config)
    ensures Inv(Init(config))
  {
  }

  lemma LeadKeeps(s: Engine, op: Op, t: Engine)
    requires Inv(s) && Leads(s, op, t)
    ensures Inv(t)
  {
    StepKeeps(s, op);
  }

  /** The laws hold after every prefix of every run. */
  lemma RunKeeps(config: Config, ops: seq<Op>, states: seq<Engine>, i: nat)
    requires Run(config, ops, states) && i < |states|
    ensures Inv(states[i])
  {
    FreshKeeps(config);
    forall s, op, t | Inv(s) && Leads(s, op, t) ensures Inv(t) {
      LeadKeeps(s, op, t);
    }
    Induct(config, ops, states, Inv, i);
  }
}
