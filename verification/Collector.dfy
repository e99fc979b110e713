/** The acquisition side of the observer: the engine as it runs, on mutable tables. */
module Collector {
  import opened Wire
  import opened Correlation
  import opened Folds
  import opened Engine
  import opened EngineSteps
  import opened EngineConfluence
  import opened Metrics
  import opened Loss

  // ---------------------------------------------------------------------------
  // Facts about folds the loops below rely on
  // ---------------------------------------------------------------------------

  lemma RetiredStep(s: Engine, order: seq<Cid>, due: set<Cid>, i: nat)
    requires Lists(order, due) && i < |order| && order[i] in s.calls
    ensures var f, g, call := Fold(s, order[..i], Retire), Fold(s, order[..i + 1], Retire), s.calls[order[i]];
            && g.counters == UnmatchedCounters(f.counters, call)
            && g.ledger == f.ledger.(unmatched := f.ledger.unmatched + multiset{call.serial})
  {
    RetiredTable(s, order[..i]);
    NotListedBefore(order, due, i);
    FoldSnoc(s, order[..i], order[i], Retire);
    assert order[..i + 1] == order[..i] + [order[i]];
  }

  /** `expired` names the channel and the size of each stream of `order`. */
  ghost predicate Describes(table: DeferredTable, order: seq<Cid>, expired: seq<(string, nat)>)
  {
    && |expired| == |order|
    && (forall c :: c in order ==> c in table)
    && (forall i :: 0 <= i < |order| ==> expired[i] == (table[order[i]].channel, |table[order[i]].samples|))
  }

  lemma ReadyNext(start: Engine, ready: seq<Cid>, done: set<Cid>, cid: Cid)
    requires Lists(ready, done) && cid !in done
    ensures Lists(ready + [cid], done + {cid})
    ensures Fold(start, ready + [cid], Replay) == Replay(Fold(start, ready, Replay), cid)
  {
    ListsAdd(ready, done, cid);
    FoldSnoc(start, ready, cid, Replay);
  }

  /** The next stream to forfeit is still held as it was at the start. */
  lemma ForfeitNext(start: Engine, order: seq<Cid>, due: set<Cid>, i: nat)
    requires Lists(order, due) && i < |order| && order[i] in start.deferred
    ensures var f := Fold(start, order[..i], Forfeit);
      order[i] in f.deferred && f.deferred[order[i]] == start.deferred[order[i]]
      && Fold(start, order[..i + 1], Forfeit) == Forfeit(f, order[i])
  {
    ForfeitedTable(start, order[..i]);
    NotListedBefore(order, due, i);
    FoldSnoc(start, order[..i], order[i], Forfeit);
    assert order[..i + 1] == order[..i] + [order[i]];
  }

  lemma NotListedBefore(ks: seq<Cid>, keys: set<Cid>, i: nat)
    requires Lists(ks, keys) && i < |ks|
    ensures ks[i] !in Members(ks[..i]) && Members(ks) == keys
  {
    ListsMembers(ks, keys);
    ListsDistinct(ks, keys);
  }

  /** The calls and the counters once room was made for a request. */
  ghost function Room(calls: Calls, max: nat, victim: Cid): Calls
  {
    if Full(calls, max) then calls - {victim} else calls
  }

  ghost function RoomCounters(calls: Calls, max: nat, victim: Cid, c: Counters): Counters
    requires Full(calls, max) ==> victim in calls
  {
    if Full(calls, max) then UnmatchedCounters(c, calls[victim]) else c
  }

  lemma RequestParts(s: Engine, channel: string, header: RpcHeader, methodName: string, len: nat, now: nat, victim: Cid)
    requires header.kind == Request && (Full(s.calls, s.config.maxInflight) ==> victim in s.calls)
    ensures var t := OnRequest(s, channel, header, methodName, len, now, victim);
      var call := NewCall(s, channel, header, methodName, len, now);
      && t.config == s.config && t.deferred == s.deferred && t.traced == s.traced && t.offered == s.offered
      && t.calls == Room(s.calls, s.config.maxInflight, victim)[header.cid := call]
      && t.counters == AskCounters(RoomCounters(s.calls, s.config.maxInflight, victim, s.counters), call)
      && t.ledger.requests == s.ledger.requests + 1 && t.ledger.responses == s.ledger.responses
  {
  }

  lemma GiveUpAndAsk(c: Counters, lost: PendingCall, call: PendingCall)
    ensures UnmatchedCounters(AskCounters(c, call), lost) == AskCounters(UnmatchedCounters(c, lost), call)
  {
    AdjustCommutes(c.inflight, KeyOf(call), 1, KeyOf(lost), -1);
  }

  lemma ResponseMatches(s: Engine, channel: string, header: RpcHeader, emitter: Emitter, len: nat, now: nat, victim: Cid, t: Engine)
    requires header.cid in s.calls && t == OnResponse(s, channel, header, emitter, len, now, victim)
    ensures Matches(s, t, header.cid, header.kind)
  {
    DirectClosesByKind(s, ResponseSample(channel, header, emitter, len, now, victim), t);
  }

  /** The two halves of a pass make a step of the engine, whatever the orders. */
  lemma ResolvedAnyWay(s: Engine, now: nat, ready: seq<Cid>, mid: Engine, expired: seq<Cid>, t: Engine)
    requires Lists(ready, Ready(s)) && mid == Fold(s, ready, Replay)
    requires Lists(expired, Expired(mid, now)) && t == Fold(mid, expired, Forfeit)
    ensures Leads(s, ResolveDeferred(now, ready, expired), t) && Settles(s, now, t)
    ensures forall r: seq<Cid>, e: seq<Cid> :: ResolveOrders(s, r, e, now) ==> t == Resolve(s, r, e)
  {
    PassSettles(s, ResolveDeferred(now, ready, expired), t);
    forall r: seq<Cid>, e: seq<Cid> | ResolveOrders(s, r, e, now) ensures t == Resolve(s, r, e) {
      ResolveIsConfluent(s, now, ready, expired, r, e);
    }
  }

  lemma RequestLeads(s: Engine, channel: string, header: RpcHeader, methodName: string, len: nat, now: nat, victim: Cid, t: Engine)
    requires header.kind == Request && Full(s.calls, s.config.maxInflight) ==> IsOldest(s.calls, victim)
    requires t == OnRequest(s, channel, header, methodName, len, now, victim)
    ensures Leads(s, RequestSample(channel, header, methodName, len, now, victim), t)
  {
  }

  lemma ResponseLeads(s: Engine, channel: string, header: RpcHeader, emitter: Emitter, len: nat, now: nat, victim: Cid, t: Engine)
    requires header.cid !in s.calls && |s.deferred| >= MAX_DEFERRED ==> IsOldestHeld(s.deferred, victim)
    requires t == OnResponse(s, channel, header, emitter, len, now, victim)
    ensures Leads(s, ResponseSample(channel, header, emitter, len, now, victim), t)
  {
  }

  // ---------------------------------------------------------------------------
  // The observer
  // ---------------------------------------------------------------------------

  class Monitor {
    const correlate: Correlate
    const metrics: Registry
    const loss: LossTracker
    const sampleRate: nat
    /** Responses waiting for their request to be observed. */
    var deferred: DeferredTable
    var traced: nat
    /** Emitter pids seen so far, with their last known liveness. */
    var pids: map<nat, bool>
    // Bookkeeping of the model: arrival numbers, offered traces, ledger.
    var serials: nat
    var tags: nat
    var offered: nat
    ghost var ledger: Ledger

    ghost predicate Valid()
      reads this, metrics
    {
      serials == ledger.requests && tags == ledger.responses && metrics.Valid()
    }

    ghost function Model(): Engine
      reads this, correlate, metrics
    {
      Engine(Config(correlate.max, correlate.ttl, sampleRate), correlate.entries, deferred, metrics.counters, traced, offered, ledger)
    }

    constructor (config: Config)
      ensures Valid() && Model() == Init(config)
      ensures fresh(correlate) && fresh(metrics) && fresh(loss) && loss.last == map[] && pids == map[]
    {
      correlate := new Correlate(config.maxInflight, config.callTtl);
      metrics := new Registry();
      loss := new LossTracker();
      sampleRate := config.sampleRate;
      deferred, traced, pids, serials, tags, offered, ledger := map[], 0, map[], 0, 0, 0, BLANK;
    }

    /** Aggregates one observed sample. */
    method Process(channel: string, direction: Direction, header: RpcHeader, emitter: Emitter, len: nat, methodName: string, now: nat)
      returns (ghost victim: Cid)
      requires Valid() && header.seqNo < 0x1_0000_0000_0000_0000
      modifies this, correlate, metrics, loss
      ensures Valid()
      ensures direction == ToProvider ==>
                Leads(old(Model()), RequestSample(channel, header, methodName, len, now, victim), Model())
      ensures direction == ToConsumer ==>
                Leads(old(Model()), ResponseSample(channel, header, emitter, len, now, victim), Model())
      ensures loss.last == old(loss.last)[emitter.publisherId := header.seqNo]
      ensures metrics.sampleGaps == old(metrics.sampleGaps) + Missed(old(loss.last), emitter.publisherId, header.seqNo)
      ensures metrics.payloadLog == old(metrics.payloadLog) + [Entry(PayloadSeries(channel, direction), len)]
      ensures pids == if emitter.pid in old(pids) then old(pids) else old(pids)[emitter.pid := true]
    {
      NoteSample(channel, direction, header, emitter, len);
      victim := Dispatch(channel, direction, header, emitter, len, methodName, now);
    }

    /** The tables beside the calls. */
    method NoteSample(channel: string, direction: Direction, header: RpcHeader, emitter: Emitter, len: nat)
      requires Valid() && header.seqNo < 0x1_0000_0000_0000_0000
      modifies this`pids, metrics, loss
      ensures Valid() && Model() == old(Model())
      ensures loss.last == old(loss.last)[emitter.publisherId := header.seqNo]
      ensures metrics.sampleGaps == old(metrics.sampleGaps) + Missed(old(loss.last), emitter.publisherId, header.seqNo)
      ensures metrics.payloadLog == old(metrics.payloadLog) + [Entry(PayloadSeries(channel, direction), len)]
      ensures pids == if emitter.pid in old(pids) then old(pids) else old(pids)[emitter.pid := true]
    {
      var missed := loss.Observe(emitter.publisherId, header.seqNo);
      metrics.OnSampleGap(missed);
      metrics.OnPayload(channel, direction, len);
      if emitter.pid !in pids {
        pids := pids[emitter.pid := true];
      }
    }

    method Dispatch(channel: string, direction: Direction, header: RpcHeader, emitter: Emitter, len: nat, methodName: string, now: nat)
      returns (ghost victim: Cid)
      requires Valid()
      modifies this, correlate, metrics`counters, metrics`latencies, metrics`latencyLog
      ensures Valid() && pids == old(pids)
      ensures direction == ToProvider ==>
                Leads(old(Model()), RequestSample(channel, header, methodName, len, now, victim), Model())
      ensures direction == ToConsumer ==>
                Leads(old(Model()), ResponseSample(channel, header, emitter, len, now, victim), Model())
    {
      ghost var before := Model();
      match direction
      case ToProvider =>
        victim := HandleRequest(channel, header, methodName, len, now);
        RequestLeads(before, channel, header, methodName, len, now, victim, Model());
      case ToConsumer =>
        victim := HandleResponse(channel, header, emitter, len, now);
        ResponseLeads(before, channel, header, emitter, len, now, victim, Model());
    }

    /** Handles one request sample. */
    method HandleRequest(channel: string, header: RpcHeader, methodName: string, len: nat, now: nat) returns (ghost victim: Cid)
      requires Valid()
      modifies this, correlate, metrics`counters
      ensures Valid() && pids == old(pids)
      ensures header.kind == Request && Full(old(Model()).calls, correlate.max) ==> IsOldest(old(Model()).calls, victim)
      ensures Model() == OnRequest(old(Model()), channel, header, methodName, len, now, victim)
    {
      ghost var before := Model();
      if header.kind != Request {
        victim := 0;
        return;
      }
      var call := PendingCall(channel, header.serviceId, methodName, header.timestampNs, len, false, now, serials);
      victim := Admit(header.cid, call);
      serials := serials + 1;
      ledger := OnRequest(before, channel, header, methodName, len, now, victim).ledger;
      RequestParts(before, channel, header, methodName, len, now, victim);
    }

    /** Counts a request and stores its call, evicting an oldest one if the table is full. */
    method Admit(cid: Cid, call: PendingCall) returns (ghost victim: Cid)
      requires metrics.Valid()
      modifies correlate, metrics`counters
      ensures metrics.Valid()
      ensures Full(old(correlate.entries), correlate.max) ==> IsOldest(old(correlate.entries), victim)
      ensures correlate.entries == Room(old(correlate.entries), correlate.max, victim)[cid := call]
      ensures metrics.counters == AskCounters(RoomCounters(old(correlate.entries), correlate.max, victim, old(metrics.counters)), call)
    {
      ghost var calls, counters := correlate.entries, metrics.counters;
      CountAsked(call);
      var evicted;
      evicted, victim := correlate.Insert(cid, call);
      if |evicted| == 1 {
        CountGivenUp(evicted[0]);
        GiveUpAndAsk(counters, calls[victim], call);
      }
    }

    /** A request in the counters. */
    method CountAsked(call: PendingCall)
      requires metrics.Valid()
      modifies metrics`counters
      ensures metrics.Valid() && metrics.counters == AskCounters(old(metrics.counters), call)
    {
      metrics.OnRequest(call.channel, call.serviceId, call.methodName);
      metrics.OnInflight(call.channel, call.serviceId, 1);
    }

    /** An evicted call in the counters. */
    method CountGivenUp(call: PendingCall)
      requires metrics.Valid()
      modifies metrics`counters
      ensures metrics.Valid() && metrics.counters == UnmatchedCounters(old(metrics.counters), call)
    {
      metrics.OnUnmatchedRequest(call.channel);
      metrics.OnInflight(call.channel, call.serviceId, -1);
    }

    /** Handles one response sample, closing the call on a terminal kind. */
    method HandleResponse(channel: string, header: RpcHeader, emitter: Emitter, len: nat, now: nat) returns (ghost victim: Cid)
      requires Valid()
      modifies this, correlate, metrics`counters, metrics`latencies, metrics`latencyLog
      ensures Valid() && pids == old(pids)
      ensures header.cid !in old(Model()).calls && |old(Model()).deferred| >= MAX_DEFERRED ==> IsOldestHeld(old(Model()).deferred, victim)
      ensures Model() == OnResponse(old(Model()), channel, header, emitter, len, now, victim)
      ensures header.cid in old(Model()).calls ==> Matches(old(Model()), Model(), header.cid, header.kind)
    {
      ghost var before := Model();
      victim := CountAndReceive(channel, header, emitter, len, now);
      if header.cid in before.calls {
        ResponseMatches(before, channel, header, emitter, len, now, victim, Model());
      }
    }

    method CountAndReceive(channel: string, header: RpcHeader, emitter: Emitter, len: nat, now: nat) returns (ghost victim: Cid)
      requires Valid()
      modifies this`deferred, this`traced, this`offered, this`tags, this`ledger, correlate, metrics`counters, metrics`latencies, metrics`latencyLog
      ensures Valid()
      ensures header.cid !in old(Model()).calls && |old(Model()).deferred| >= MAX_DEFERRED ==> IsOldestHeld(old(Model()).deferred, victim)
      ensures Model() == OnResponse(old(Model()), channel, header, emitter, len, now, victim)
    {
      var tag := CountOne(channel, header);
      victim := Receive(channel, HeldSample(header, emitter, len, tag), now);
    }

    /** Counts a response and numbers it. */
    method CountOne(channel: string, header: RpcHeader) returns (tag: nat)
      requires Valid()
      modifies this`tags, this`ledger, metrics`counters
      ensures Valid() && Model() == CountResponse(old(Model()), channel, header) && tag == old(ledger).responses
    {
      metrics.OnResponse(channel, header.serviceId, header.kind);
      tag := tags;
      tags := tags + 1;
      ledger := ledger.(responses := ledger.responses + 1);
    }

    method Receive(channel: string, sample: HeldSample, now: nat) returns (ghost victim: Cid)
      requires Valid()
      modifies this`deferred, this`traced, this`offered, this`ledger, correlate, metrics`counters, metrics`latencies, metrics`latencyLog
      ensures Valid()
      ensures sample.header.cid in old(correlate.entries) ==> Model() == Direct(old(Model()), sample.header, sample.tag)
      ensures sample.header.cid !in old(correlate.entries) ==>
                (|old(deferred)| >= MAX_DEFERRED ==> IsOldestHeld(old(deferred), victim))
                && Model() == Defer(old(Model()), channel, sample, now, victim)
    {
      victim := 0;
      var resolution := correlate.OnResponse(sample.header.cid, sample.header.kind.IsTerminal());
      match resolution
      case Matched(call) =>
        CompleteResponse(sample.header, call);
        ledger := ledger.(direct := ledger.direct + multiset{sample.tag});
      case Unknown =>
        victim := DeferResponse(channel, sample, now);
    }

    /** Accounts for a response whose request is known; `call` is the call before it. */
    method CompleteResponse(header: RpcHeader, call: PendingCall)
      requires Valid()
      modifies this`traced, this`offered, this`ledger, metrics`counters, metrics`latencies, metrics`latencyLog
      ensures Valid()
      ensures var s := old(Model());
              var seen := s.(counters := Measure(s.counters, call, header.timestampNs), ledger := NoteMatch(s.ledger, call));
              Model() == if header.kind in {EventKind.Complete, EventKind.Error, EventKind.RpcError} then Close(seen, call) else seen
    {
      if !call.firstResponseSeen {
        MeasureFirst(call, header.timestampNs);
      }
      ledger := NoteMatch(ledger, call);
      if header.kind.IsTerminal() {
        metrics.OnInflight(call.channel, call.serviceId, -1);
        EmitTrace();
        ledger := ledger.(closed := ledger.closed + multiset{call.serial});
      }
    }

    /** The one record of a call: its latency, or a clock skew. */
    method MeasureFirst(call: PendingCall, timestampNs: nat)
      requires metrics.Valid() && !call.firstResponseSeen
      modifies metrics`counters, metrics`latencies, metrics`latencyLog
      ensures metrics.Valid() && metrics.counters == Measure(old(metrics.counters), call, timestampNs)
    {
      if timestampNs >= call.requestTs {
        metrics.OnLatency(call.channel, call.serviceId, call.methodName, timestampNs - call.requestTs);
      } else {
        metrics.OnClockSkew();
      }
    }

    /** Offers one trace record for a completed call, subject to sampling. */
    method EmitTrace()
      modifies this`traced, this`offered
      ensures traced == NextTraced(sampleRate, old(traced))
      ensures offered == NextOffered(sampleRate, old(traced), old(offered))
    {
      if sampleRate == 0 { return; }
      traced := (traced + 1) % U64_RANGE;
      if traced % sampleRate != 0 { return; }
      offered := offered + 1;
    }

    /** A held stream that has waited longest. */
    method OldestHeld() returns (oldest: Cid)
      requires deferred != map[]
      ensures oldest in deferred && forall c :: c in deferred ==> deferred[oldest].since <= deferred[c].since
    {
      oldest :| oldest in deferred;
      var todo := deferred.Keys - {oldest};
      while todo != {}
        invariant todo <= deferred.Keys && oldest in deferred
        invariant forall c :: c in deferred.Keys - todo ==> deferred[oldest].since <= deferred[c].since
        decreases todo
      {
        var c :| c in todo;
        if deferred[c].since < deferred[oldest].since {
          oldest := c;
        }
        todo := todo - {c};
      }
    }

    /** Drops a held stream, one orphan per sample. */
    method GiveStreamUp(cid: Cid)
      requires Valid() && cid in deferred
      modifies this`deferred, this`ledger, metrics`counters
      ensures Valid() && Model() == Forfeit(old(Model()), cid)
    {
      var entry := deferred[cid];
      deferred := deferred - {cid};
      metrics.OnOrphanResponses(entry.channel, |entry.samples|);
      ledger := ledger.(orphaned := ledger.orphaned + Tags(entry.samples));
    }

    /** Holds a response whose request has not been observed yet. */
    method DeferResponse(channel: string, sample: HeldSample, now: nat) returns (ghost victim: Cid)
      requires Valid()
      modifies this`deferred, this`ledger, metrics`counters
      ensures Valid()
      ensures |old(deferred)| >= MAX_DEFERRED ==> IsOldestHeld(old(deferred), victim)
      ensures Model() == Defer(old(Model()), channel, sample, now, victim)
    {
      victim := 0;
      if |deferred| >= MAX_DEFERRED {
        var oldest := OldestHeld();
        victim := oldest;
        GiveStreamUp(oldest);
      }
      var cid := sample.header.cid;
      if cid in deferred && |deferred[cid].samples| >= MAX_DEFERRED_SAMPLES {
        GiveStreamUp(cid);
        ledger := ledger.(triggers := ledger.triggers + multiset{sample.tag});
        return;
      }
      var entry := if cid in deferred then deferred[cid] else DeferredResponses(channel, [], now);
      deferred := deferred[cid := entry.(samples := entry.samples + [sample])];
    }

    /** Replays a held stream in observation order. */
    method ReplayStream(cid: Cid)
      requires Valid() && cid in deferred
      modifies this`deferred, this`traced, this`offered, this`ledger, correlate, metrics`counters, metrics`latencies, metrics`latencyLog
      ensures Valid() && Model() == Replay(old(Model()), cid)
    {
      var entry := deferred[cid];
      deferred := deferred - {cid};
      ghost var start := Model();
      var i := 0;
      while i < |entry.samples|
        invariant i <= |entry.samples| && Valid()
        invariant Model() == ReplaySamples(start, cid, entry.samples[..i])
      {
        var sample := entry.samples[i];
        ReplaySnoc(start, cid, entry.samples[..i], sample);
        assert entry.samples[..i + 1] == entry.samples[..i] + [sample];
        ReplayOne(cid, sample);
        i := i + 1;
      }
      assert entry.samples[..i] == entry.samples;
    }

    method ReplayOne(cid: Cid, sample: HeldSample)
      requires Valid()
      modifies this`traced, this`offered, this`ledger, correlate, metrics`counters, metrics`latencies, metrics`latencyLog
      ensures Valid() && Model() == ReplaySample(old(Model()), cid, sample)
    {
      var resolution := correlate.OnResponse(cid, sample.header.kind.IsTerminal());
      match resolution
      case Matched(call) =>
        CompleteResponse(sample.header, call);
        ledger := ledger.(replayed := ledger.replayed + multiset{sample.tag});
      case Unknown =>
        ledger := ledger.(behind := ledger.behind + multiset{sample.tag});
    }

    /** Pairs the held streams whose request has been observed. */
    method ReplayReady() returns (ghost ready: seq<Cid>)
      requires Valid()
      modifies this`deferred, this`traced, this`offered, this`ledger, correlate, metrics`counters, metrics`latencies, metrics`latencyLog
      ensures Valid() && Lists(ready, Ready(old(Model()))) && Model() == Fold(old(Model()), ready, Replay)
    {
      ghost var start := Model();
      var todo := set c | c in deferred && c in correlate.entries;
      ghost var all, done: set<Cid> := todo, {};
      assert all == Ready(start);
      ready := [];
      while todo != {}
        invariant done == all - todo && todo <= all && Valid()
        invariant Lists(ready, done)
        invariant Model() == Fold(start, ready, Replay)
        decreases todo
      {
        var cid :| cid in todo;
        ReadyNext(start, ready, done, cid);
        todo := todo - {cid};
        if cid in deferred {
          ReplayStream(cid);
        }
        ready := ready + [cid];
        done := done + {cid};
      }
      assert done == all;
    }

    /** Takes the streams held past the grace period out of the table. */
    method CollectExpired(now: nat) returns (expired: seq<(string, nat)>, ghost order: seq<Cid>)
      modifies this`deferred
      ensures Lists(order, Expired(old(Model()), now))
      ensures deferred == old(deferred) - Expired(old(Model()), now)
      ensures Describes(old(deferred), order, expired)
    {
      ghost var start, due := deferred, Expired(Model(), now);
      expired, order := [], [];
      var todo := deferred.Keys;
      ghost var gone: set<Cid> := {};
      while todo != {}
        invariant todo <= start.Keys && gone == due - todo
        invariant deferred == start - gone && Lists(order, gone)
        invariant Describes(start, order, expired)
        decreases todo
      {
        var c :| c in todo;
        var entry := deferred[c];
        if Elapsed(entry.since, now) >= ORPHAN_GRACE {
          ListsAdd(order, gone, c);
          gone := gone + {c};
          expired := expired + [(entry.channel, |entry.samples|)];
          order := order + [c];
          deferred := deferred - {c};
        }
        todo := todo - {c};
      }
      assert gone == due;
    }

    /** Gives up on the streams held past the grace period. */
    method ExpireHeld(now: nat) returns (ghost order: seq<Cid>)
      requires Valid()
      modifies this`deferred, this`ledger, metrics`counters
      ensures Valid() && Lists(order, Expired(old(Model()), now)) && Model() == Fold(old(Model()), order, Forfeit)
    {
      ghost var start := Model();
      var expired;
      expired, order := CollectExpired(now);
      CountExpired(start, order, Expired(start, now), expired);
    }

    method CountExpired(ghost start: Engine, ghost order: seq<Cid>, ghost due: set<Cid>, expired: seq<(string, nat)>)
      requires Valid() && Model() == start.(deferred := start.deferred - due)
      requires Lists(order, due) && Describes(start.deferred, order, expired)
      modifies this`ledger, metrics`counters
      ensures Valid() && Model() == Fold(start, order, Forfeit)
    {
      var i := 0;
      while i < |expired|
        invariant i <= |expired| && Valid()
        invariant metrics.counters == Fold(start, order[..i], Forfeit).counters
        invariant ledger == Fold(start, order[..i], Forfeit).ledger
      {
        ghost var f := Fold(start, order[..i], Forfeit);
        ForfeitNext(start, order, due, i);
        metrics.OnOrphanResponses(expired[i].0, expired[i].1);
        ledger := Forfeit(f, order[i]).ledger;
        i := i + 1;
      }
      assert order[..i] == order;
      ForfeitedTable(start, order);
      ListsMembers(order, due);
      assert Members(order) == due;
    }

    /** One pass over the held streams.  The result does not depend on the orders
        the tables are visited in. */
    method ResolveHeld(now: nat) returns (ghost ready: seq<Cid>, ghost expired: seq<Cid>)
      requires Valid()
      modifies this`deferred, this`traced, this`offered, this`ledger, correlate, metrics`counters, metrics`latencies, metrics`latencyLog
      ensures Valid() && Leads(old(Model()), ResolveDeferred(now, ready, expired), Model())
      ensures Settles(old(Model()), now, Model())
      ensures forall r: seq<Cid>, e: seq<Cid> :: ResolveOrders(old(Model()), r, e, now) ==> Model() == Resolve(old(Model()), r, e)
    {
      ghost var start := Model();
      ready := ReplayReady();
      ghost var mid := Model();
      expired := ExpireHeld(now);
      ResolvedAnyWay(start, now, ready, mid, expired, Model());
    }

    /** Evicts the calls that outlived their TTL. */
    method SweepTable(clock: Cid -> nat) returns (ghost order: seq<Cid>)
      requires Valid()
      modifies this`ledger, correlate, metrics`counters
      ensures Valid() && Leads(old(Model()), SweepCalls(clock, order), Model())
      ensures KeepsTheYoung(old(Model()).calls, Model().calls, correlate.ttl, clock)
    {
      ghost var start := Model();
      ghost var due := Outlived(start.calls, correlate.ttl, clock);
      var evicted;
      evicted, order := correlate.Sweep(clock);
      ghost var young := correlate.entries;
      CountEvicted(start, order, due, evicted);
      assert Model().calls == young;
    }

    method CountEvicted(ghost start: Engine, ghost order: seq<Cid>, ghost due: set<Cid>, evicted: seq<PendingCall>)
      requires Valid() && Model() == start.(calls := start.calls - due)
      requires Swept(start.calls, due, order, evicted)
      modifies this`ledger, metrics`counters
      ensures Valid() && Model() == Fold(start, order, Retire)
    {
      var i := 0;
      while i < |evicted|
        invariant i <= |evicted| && Valid()
        invariant metrics.counters == Fold(start, order[..i], Retire).counters
        invariant ledger == Fold(start, order[..i], Retire).ledger
      {
        RetiredStep(start, order, due, i);
        CountGivenUp(evicted[i]);
        ledger := ledger.(unmatched := ledger.unmatched + multiset{evicted[i].serial});
        i := i + 1;
      }
      assert order[..i] == order;
      RetiredTable(start, order);
      ListsMembers(order, due);
      assert Members(order) == due;
    }
  }
}
