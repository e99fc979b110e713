/** What the observer's correlation engine does to its tables and counters, as
    functions of the state.  The class `Collector.Monitor` is proved against them. */
module Engine {
  import opened Wire
  import opened Correlation
  import opened Folds

  const ORPHAN_GRACE: nat := 250_000_000
  const MAX_DEFERRED: nat := 16_384
  const MAX_DEFERRED_SAMPLES: nat := 4_096
  const U64_RANGE: nat := 0x1_0000_0000_0000_0000

  // ---------------------------------------------------------------------------
  // State
  // ---------------------------------------------------------------------------

  /** `sampleRate` is 0 when tracing is off. */
  datatype Config = Config(maxInflight: nat, callTtl: nat, sampleRate: nat)

  datatype Key = Key(channel: string, serviceId: nat)
  datatype RequestSeries = RequestSeries(channel: string, serviceId: nat, methodName: string)
  datatype ResponseSeries = ResponseSeries(channel: string, serviceId: nat, kind: EventKind)
  datatype LatencySample = LatencySample(channel: string, serviceId: nat, methodName: string, ns: nat)

  /** A counter keyed by labels is a bag of labels; the in-flight gauge is signed. */
  datatype Counters = Counters(
    requests: multiset<RequestSeries>,
    responses: multiset<ResponseSeries>,
    latency: multiset<LatencySample>,
    inflight: map<Key, int>,
    unmatched: multiset<string>,
    orphan: multiset<string>,
    clockSkew: nat)

  /** A held response.  `tag` is its arrival number (bookkeeping, like `serial`). */
  datatype HeldSample = HeldSample(header: RpcHeader, emitter: Emitter, payloadLen: nat, tag: nat)

  datatype DeferredResponses = DeferredResponses(channel: string, samples: seq<HeldSample>, since: nat)

  type DeferredTable = map<Cid, DeferredResponses>

  /** What became of every request and of every response since the start.  Only
      the model keeps it: no operation reads it. */
  datatype Ledger = Ledger(
    requests: nat,
    responses: nat,
    // fate of the responses, by tag
    direct: multiset<nat>,
    replayed: multiset<nat>,
    orphaned: multiset<nat>,
    triggers: multiset<nat>,
    behind: multiset<nat>,
    // fate of the requests, by serial
    closed: multiset<nat>,
    unmatched: multiset<nat>,
    overwritten: multiset<nat>,
    overwrittenKeys: multiset<Key>,
    // one entry per matched response, and per latency or clock-skew record
    matched: multiset<nat>,
    measured: multiset<nat>)

  datatype Engine = Engine(
    config: Config,
    calls: Calls,
    deferred: DeferredTable,
    counters: Counters,
    traced: nat,
    offered: nat,
    ledger: Ledger)

  const NO_COUNTERS := Counters(multiset{}, multiset{}, multiset{}, map[], multiset{}, multiset{}, 0)

  const BLANK := Ledger(0, 0, multiset{}, multiset{}, multiset{}, multiset{}, multiset{},
                        multiset{}, multiset{}, multiset{}, multiset{}, multiset{}, multiset{})

  function Init(config: Config): Engine
  {
    Engine(config, map[], map[], NO_COUNTERS, 0, 0, BLANK)
  }

  // ---------------------------------------------------------------------------
  // Requests
  // ---------------------------------------------------------------------------

  function KeyOf(call: PendingCall): Key
  {
    Key(call.channel, call.serviceId)
  }

  function Level(gauge: map<Key, int>, key: Key): int
  {
    if key in gauge then gauge[key] else 0
  }

  function Adjust(gauge: map<Key, int>, key: Key, delta: int): map<Key, int>
  {
    gauge[key := Level(gauge, key) + delta]
  }

  /** A request, and a call given up, in the counters. */
  function AskCounters(c: Counters, call: PendingCall): Counters
  {
    c.(requests := c.requests + multiset{RequestSeries(call.channel, call.serviceId, call.methodName)},
       inflight := Adjust(c.inflight, KeyOf(call), 1))
  }

  function UnmatchedCounters(c: Counters, call: PendingCall): Counters
  {
    c.(unmatched := c.unmatched + multiset{call.channel}, inflight := Adjust(c.inflight, KeyOf(call), -1))
  }

  /** Gives a call up: out of the table, counted as unmatched, gauge lowered. */
  function Retire(s: Engine, cid: Cid): Engine
  {
    if cid !in s.calls then s
    else
      var call := s.calls[cid];
      s.(calls := s.calls - {cid},
         counters := UnmatchedCounters(s.counters, call),
         ledger := s.ledger.(unmatched := s.ledger.unmatched + multiset{call.serial}))
  }

  /** Counts a request and tracks its call, over an older one if the id is taken. */
  function Track(s: Engine, cid: Cid, call: PendingCall): Engine
  {
    var lost := if cid in s.calls then multiset{s.calls[cid].serial} else multiset{};
    var lostKeys := if cid in s.calls then multiset{KeyOf(s.calls[cid])} else multiset{};
    s.(calls := s.calls[cid := call],
       counters := AskCounters(s.counters, call),
       ledger := s.ledger.(requests := s.ledger.requests + 1,
                           overwritten := s.ledger.overwritten + lost,
                           overwrittenKeys := s.ledger.overwrittenKeys + lostKeys))
  }

  function NewCall(s: Engine, channel: string, header: RpcHeader, methodName: string, len: nat, now: nat): PendingCall
  {
    PendingCall(channel, header.serviceId, methodName, header.timestampNs, len, false, now, s.ledger.requests)
  }

  function MakeRoom(s: Engine, victim: Cid): Engine
  {
    if Full(s.calls, s.config.maxInflight) then Retire(s, victim) else s
  }

  /** A request sample; any other kind on the request channel is ignored. */
  function OnRequest(s: Engine, channel: string, header: RpcHeader, methodName: string, len: nat, now: nat, victim: Cid): Engine
  {
    if header.kind != Request then s
    else Track(MakeRoom(s, victim), header.cid, NewCall(s, channel, header, methodName, len, now))
  }

  // ---------------------------------------------------------------------------
  // Responses
  // ---------------------------------------------------------------------------

  /** The first response of a call yields its latency, or a clock-skew count. */
  function Measure(c: Counters, call: PendingCall, ts: nat): Counters
  {
    if call.firstResponseSeen then c
    else if ts >= call.requestTs then
      c.(latency := c.latency + multiset{LatencySample(call.channel, call.serviceId, call.methodName, ts - call.requestTs)})
    else c.(clockSkew := c.clockSkew + 1)
  }

  function NoteMatch(l: Ledger, call: PendingCall): Ledger
  {
    l.(matched := l.matched + multiset{call.serial},
       measured := if call.firstResponseSeen then l.measured else l.measured + multiset{call.serial})
  }

  function NextTraced(rate: nat, traced: nat): nat
  {
    if rate == 0 then traced else (traced + 1) % U64_RANGE
  }

  function NextOffered(rate: nat, traced: nat, offered: nat): nat
  {
    if rate != 0 && NextTraced(rate, traced) % rate == 0 then offered + 1 else offered
  }

  /** A terminal response: the gauge is lowered and one call in `sampleRate` is
      offered to the trace sink. */
  function Close(s: Engine, call: PendingCall): Engine
  {
    s.(counters := s.counters.(inflight := Adjust(s.counters.inflight, KeyOf(call), -1)),
       traced := NextTraced(s.config.sampleRate, s.traced),
       offered := NextOffered(s.config.sampleRate, s.traced, s.offered),
       ledger := s.ledger.(closed := s.ledger.closed + multiset{call.serial}))
  }

  /** A response that belongs to the tracked call `cid`. */
  function Match(s: Engine, cid: Cid, ts: nat, terminal: bool): Engine
    requires cid in s.calls
  {
    var call := s.calls[cid];
    var seen := s.(calls := AfterResponse(s.calls, cid, terminal),
                   counters := Measure(s.counters, call, ts),
                   ledger := NoteMatch(s.ledger, call));
    if terminal then Close(seen, call) else seen
  }

  function Direct(s: Engine, header: RpcHeader, tag: nat): Engine
    requires header.cid in s.calls
  {
    var m := Match(s, header.cid, header.timestampNs, header.kind.IsTerminal());
    m.(ledger := m.ledger.(direct := m.ledger.direct + multiset{tag}))
  }

  function Tags(samples: seq<HeldSample>): multiset<nat>
  {
    if samples == [] then multiset{} else multiset{samples[0].tag} + Tags(samples[1..])
  }

  /** Gives a held stream up: one orphan per sample. */
  function Forfeit(s: Engine, cid: Cid): Engine
  {
    if cid !in s.deferred then s
    else
      var entry := s.deferred[cid];
      s.(deferred := s.deferred - {cid},
         counters := s.counters.(orphan := s.counters.orphan + multiset{}[entry.channel := |entry.samples|]),
         ledger := s.ledger.(orphaned := s.ledger.orphaned + Tags(entry.samples)))
  }

  predicate IsOldestHeld(table: DeferredTable, cid: Cid)
  {
    cid in table && forall c :: c in table ==> table[cid].since <= table[c].since
  }

  predicate Overflowing(s: Engine, cid: Cid)
  {
    cid in s.deferred && |s.deferred[cid].samples| >= MAX_DEFERRED_SAMPLES
  }

  function Hold(s: Engine, channel: string, sample: HeldSample, now: nat): Engine
  {
    var cid := sample.header.cid;
    var entry := if cid in s.deferred then s.deferred[cid] else DeferredResponses(channel, [], now);
    s.(deferred := s.deferred[cid := entry.(samples := entry.samples + [sample])])
  }

  /** The sample that finds its stream full is itself neither held nor counted. */
  function GiveUp(s: Engine, sample: HeldSample): Engine
  {
    var f := Forfeit(s, sample.header.cid);
    f.(ledger := f.ledger.(triggers := f.ledger.triggers + multiset{sample.tag}))
  }

  function Defer(s: Engine, channel: string, sample: HeldSample, now: nat, victim: Cid): Engine
  {
    var room := if |s.deferred| >= MAX_DEFERRED then Forfeit(s, victim) else s;
    if Overflowing(room, sample.header.cid) then GiveUp(room, sample)
    else Hold(room, channel, sample, now)
  }

  function CountResponse(s: Engine, channel: string, header: RpcHeader): Engine
  {
    s.(counters := s.counters.(responses := s.counters.responses + multiset{ResponseSeries(channel, header.serviceId, header.kind)}),
       ledger := s.ledger.(responses := s.ledger.responses + 1))
  }

  function OnResponse(s: Engine, channel: string, header: RpcHeader, emitter: Emitter, len: nat, now: nat, victim: Cid): Engine
  {
    var counted := CountResponse(s, channel, header);
    if header.cid in s.calls then Direct(counted, header, s.ledger.responses)
    else Defer(counted, channel, HeldSample(header, emitter, len, s.ledger.responses), now, victim)
  }

  // ---------------------------------------------------------------------------
  // Replay and expiry
  // ---------------------------------------------------------------------------

  /** One held sample, replayed; behind a terminal it finds no call and is lost. */
  function ReplaySample(s: Engine, cid: Cid, sample: HeldSample): Engine
  {
    if cid in s.calls then
      var m := Match(s, cid, sample.header.timestampNs, sample.header.kind.IsTerminal());
      m.(ledger := m.ledger.(replayed := m.ledger.replayed + multiset{sample.tag}))
    else
      s.(ledger := s.ledger.(behind := s.ledger.behind + multiset{sample.tag}))
  }

  function ReplaySamples(s: Engine, cid: Cid, samples: seq<HeldSample>): Engine
    decreases |samples|
  {
    if samples == [] then s
    else ReplaySamples(ReplaySample(s, cid, samples[0]), cid, samples[1..])
  }

  function Replay(s: Engine, cid: Cid): Engine
  {
    if cid !in s.deferred then s
    else ReplaySamples(s.(deferred := s.deferred - {cid}), cid, s.deferred[cid].samples)
  }

  function Ready(s: Engine): set<Cid>
  {
    set c | c in s.deferred && c in s.calls
  }

  function Expired(s: Engine, now: nat): set<Cid>
  {
    set c | c in s.deferred && Elapsed(s.deferred[c].since, now) >= ORPHAN_GRACE
  }

  /** One pass over the held streams, in the orders the hash map yields. */
  ghost function Resolve(s: Engine, ready: seq<Cid>, expired: seq<Cid>): Engine
  {
    Fold(Fold(s, ready, Replay), expired, Forfeit)
  }

  ghost predicate ResolveOrders(s: Engine, ready: seq<Cid>, expired: seq<Cid>, now: nat)
  {
    && Lists(ready, Ready(s))
    && Lists(expired, Expired(Fold(s, ready, Replay), now))
  }

  ghost function Sweep(s: Engine, outlived: seq<Cid>): Engine
  {
    Fold(s, outlived, Retire)
  }

  // ---------------------------------------------------------------------------
  // Runs
  // ---------------------------------------------------------------------------

  /** An operation, with the choices the hash maps make for it: which of several
      oldest entries is evicted, in which order entries are visited and, where each visit
      reads the clock, when. */
  datatype Op =
    | RequestSample(channel: string, header: RpcHeader, methodName: string, len: nat, now: nat, victim: Cid)
    | ResponseSample(channel: string, header: RpcHeader, emitter: Emitter, len: nat, now: nat, victim: Cid)
    | ResolveDeferred(now: nat, ready: seq<Cid>, expired: seq<Cid>)
    | SweepCalls(clock: Cid -> nat, outlived: seq<Cid>)

  ghost predicate Allowed(s: Engine, op: Op)
  {
    match op
    case RequestSample(_, header, _, _, _, victim) =>
      header.kind == Request && Full(s.calls, s.config.maxInflight) ==> IsOldest(s.calls, victim)
    case ResponseSample(_, header, _, _, _, victim) =>
      header.cid !in s.calls && |s.deferred| >= MAX_DEFERRED ==> IsOldestHeld(s.deferred, victim)
    case ResolveDeferred(now, ready, expired) =>
      ResolveOrders(s, ready, expired, now)
    case SweepCalls(clock, outlived) =>
      Lists(outlived, Outlived(s.calls, s.config.callTtl, clock))
  }

  ghost function Apply(s: Engine, op: Op): Engine
  {
    match op
    case RequestSample(channel, header, methodName, len, now, victim) =>
      OnRequest(s, channel, header, methodName, len, now, victim)
    case ResponseSample(channel, header, emitter, len, now, victim) =>
      OnResponse(s, channel, header, emitter, len, now, victim)
    case ResolveDeferred(_, ready, expired) => Resolve(s, ready, expired)
    case SweepCalls(_, outlived) => Sweep(s, outlived)
  }

  ghost predicate Leads(s: Engine, op: Op, t: Engine)
  {
    Allowed(s, op) && t == Apply(s, op)
  }

  /** `states` is what the operations `ops` make of a fresh engine. */
  ghost predicate Run(config: Config, ops: seq<Op>, states: seq<Engine>)
  {
    && |states| == |ops| + 1
    && states[0] == Init(config)
    && forall i :: 0 <= i < |ops| ==> Leads(states[i], ops[i], states[i + 1])
  }
}
