/** The counters the observer exports. */
module Metrics {
  import opened Wire
  import opened Folds
  import opened Engine

  // ---------------------------------------------------------------------------
  // Histograms
  // ---------------------------------------------------------------------------

  /** Upper bounds of the buckets: nanoseconds, and bytes. */
  const LATENCY_BOUNDS: seq<nat> := [
    100_000, 250_000, 500_000, 1_000_000, 2_500_000, 5_000_000, 10_000_000, 25_000_000, 50_000_000,
    100_000_000, 250_000_000, 500_000_000, 1_000_000_000, 2_500_000_000, 5_000_000_000, 10_000_000_000]
  const PAYLOAD_BOUNDS: seq<nat> := [16, 64, 256, 1024, 4096, 16384, 65536, 262144, 1048576]

  /** How many of the observed values are at most `bound`. */
  function AtMost(values: seq<nat>, bound: nat): nat
  {
    if values == [] then 0
    else AtMost(values[..|values| - 1], bound) + if values[|values| - 1] <= bound then 1 else 0
  }

  function Sum(values: seq<nat>): nat
  {
    if values == [] then 0 else Sum(values[..|values| - 1]) + values[|values| - 1]
  }

  /** A cumulative histogram: `buckets[i]` counts the values up to the `i`-th bound. */
  datatype Histogram = Histogram(buckets: seq<nat>, sum: nat, count: nat)

  function HistogramOf(values: seq<nat>, bounds: seq<nat>): Histogram
  {
    Histogram(seq(|bounds|, i requires 0 <= i < |bounds| => AtMost(values, bounds[i])), Sum(values), |values|)
  }

  function NoneObserved(buckets: nat): Histogram
  {
    Histogram(seq(buckets, _ => 0), 0, 0)
  }

  /** One value more: every bucket whose bound it does not exceed, the sum and the count. */
  ghost predicate Observed(h: Histogram, value: nat, bounds: seq<nat>, r: Histogram)
  {
    && |r.buckets| == |h.buckets| == |bounds| && r.count == h.count + 1 && r.sum == h.sum + value
    && forall i :: 0 <= i < |bounds| ==> r.buckets[i] == h.buckets[i] + if value <= bounds[i] then 1 else 0
  }

  /** The latency buckets go from a tenth of a millisecond to ten seconds, those of payloads
      from 16 bytes to a mebibyte. */
  lemma BoundsIncrease()
    ensures |LATENCY_BOUNDS| == 16 && LATENCY_BOUNDS[0] == 100_000 && LATENCY_BOUNDS[15] == 10_000_000_000
    ensures |PAYLOAD_BOUNDS| == 9 && PAYLOAD_BOUNDS[0] == 16 && PAYLOAD_BOUNDS[8] == 0x100000
    ensures forall i, j :: 0 <= i < j < 16 ==> LATENCY_BOUNDS[i] < LATENCY_BOUNDS[j]
    ensures forall i, j :: 0 <= i < j < 9 ==> PAYLOAD_BOUNDS[i] < PAYLOAD_BOUNDS[j]
  {
  }

  /** Adds one value to the histogram of `values`. */
  method Observe(h: Histogram, value: nat, bounds: seq<nat>, ghost values: seq<nat>) returns (r: Histogram)
    requires h == HistogramOf(values, bounds)
    ensures r == HistogramOf(values + [value], bounds)
    ensures r.count == |values| + 1 && Observed(h, value, bounds, r)
  {
    assert (values + [value])[..|values|] == values;
    var buckets := h.buckets;
    var i := 0;
    while i < |bounds|
      invariant 0 <= i <= |bounds| == |buckets|
      invariant forall j :: 0 <= j < i ==> buckets[j] == AtMost(values + [value], bounds[j])
      invariant forall j :: 0 <= j < i ==> buckets[j] == h.buckets[j] + if value <= bounds[j] then 1 else 0
      invariant forall j :: i <= j < |bounds| ==> buckets[j] == AtMost(values, bounds[j]) == h.buckets[j]
    {
      if value <= bounds[i] {
        buckets := buckets[i := buckets[i] + 1];
      }
      i := i + 1;
    }
    r := Histogram(buckets, h.sum + value, h.count + 1);
  }

  /** Each bucket of the histogram of some values counts those up to its bound; with them go
      their sum and their number. */
  lemma HistogramMeans(values: seq<nat>, bounds: seq<nat>)
    ensures var h := HistogramOf(values, bounds);
      && |h.buckets| == |bounds| && h.count == |values|
      && (forall i :: 0 <= i < |bounds| ==> h.buckets[i] == |set k | 0 <= k < |values| && values[k] <= bounds[i]|)
      && (values == [] ==> h.sum == 0)
      && (values != [] ==> h.sum == HistogramOf(values[..|values| - 1], bounds).sum + values[|values| - 1])
  {
    forall i | 0 <= i < |bounds| ensures AtMost(values, bounds[i]) == |set k | 0 <= k < |values| && values[k] <= bounds[i]| {
      AtMostIsCount(values, bounds[i]);
    }
  }

  lemma {:induction false} AtMostIsCount(values: seq<nat>, bound: nat)
    ensures AtMost(values, bound) == |set k | 0 <= k < |values| && values[k] <= bound|
  {
    var low := set k | 0 <= k < |values| && values[k] <= bound;
    if values == [] {
      assert low == {};
    } else {
      var n, front := |values| - 1, values[..|values| - 1];
      AtMostIsCount(front, bound);
      var less := set k | 0 <= k < |front| && front[k] <= bound;
      assert low == if values[n] <= bound then less + {n} else less;
    }
  }

  /** Buckets are cumulative: a larger bound never counts fewer values, and no
      bound counts more than there are. */
  lemma {:induction false} BucketsAreCumulative(values: seq<nat>, lo: nat, hi: nat)
    requires lo <= hi
    ensures AtMost(values, lo) <= AtMost(values, hi) <= |values|
  {
    if values != [] { BucketsAreCumulative(values[..|values| - 1], lo, hi); }
  }

  lemma CountsSnoc(values: seq<nat>, value: nat, bound: nat)
    ensures AtMost(values + [value], bound) == AtMost(values, bound) + if value <= bound then 1 else 0
    ensures Sum(values + [value]) == Sum(values) + value
  {
    assert (values + [value])[..|values|] == values;
  }

  lemma WithoutInner(values: seq<nat>, i: nat)
    requires i < |values| - 1
    ensures var front, last := values[..|values| - 1], values[|values| - 1];
      values == front + [last] && values[..i] + values[i + 1..] == front[..i] + front[i + 1..] + [last]
  {
  }

  lemma {:induction false} AtMostRemove(values: seq<nat>, i: nat, bound: nat)
    requires i < |values|
    ensures AtMost(values, bound) == AtMost(values[..i] + values[i + 1..], bound) + if values[i] <= bound then 1 else 0
    ensures Sum(values) == Sum(values[..i] + values[i + 1..]) + values[i]
  {
    var front, last := values[..|values| - 1], values[|values| - 1];
    if i == |values| - 1 {
      assert values[..i] + values[i + 1..] == front;
    } else {
      AtMostRemove(front, i, bound);
      WithoutInner(values, i);
      CountsSnoc(front, last, bound);
      CountsSnoc(front[..i] + front[i + 1..], last, bound);
    }
  }

  lemma SameWithoutLast(a: seq<nat>, b: seq<nat>) returns (i: nat)
    requires a != [] && multiset(a) == multiset(b)
    ensures i < |b| && b[i] == a[|a| - 1]
    ensures multiset(a[..|a| - 1]) == multiset(b[..i] + b[i + 1..])
  {
    var x, front := a[|a| - 1], a[..|a| - 1];
    assert a == front + [x];
    assert x in multiset(b);
    i :| 0 <= i < |b| && b[i] == x;
    TakeOut(b, i);
    assert multiset(front) == multiset(a) - multiset{x};
  }

  lemma {:induction false} CountsIgnoreOrder(a: seq<nat>, b: seq<nat>, bound: nat)
    requires multiset(a) == multiset(b)
    ensures AtMost(a, bound) == AtMost(b, bound) && Sum(a) == Sum(b) && |a| == |b|
    decreases |a|
  {
    assert |multiset(a)| == |a| && |multiset(b)| == |b|;
    if a != [] {
      var i := SameWithoutLast(a, b);
      CountsIgnoreOrder(a[..|a| - 1], b[..i] + b[i + 1..], bound);
      AtMostRemove(b, i, bound);
    }
  }

  /** A histogram depends on what was observed, not on the order. */
  lemma HistogramIgnoresOrder(a: seq<nat>, b: seq<nat>, bounds: seq<nat>)
    requires multiset(a) == multiset(b)
    ensures HistogramOf(a, bounds) == HistogramOf(b, bounds)
  {
    CountsIgnoreOrder(a, b, 0);
    forall i | 0 <= i < |bounds| ensures AtMost(a, bounds[i]) == AtMost(b, bounds[i]) {
      CountsIgnoreOrder(a, b, bounds[i]);
    }
  }

  // ---------------------------------------------------------------------------
  // One histogram per series
  // ---------------------------------------------------------------------------

  datatype Entry<K> = Entry(series: K, value: nat)

  /** The values logged for one series. */
  function Values<K(==)>(log: seq<Entry<K>>, series: K): seq<nat>
  {
    if log == [] then []
    else
      var last := log[|log| - 1];
      Values(log[..|log| - 1], series) + if last.series == series then [last.value] else []
  }

  function SeriesOf<K(==)>(log: seq<Entry<K>>): set<K>
  {
    set e | e in log :: e.series
  }

  function Histograms<K(==)>(log: seq<Entry<K>>, bounds: seq<nat>): map<K, Histogram>
  {
    map k | k in SeriesOf(log) :: HistogramOf(Values(log, k), bounds)
  }

  lemma {:induction false} NoValues<K>(log: seq<Entry<K>>, series: K)
    ensures series !in SeriesOf(log) ==> Values(log, series) == []
  {
    if log != [] && series !in SeriesOf(log) {
      var front, last := log[..|log| - 1], log[|log| - 1];
      assert last in log && last.series in SeriesOf(log);
      forall e | e in front ensures e.series != series {
        assert e in log && e.series in SeriesOf(log);
      }
      NoValues(front, series);
    }
  }

  lemma HistogramsAdd<K>(log: seq<Entry<K>>, e: Entry<K>, bounds: seq<nat>)
    ensures Histograms(log + [e], bounds) ==
            Histograms(log, bounds)[e.series := HistogramOf(Values(log, e.series) + [e.value], bounds)]
  {
    var more := log + [e];
    assert more[..|log|] == log;
    forall k ensures k in SeriesOf(more) <==> k in SeriesOf(log) || k == e.series {
      if k in SeriesOf(log) {
        var x :| x in log && x.series == k;
        assert x in more;
      } else if k == e.series {
        assert e in more;
      }
    }
    forall k | k in SeriesOf(log) && k != e.series ensures Values(more, k) == Values(log, k) {
      assert Values(log, k) + [] == Values(log, k);
    }
    assert Values(more, e.series) == Values(log, e.series) + [e.value];
  }

  lemma {:induction false} ValuesCounted<K>(log: seq<Entry<K>>, series: K, value: nat)
    ensures multiset(Values(log, series))[value] == multiset(log)[Entry(series, value)]
  {
    if log != [] {
      var front, last := log[..|log| - 1], log[|log| - 1];
      assert log == front + [last];
      ValuesCounted(front, series, value);
    }
  }

  /** Logs of the same entries, in whatever order, give the same histograms. */
  lemma HistogramsIgnoreOrder<K>(a: seq<Entry<K>>, b: seq<Entry<K>>, bounds: seq<nat>)
    requires multiset(a) == multiset(b)
    ensures Histograms(a, bounds) == Histograms(b, bounds)
  {
    SameSeries(a, b);
    forall k | k in SeriesOf(a) ensures HistogramOf(Values(a, k), bounds) == HistogramOf(Values(b, k), bounds) {
      SameValues(a, b, k);
      HistogramIgnoresOrder(Values(a, k), Values(b, k), bounds);
    }
  }

  lemma SameValues<K>(a: seq<Entry<K>>, b: seq<Entry<K>>, k: K)
    requires multiset(a) == multiset(b)
    ensures multiset(Values(a, k)) == multiset(Values(b, k))
  {
    forall v: nat ensures multiset(Values(a, k))[v] == multiset(Values(b, k))[v] {
      ValuesCounted(a, k, v);
      ValuesCounted(b, k, v);
    }
  }

  lemma SameSeries<K>(a: seq<Entry<K>>, b: seq<Entry<K>>)
    requires multiset(a) == multiset(b)
    ensures SeriesOf(a) == SeriesOf(b)
  {
    assert forall e :: e in a <==> e in multiset(a);
    assert forall e :: e in b <==> e in multiset(b);
  }

  // The latencies of the engine, as a log

  function EntryOf(x: LatencySample): Entry<RequestSeries>
  {
    Entry(RequestSeries(x.channel, x.serviceId, x.methodName), x.ns)
  }

  function Entries(samples: seq<LatencySample>): (log: seq<Entry<RequestSeries>>)
    ensures |log| == |samples|
    ensures forall i :: 0 <= i < |log| ==> log[i] == EntryOf(samples[i])
  {
    seq(|samples|, i requires 0 <= i < |samples| => EntryOf(samples[i]))
  }

  lemma {:induction false} EntriesCounted(samples: seq<LatencySample>, x: LatencySample)
    ensures multiset(Entries(samples))[EntryOf(x)] == multiset(samples)[x]
  {
    if samples != [] {
      var front, last := samples[..|samples| - 1], samples[|samples| - 1];
      assert samples == front + [last];
      assert Entries(samples) == Entries(front) + [EntryOf(last)];
      EntriesCounted(front, x);
    }
  }

  /** The latency histograms are a function of the bag the engine reasons about:
      whatever order its samples are listed in, they give the same histograms. */
  lemma LatenciesAreOfTheBag(a: seq<LatencySample>, b: seq<LatencySample>)
    requires multiset(a) == multiset(b)
    ensures Histograms(Entries(a), LATENCY_BOUNDS) == Histograms(Entries(b), LATENCY_BOUNDS)
  {
    var x, y := Entries(a), Entries(b);
    forall e: Entry<RequestSeries> ensures multiset(x)[e] == multiset(y)[e] {
      var sample := LatencySample(e.series.channel, e.series.serviceId, e.series.methodName, e.value);
      assert EntryOf(sample) == e;
      EntriesCounted(a, sample);
      EntriesCounted(b, sample);
    }
    assert multiset(x) == multiset(y);
    HistogramsIgnoreOrder(x, y, LATENCY_BOUNDS);
  }

  /** One latency more, in the histogram of its series. */
  lemma LatencyLogged(log: seq<LatencySample>, x: LatencySample)
    ensures var series := RequestSeries(x.channel, x.serviceId, x.methodName);
      Histograms(Entries(log + [x]), LATENCY_BOUNDS)
      == Histograms(Entries(log), LATENCY_BOUNDS)[series := HistogramOf(Values(Entries(log), series) + [x.ns], LATENCY_BOUNDS)]
  {
    assert Entries(log + [x]) == Entries(log) + [EntryOf(x)];
    HistogramsAdd(Entries(log), EntryOf(x), LATENCY_BOUNDS);
  }

  // ---------------------------------------------------------------------------
  // The registry
  // ---------------------------------------------------------------------------

  datatype PayloadSeries = PayloadSeries(channel: string, direction: Direction)

  /** The registry behind the lock.  `counters.latency` and the logs are what the
      histograms summarise: bookkeeping. */
  class Registry {
    var counters: Counters
    var latencies: map<RequestSeries, Histogram>
    var payloads: map<PayloadSeries, Histogram>
    var sampleGaps: nat
    ghost var latencyLog: seq<LatencySample>
    ghost var payloadLog: seq<Entry<PayloadSeries>>

    ghost predicate Valid()
      reads this
    {
      && counters.latency == multiset(latencyLog)
      && latencies == Histograms(Entries(latencyLog), LATENCY_BOUNDS)
      && payloads == Histograms(payloadLog, PAYLOAD_BOUNDS)
    }

    constructor ()
      ensures Valid() && counters == NO_COUNTERS && payloadLog == [] && sampleGaps == 0
    {
      counters, sampleGaps := NO_COUNTERS, 0;
      latencies, payloads, latencyLog, payloadLog := map[], map[], [], [];
    }

    method OnRequest(channel: string, serviceId: nat, methodName: string)
      modifies this`counters
      ensures counters == old(counters).(requests := old(counters).requests + multiset{RequestSeries(channel, serviceId, methodName)})
    {
      counters := counters.(requests := counters.requests + multiset{RequestSeries(channel, serviceId, methodName)});
    }

    method OnResponse(channel: string, serviceId: nat, kind: EventKind)
      modifies this`counters
      ensures counters == old(counters).(responses := old(counters).responses + multiset{ResponseSeries(channel, serviceId, kind)})
    {
      counters := counters.(responses := counters.responses + multiset{ResponseSeries(channel, serviceId, kind)});
    }

    /** Records the latency of one call in the histogram of its series. */
    method OnLatency(channel: string, serviceId: nat, methodName: string, ns: nat)
      requires Valid()
      modifies this`counters, this`latencies, this`latencyLog
      ensures Valid()
      ensures counters == old(counters).(latency := old(counters).latency + multiset{LatencySample(channel, serviceId, methodName, ns)})
      ensures var series := RequestSeries(channel, serviceId, methodName);
        && series in latencies && latencies == old(latencies)[series := latencies[series]]
        && Observed(if series in old(latencies) then old(latencies)[series] else NoneObserved(16), ns, LATENCY_BOUNDS, latencies[series])
    {
      var series := RequestSeries(channel, serviceId, methodName);
      var sample := LatencySample(channel, serviceId, methodName, ns);
      ghost var log := Entries(latencyLog);
      NoValues(log, series);
      LatencyLogged(latencyLog, sample);
      var h := if series in latencies then latencies[series] else NoneObserved(|LATENCY_BOUNDS|);
      h := Observe(h, ns, LATENCY_BOUNDS, Values(log, series));
      latencies := latencies[series := h];
      latencyLog := latencyLog + [sample];
      counters := counters.(latency := counters.latency + multiset{sample});
    }

    method OnInflight(channel: string, serviceId: nat, delta: int)
      modifies this`counters
      ensures counters == old(counters).(inflight := Adjust(old(counters).inflight, Key(channel, serviceId), delta))
    {
      var key := Key(channel, serviceId);
      var level := if key in counters.inflight then counters.inflight[key] else 0;
      counters := counters.(inflight := counters.inflight[key := level + delta]);
    }

    method OnUnmatchedRequest(channel: string)
      modifies this`counters
      ensures counters == old(counters).(unmatched := old(counters).unmatched + multiset{channel})
    {
      counters := counters.(unmatched := counters.unmatched + multiset{channel});
    }

    method OnOrphanResponse(channel: string)
      modifies this`counters
      ensures counters == old(counters).(orphan := old(counters).orphan + multiset{channel})
    {
      counters := counters.(orphan := counters.orphan + multiset{channel});
    }

    /** One orphan per sample of a stream that was given up. */
    method OnOrphanResponses(channel: string, count: nat)
      modifies this`counters
      ensures counters == old(counters).(orphan := old(counters).orphan + multiset{}[channel := count])
    {
      var i := 0;
      while i < count
        invariant i <= count
        invariant counters == old(counters).(orphan := old(counters).orphan + multiset{}[channel := i])
      {
        OnOrphanResponse(channel);
        assert multiset{}[channel := i] + multiset{channel} == multiset{}[channel := i + 1];
        assert old(counters).orphan + multiset{}[channel := i] + multiset{channel}
               == old(counters).orphan + (multiset{}[channel := i] + multiset{channel});
        i := i + 1;
      }
    }

    method OnClockSkew()
      modifies this`counters
      ensures counters == old(counters).(clockSkew := old(counters).clockSkew + 1)
    {
      counters := counters.(clockSkew := counters.clockSkew + 1);
    }

    method OnSampleGap(missed: nat)
      modifies this`sampleGaps
      ensures sampleGaps == old(sampleGaps) + missed
    {
      if missed == 0 { return; }
      sampleGaps := sampleGaps + missed;
    }

    /** Records the payload length of one sample in the histogram of its series. */
    method OnPayload(channel: string, direction: Direction, len: nat)
      requires Valid()
      modifies this`payloads, this`payloadLog
      ensures Valid() && payloadLog == old(payloadLog) + [Entry(PayloadSeries(channel, direction), len)]
      ensures var series := PayloadSeries(channel, direction);
        && series in payloads && payloads == old(payloads)[series := payloads[series]]
        && Observed(if series in old(payloads) then old(payloads)[series] else NoneObserved(9), len, PAYLOAD_BOUNDS, payloads[series])
    {
      var series := PayloadSeries(channel, direction);
      NoValues(payloadLog, series);
      var h := if series in payloads then payloads[series] else NoneObserved(|PAYLOAD_BOUNDS|);
      h := Observe(h, len, PAYLOAD_BOUNDS, Values(payloadLog, series));
      HistogramsAdd(payloadLog, Entry(series, len), PAYLOAD_BOUNDS);
      payloads := payloads[series := h];
      payloadLog := payloadLog + [Entry(series, len)];
    }
  }
}
