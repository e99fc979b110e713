# ice-rpc: a verified model

ice-rpc is a Rust remote-procedure-call stack over shared memory. This project models
five of its parts in Dafny and proves what they promise over all inputs, all runs and
all thread interleavings:

- **the observer's correlation engine** (`Loss`, `Wire`, `Correlation`, `Engine*`,
  `Metrics`, `Collector`): it drains requests and responses in no particular order,
  pairs them by correlation id, holds early responses, replays them, evicts on capacity,
  age or grace, and keeps counters that must agree with its tables. `Engine` gives the
  operations as functions of the state, `EngineSteps` what each does to the tables,
  counters and labels, item by item, `EngineInvariant` the laws every operation keeps,
  `EngineTheorems`, `EngineLabels`, `EngineLeaks` and `EngineConfluence` what they mean
  over whole runs,
  `EngineRecords` which request and response each latency was taken between,
  `EngineViews`, `EngineAgreement`, `EngineDrain`, `EngineOrder` and `EngineEarly` what the
  order of a request and its responses does and does not change, `EngineRuns` the runs
  that miss a property; `Collector.Monitor` is the in-place object, each method a step of
  those runs;
- **the multicast subject** (`Subject*`): a two-lock protocol as a small-step machine of
  any number of concurrent calls and receivers, refined to a subject whose calls are
  atomic; `Subject.MulticastSubject` is the in-place object;
- **streams and their readers** (`Events`, `Stream`, `Creation`, `Subscribe`): three kinds
  of source that must behave as one, abrupt closes, cleanup, deferred creation and the
  push loop, for every schedule of pending polls and cancellations;
- **the Node.js gateway** (`Bridge`, `Gateway*`): envelopes, the table of open calls, and
  lifecycle changes interleaved with calls and answers, lock by lock; the in-place
  objects are proved against the uninterrupted machine;
- **the trace sink** (`Traces`): a bounded queue that drops rather than blocks, and the
  writer thread behind it.

## Conventions

- Clocks, hash-map iteration order, wake-ups, races and the answers of foreign code are
  parameters: a statement for all of them is a statement for all behaviours. Where the
  code reads the clock once per entry, as the sweep does, so does the model.
- A labelled counter family is the `multiset` of the labels counted; the in-flight gauge
  is a map of integers. Latencies are integer nanoseconds, not `f64` seconds.
- `serial`, `tag`, `ledger`, `offers`, `answers`, `seen`, `values`, `all` and the logs are
  bookkeeping that no step reads: they number arrivals and record what happened to each,
  so that conservation can be stated item by item.
- Payloads and envelope data are opaque. 64-bit wrap-around is modelled where it shows
  (the trace sampling position, the sink's dropped counter, loss gaps).

## What does not hold

Where the code misses a property one would expect, the model keeps the code and says
when the property is met.

- The in-flight gauge is exact if and only if no request of the run reused an id still
  tracked: the old call is overwritten without being accounted for
  (`GaugeIsExactIffIdsAreFresh`, `GaugeDrifts`). It is exact in every run if and only if
  the table is for at most one call (`GaugeIsAlwaysExactIffOneCallAtMost`).
- Every response is matched, held or counted as an orphan if and only if no response of
  the run found its held stream full and no pass replayed a stream past a terminal: those
  two are lost uncounted (`ResponsesAddUpIffNothingLeaks`, `OverflowLosesAResponse`,
  `ReplayLosesATail`).
- Observing a request after some responses of its call, or first, comes to the same for
  every later pass over the held streams in exactly three cases: no response came before
  it; none came after it, before that pass, and none follows a terminal one; or some came
  on each side, none is terminal, and the first of each side yield the same record.
  Otherwise no later pass makes up for it, except that two closed calls left with as many
  responses over may end up with the same counters (`OrderMattersUnlessHarmless`,
  `EarlyIsHarmlessIff`, `EarlyResponseIsPassedOver`).
- A call is measured on the first of its responses observed if and only if no response
  reached a call not answered yet while earlier ones of its id were held: those are
  replayed only by the next pass, after it (`RecordsAreOnFirstIffNoneJumps`,
  `EarlyResponseIsPassedOver`).
- Reading a stream by `next` and collecting it agree if and only if it ends on a terminal:
  a stream that just closes is an error to the first and a clean end to the other
  (`ReadsAgreeIffTerminal`).
- A capacity of 0 still tracks one call (`TablesAreBounded`, `NoCapacityStillTracksOne`).
- Loss totals never under-report, but are exact if and only if every observation is a new
  maximum following the previous one directly, or an old value that skips nothing; a late
  sample is counted as lost for good (`ReportIsExactIffClean`, `ReorderingOverReports`).
- One call in `rate` is offered for tracing after n calls if and only if the slack of the
  turns of the 64-bit position fits in what is left over; for every n, if and only if the
  rate divides 2^64 (`OneInRateIff`, `AlwaysOneInRateIffItDivides`, `WrapOffersOneTooMany`).
- A gateway call whose JavaScript callback fails is taken back by id. That closes another
  call if the id was answered and opened again meanwhile, and only then
  (`UndoIsExactIffStillMine`, `ReopenedCallIsTakenBack`).
- An answer reaches the running bridge if and only if no stop overtook it after it read
  the lifecycle state (`AnswersReachTheRunningBridgeIffNotStopped`,
  `AnswerOvertakenByAStop`).
- A start leaves the gateway running if and only if no stop fell between its two halves;
  otherwise it is idle with a bridge installed, which the next start replaces without a
  stop (`StartEndsRunningIffNotStopped`, `StoppedStartIsReplaced`).
- The comment on `next_envelope` says an `error` is refused; the code refuses it only when
  there is no `data` beside it, and the model follows the code (`EnvelopesRoundTrip`).

## Model

| member | source | states |
|---|---|---|
| `Loss.LossTracker.Observe` | ice-rpc-monitor/src/loss.rs:38-43 | records the number as the publisher's last and returns the numbers skipped since its previous one: none for a first observation or a reset, saturating at the 64-bit end |
| `Loss.IncreasingRunIsExact` | ice-rpc-monitor/src/loss.rs:38-43 | for strictly increasing numbers the reported total is exactly (last - first) - (observations - 1) |
| `Loss.NeverUnderReports` | ice-rpc-monitor/src/loss.rs:35-43 | in any order, resets included, the total is at least the number of values between the first and the largest that were never observed |
| `Loss.ReportIsExactIffClean` | ice-rpc-monitor/src/loss.rs:35-43 | the total equals that number if and only if each observation is a maximum reached from the previous maximum, or a value already seen or older than the first that skips nothing |
| `Loss.ReorderingOverReports` | ice-rpc-monitor/src/loss.rs:38-43 | a reordered run that reports eight for four values never seen |
| `Loss.TableHoldsTheLast` | ice-rpc-monitor/src/loss.rs:38-48 | after any interleaved run the table holds, for exactly the publishers seen, their last number |
| `Loss.PublishersAreIndependent` | ice-rpc-monitor/src/loss.rs:10-43 | an interleaved run of any publishers reports the sum of what each publisher's own run reports |
| `Correlation.Correlate.Oldest` | ice-rpc-monitor/src/correlate.rs:101-106 | the loop finds a call at least as old as every other |
| `Correlation.Correlate.Insert` | ice-rpc-monitor/src/correlate.rs:99-113 | a full table loses exactly one call, an oldest one, which is returned; the new call is stored, overwriting a reused id |
| `Correlation.Correlate.OnResponse` | ice-rpc-monitor/src/correlate.rs:116-132 | returns the call as it was before the response; a terminal removes it, any other marks its first response; unknown ids change nothing |
| `Correlation.Correlate.Sweep` | ice-rpc-monitor/src/correlate.rs:135-147 | removes and returns, each once, the calls that had reached the time to live when they were visited, each visit reading the clock: a call stays if and only if the time to live is positive and its age was below it |
| `EngineInvariant.StepKeeps` | ice-rpc-monitor/src/collector.rs:445-701 | every operation keeps the gauge, request, response, counter, latency, trace and table-bound laws together |
| `EngineInvariant.RunKeeps` | ice-rpc-monitor/src/collector.rs:415-701 | so they hold in every state of every run |
| `EngineInvariant.ReplaySamplesKeep` | ice-rpc-monitor/src/collector.rs:609-615 | replaying a whole held stream keeps them, with the samples not yet replayed accounted for |
| `EngineSteps.SweepKeepsTheYoung` | ice-rpc-monitor/src/correlate.rs:135-147 | a sweep keeps a call if and only if the time to live is positive and the clock read before its start plus that; the others are counted as unmatched under their channel and lower the gauge of their service, and nothing else changes |
| `EngineSteps.PassSettles` | ice-rpc-monitor/src/collector.rs:592-633 | after a pass a stream is held if and only if its call is not tracked and it is younger than 250 ms; the responses of the streams given up are the new orphans of the channel of their stream; a call with a held stream is closed if and only if the stream holds a completion, an error or an RPC error |
| `EngineSteps.DirectClosesByKind` | ice-rpc-monitor/src/collector.rs:493-540 | a response of a tracked call removes it, lowers its service's gauge by one, closes its serial and moves the trace position if and only if its kind is completion, error or RPC error; otherwise it only marks the call as answered |
| `EngineSteps.ReplayClosesByKind` | ice-rpc-monitor/src/collector.rs:609-615 | so does a held response when it is replayed |
| `EngineSteps.RequestIsTracked` | ice-rpc-monitor/src/collector.rs:445-490 | a request is tracked with the labels, length and instants observed, and counted under its labels; a table at capacity first gives up one call, none being older, counted as unmatched under its channel, and one below capacity none |
| `EngineSteps.UntrackedIsHeld` | ice-rpc-monitor/src/collector.rs:543-588 | a response of a call not tracked joins its stream, which keeps its channel and age, or starts one; 16384 streams first give up one none is older than, and a stream of 4096 is given up with it; the orphans are the responses of those streams, under their channel |
| `EngineLabels.CountedAsObserved` | ice-rpc-monitor/src/metrics.rs:148-167 | in every run the requests counted by channel, service and method, and the responses by channel, service and kind, are exactly those observed |
| `EngineLabels.UnmatchedByChannel` | ice-rpc-monitor/src/collector.rs:463-701 | in every run the unmatched requests counted for a channel are as many as the requests observed on it that were evicted or outlived their time |
| `EngineTheorems.GaugeCountsTrackedCalls` | ice-rpc-monitor/src/collector.rs:463-489 | in every reachable state the gauge of a (channel, service) is the number of its tracked calls plus its calls hidden by a reused id, so never negative |
| `EngineTheorems.GaugeIsExactIffIdsAreFresh` | ice-rpc-monitor/src/correlate.rs:99-113 | the gauge equals the tracked calls for every key if and only if no request of the run reused a tracked id |
| `EngineRuns.GaugeIsAlwaysExactIffOneCallAtMost` | ice-rpc-monitor/src/correlate.rs:99-113 | the gauge is exact in every run if and only if the table is for at most one call |
| `EngineRuns.GaugeDrifts` | ice-rpc-monitor/src/correlate.rs:111-111 | with room for two, a run of two requests of one id with the gauge at 2 and one tracked call |
| `EngineTheorems.OnlyOverwritesLose` | ice-rpc-monitor/src/correlate.rs:111-111 | a request that reuses a tracked id hides exactly one call, and nothing else ever does |
| `EngineTheorems.RequestsAreConserved` | ice-rpc-monitor/src/collector.rs:445-490 | requests counted = tracked + closed + unmatched + overwritten, and every request is in exactly one of the four |
| `EngineTheorems.ResponsesAreConserved` | ice-rpc-monitor/src/collector.rs:493-633 | responses counted = matched directly + matched on replay + held + orphans + overflow triggers + behind a terminal, and every sample is in exactly one of the six |
| `EngineLeaks.ReplaysLose` | ice-rpc-monitor/src/collector.rs:604-616 | replaying any ready streams loses exactly the samples that follow a terminal of their stream |
| `EngineLeaks.StepLoses` | ice-rpc-monitor/src/collector.rs:543-616 | an operation loses a response if and only if it finds the stream it belongs to full, or replays one past a terminal |
| `EngineLeaks.ResponsesAddUpIffNothingLeaks` | ice-rpc-monitor/src/collector.rs:493-633 | in every run, matched + held + orphans add up to the responses counted if and only if no operation so far did either |
| `EngineRuns.OverflowLosesAResponse` | ice-rpc-monitor/src/collector.rs:562-577 | a run from a fresh engine whose 4097th early response is neither held nor counted |
| `EngineRuns.ReplayLosesATail` | ice-rpc-monitor/src/collector.rs:604-616 | a run from a fresh engine in which a replayed response behind a terminal vanishes |
| `EngineTheorems.OneRecordPerAnsweredCall` | ice-rpc-monitor/src/collector.rs:515-540 | each call has exactly one latency or clock-skew record if some response ever matched it and none otherwise, across direct matches, replays, evictions and sweeps; the exported counts are those records |
| `EngineTheorems.TablesAreBounded` | ice-rpc-monitor/src/collector.rs:550-587 | in every run at most max(1, max) tracked calls, 16384 held ids and 4096 samples each |
| `EngineRuns.NoCapacityStillTracksOne` | ice-rpc-monitor/src/correlate.rs:99-113 | a run at capacity 0 with one tracked call |
| `EngineRuns.WrapOffersOneTooMany` | ice-rpc-monitor/src/collector.rs:648-652 | unless the rate divides 2^64, a run of 2^64 calls that offers one record more than the floor law says |
| `EngineTheorems.OneInRateIff` | ice-rpc-monitor/src/collector.rs:645-652 | for every n and rate: what n completed calls offer, and that it is floor(n / rate) if and only if (n / 2^64) times the slack of the rate is at most n % 2^64 % rate |
| `EngineTheorems.OfferedBeforeWrap` | ice-rpc-monitor/src/collector.rs:645-652 | n completed calls at rate r > 0 offer exactly floor(n / r) records before the position wraps |
| `EngineTheorems.AlwaysOneInRateIffItDivides` | ice-rpc-monitor/src/collector.rs:648-652 | the floor law holds for every n if and only if the rate divides 2^64 |
| `EngineTheorems.OneTraceInRate` | ice-rpc-monitor/src/collector.rs:636-692 | in every run the records offered are that function of the calls closed, and one in `rate` under that condition |
| `EngineConfluence.SamplesCommute` | ice-rpc-monitor/src/collector.rs:609-615 | replayed samples of two calls can be taken in either order |
| `EngineConfluence.ReplaysCommute` | ice-rpc-monitor/src/collector.rs:604-616 | so can two whole held streams |
| `EngineConfluence.ResolveIsConfluent` | ice-rpc-monitor/src/collector.rs:592-633 | whatever orders the hash map yields the ready and the expired ids in, one pass gives the same tables, counters and bookkeeping |
| `EngineConfluence.SweepIsConfluent` | ice-rpc-monitor/src/collector.rs:695-701 | likewise for the sweep |
| `EngineViews.TakeIsView` | ice-rpc-monitor/src/collector.rs:445-588 | with room in its table, a sample does to the visible state what the simple form says, whatever the bookkeeping and the clock |
| `EngineViews.ReplayTake` | ice-rpc-monitor/src/collector.rs:604-616 | replaying one call and taking a sample of another can be exchanged |
| `EngineViews.AskTake` | ice-rpc-monitor/src/collector.rs:445-512 | tracking one call and taking a sample of another can be exchanged |
| `EngineDrain.PassesInStep` | ice-rpc-monitor/src/collector.rs:445-633 | along any samples that do not ask for the call again, holding its responses and replaying them once asked gives what asking first does, as long as none of them follows a terminal |
| `EngineOrder.AfterSwapped` | ice-rpc-monitor/src/collector.rs:493-616 | responses that stay short of a terminal, matched before the held ones are replayed, change nothing but which of them the call is measured on |
| `EngineOrder.Compare` | ice-rpc-monitor/src/collector.rs:445-633 | how the calls and held streams stand after any pass, the request observed between responses of its call or first: equal, equal once replayed, equal up to the record, or apart by the responses left held |
| `EngineOrder.OrderMattersUnlessHarmless` | ice-rpc-monitor/src/collector.rs:371-633 | in a drain pass of any samples of any calls, observing a request between responses of its call or first gives every later pass the same calls up to arrival time, held streams, gauge, responses, latencies, skews and trace position if and only if none came before it, or none after it and none follows a terminal, or none is terminal and the first of each side yield the same record; otherwise every later pass differs, unless both sides closed the call and left as many responses over |
| `EngineEarly.EarlyIsHarmlessIff` | ice-rpc-monitor/src/collector.rs:445-633 | the same for the stream of one call split by its request, the table of calls being full or not |
| `EngineRuns.EarlyResponseIsPassedOver` | ice-rpc-monitor/src/collector.rs:493-616 | a response, its request and its terminal from a fresh engine: the call is measured on the terminal, and every later pass differs from the run with the request first, which is measured on the response |
| `EngineEarly.CallIsMeasuredOnItsFirstDirectResponse` | ice-rpc-monitor/src/collector.rs:515-540 | a call answered in order, by any number of responses, yields one record, between its request and the first of them, and occupies the gauge until its terminal; what was held for its id stays held, and was observed before |
| `EngineRecords.RunKnown` | ice-rpc-monitor/src/collector.rs:445-588 | in every run a tracked call is the request it was opened by, and a held stream is made of responses of its id in the order they were observed |
| `EngineRecords.RecordsAreExported` | ice-rpc-monitor/src/collector.rs:515-540 | in every run the exported latencies and clock skews, per channel, service and method, are those of its records: one per measured call, the time from its own request to a response of the same id |
| `EngineRecords.HeldIffNotSettled` | ice-rpc-monitor/src/collector.rs:543-616 | in every reachable state the responses held under an id are exactly those observed for it that were neither matched, nor counted as orphans, nor lost |
| `EngineRecords.RecordsAreOnFirstIffNoneJumps` | ice-rpc-monitor/src/correlate.rs:3-6 | in every run each record was taken on the first response of its id not settled yet if and only if no response reached a call not answered yet while its id had a held stream |
| `Metrics.Observe` | ice-rpc-monitor/src/metrics.rs:57-65 | adding a value raises by one exactly the buckets whose bound it does not exceed and the count, and by itself the sum; the result is the histogram of all values so far |
| `Metrics.HistogramMeans` | ice-rpc-monitor/src/metrics.rs:40-65 | each bucket of the histogram of some values is the number of those up to its bound, with their sum and number |
| `Metrics.BoundsIncrease` | ice-rpc-monitor/src/metrics.rs:28-37 | the latency buckets increase strictly from 0.1 ms to 10 s, those of payloads from 16 bytes to 1 MiB |
| `Metrics.BucketsAreCumulative` | ice-rpc-monitor/src/metrics.rs:57-65 | a larger bound never counts fewer values, and none counts more than there are |
| `Metrics.HistogramsIgnoreOrder` | ice-rpc-monitor/src/metrics.rs:57-65 | logs of the same entries in any order give the same histogram for every series |
| `Metrics.LatenciesAreOfTheBag` | ice-rpc-monitor/src/metrics.rs:170-178 | the latency histograms are a function of the bag of latencies the engine reasons about |
| `Metrics.Registry.OnLatency` | ice-rpc-monitor/src/metrics.rs:170-178 | the histogram of exactly the named series observes the latency, a new one starting empty, and every series stays the histogram of the latencies recorded for it, which are the engine's bag plus the new one |
| `Metrics.Registry.OnPayload` | ice-rpc-monitor/src/metrics.rs:160-167 | likewise for payload lengths by channel and direction |
| `Collector.Monitor.Process` | ice-rpc-monitor/src/collector.rs:415-442 | one sample is a step of the engine's runs, a request towards the provider and a response towards the consumer, evicting an oldest entry when full; loss, payload and pid tables follow |
| `Collector.Monitor.HandleRequest` | ice-rpc-monitor/src/collector.rs:445-490 | refines the request operation |
| `Collector.Monitor.HandleResponse` | ice-rpc-monitor/src/collector.rs:493-512 | refines the response operation; a tracked call is closed, its gauge lowered and its trace offered if and only if the kind is completion, error or RPC error |
| `Collector.Monitor.CompleteResponse` | ice-rpc-monitor/src/collector.rs:515-540 | one record on a first response; gauge and trace on a completion, an error or an RPC error, and on no other kind |
| `Collector.Monitor.OldestHeld` | ice-rpc-monitor/src/collector.rs:550-556 | the loop finds a stream held at least as long as every other |
| `Collector.Monitor.DeferResponse` | ice-rpc-monitor/src/collector.rs:543-588 | refines holding a response: capacity eviction first, then overflow, then append |
| `Collector.Monitor.ResolveHeld` | ice-rpc-monitor/src/collector.rs:592-633 | the pass, in the order it happens to visit, is a step of the engine's runs, gives the result of every order, and still holds exactly the streams of untracked calls younger than 250 ms |
| `Collector.Monitor.EmitTrace` | ice-rpc-monitor/src/collector.rs:645-652 | the sampling position and the records offered move as the trace law says |
| `Collector.Monitor.SweepTable` | ice-rpc-monitor/src/collector.rs:695-701 | the sweep is a step of the engine's runs; a call stays if and only if the time to live is positive and its age was below it |
| `SubjectSpec.PerformKeepsShape` | ice-rpc-rx/src/subject.rs:158-276 | each atomic call leaves every subscriber's queue equal to the last values before it joined, every later one, then the terminal |
| `SubjectMachine.StepKeepsLocks` | ice-rpc-rx/src/subject.rs:36-51 | in every interleaving the `state` lock is held only by the owner of `emit`, and each lock by at most one call |
| `SubjectRefinement.Simulates` | ice-rpc-rx/src/subject.rs:158-276 | every step of the interleaved subject, receivers included, is one step of the atomic subject or none |
| `SubjectRefinement.RunRefines` | ice-rpc-rx/src/subject.rs:158-276 | so every run of the first is a run of the second |
| `SubjectRefinement.QueueHistory` | ice-rpc-rx/src/subject.rs:158-276 | in every interleaving an open subscriber was sent the last min(capacity, n) values before it joined, every later one in order, then the terminal, short only of what the owner of `emit` is still sending |
| `SubjectHistory.QueueIsWhatWasSaid` | ice-rpc-rx/src/subject.rs:158-276 | in every interleaving, take the events of the calls that took effect, in that order, up to the one that ended the stream: an open subscriber's queue is that list from the last min(capacity, n) of the n values before it joined on, short of what the call holding `emit` is still queueing |
| `SubjectHistory.ReplayBuffer` | ice-rpc-rx/src/subject.rs:211-216 | in every interleaving the replay buffer is the last min(capacity, n) of the n values of that list: nothing at capacity 0 |
| `SubjectHistory.BroadcastPrunes` | ice-rpc-rx/src/subject.rs:86-88 | a call that broadcasts keeps exactly the subscribers whose receiver is still there |
| `SubjectHistory.ReceiverReads` | ice-rpc-rx/src/subject.rs:158-191 | in every interleaving a receiver has read one event per read, never one not queued, and is open until it closes |
| `SubjectHistory.NothingAfterClose` | ice-rpc-rx/src/subject.rs:86-88 | once a receiver has closed nothing more is queued for it |
| `SubjectRefinement.NothingAfterATerminal` | ice-rpc-rx/src/subject.rs:201-276 | no subscriber, open or closed, is ever sent anything after a terminal |
| `SubjectRefinement.EachCallTakesEffectOnce` | ice-rpc-rx/src/subject.rs:158-276 | a call takes effect exactly once, between its start and its end, and never if it was abandoned before |
| `SubjectRefinement.OwnerAdvances` | ice-rpc-rx/src/subject.rs:163-223 | the owner of `emit` can always move, whatever the receivers do, and gets closer to releasing it |
| `SubjectRefinement.OwnerFinishes` | ice-rpc-rx/src/subject.rs:163-276 | it releases `emit` within replay length + subscribers + 7 steps of its own, however the others interleave |
| `SubjectRefinement.NoDeadlock` | ice-rpc-rx/src/subject.rs:36-51 | while a call is unfinished some call can move |
| `Subject.MulticastSubject.RetainLive` | ice-rpc-rx/src/subject.rs:86-88 | keeps exactly the subscribers whose receiver is there, each once |
| `Subject.MulticastSubject.Next` | ice-rpc-rx/src/subject.rs:201-224 | sends the value to exactly the live subscribers, forgets the others, and keeps every queue as promised; nothing once terminated |
| `Subject.MulticastSubject.Finish` | ice-rpc-rx/src/subject.rs:232-276 | the first completion or error is sent to the live subscribers and decides the terminal for good |
| `Subject.MulticastSubject.Subscribe` | ice-rpc-rx/src/subject.rs:158-191 | a new subscriber is sent exactly the last min(capacity, n) of the n values emitted, each in its place, then the terminal if any, and is registered only while the subject is live |
| `Stream.Observable.PollNext` | ice-rpc-rx/src/stream.rs:487-508 | over the three sources a poll either waits, yields the next event to come or reports the end, and the flag records a terminal |
| `Stream.Observable.Recv` | ice-rpc-rx/src/stream.rs:165-190 | yields the events to come one by one, whatever the source |
| `Stream.Observable.Next` | ice-rpc-rx/src/stream.rs:201-215 | a function of the events to come and of the terminated flag only, so the sources cannot be told apart |
| `Stream.NextOnAnyList` | ice-rpc-rx/src/stream.rs:201-215 | the n-th `next` on any event list: its n-th event, one technical error right after a list without a terminal, then nothing for ever |
| `Stream.AbruptCloseIsReportedOnce` | ice-rpc-rx/src/stream.rs:201-215 | values without a terminal give those values, exactly one technical error, then nothing |
| `Stream.ReleaseFlag` | ice-rpc-rx/src/stream.rs:76-86 | after any mix of uses the flag is true if and only if a terminal was delivered or `next` reported an abrupt close |
| `Stream.Perform` | ice-rpc-rx/src/stream.rs:165-215 | one `recv`, `next` or poll of the object is the use that law is about |
| `Stream.UseAndDrop` | ice-rpc-rx/src/stream.rs:76-156 | a cleanup attached to any stream, used in any way and dropped, is told that flag exactly once if the source is a channel and never otherwise |
| `Stream.Observable.Drop` | ice-rpc-rx/src/stream.rs:76-86 | the cleanup of a channel is told the flag exactly once, other sources never |
| `Stream.FirstEvent` | ice-rpc-rx/src/stream.rs:411-423 | first value, or why there is none, and the stream is released |
| `Stream.LastEvent` | ice-rpc-rx/src/stream.rs:433-453 | last value of the list read to its end, and the stream is released |
| `Stream.CollectValues` | ice-rpc-rx/src/stream.rs:464-482 | all values of the list read to its end, or its error, and the stream is released |
| `Stream.CollectForm` | ice-rpc-rx/src/stream.rs:464-482 | collecting values then anything starting with a terminal gives the values, or the error if that is one |
| `Stream.ReadsAgreeIffTerminal` | ice-rpc-rx/src/stream.rs:201-482 | reading any list by `next` to its end gives what collecting it does if and only if it ends on a terminal; otherwise the first is the technical error and the second the values |
| `Stream.TerminalsAgree` | ice-rpc-rx/src/stream.rs:411-482 | on every list the three readers agree on values, emptiness and error |
| `Creation.CollectUndoesFrom` | ice-rpc-rx/src/creation.rs:24-184 | collecting what `from` or `from_future` made gives back what went in |
| `Creation.ReadyMadeEndsCleanly` | ice-rpc-rx/src/creation.rs:24-75 | read by `next`, `from`, `of` and `throw_error` yield their values, or the one business error, and then the clean end for ever |
| `Creation.Deferred.PollNext` | ice-rpc-rx/src/creation.rs:200-242 | in every state exactly one of factory, pending future and stream is held; the factory is called at the first poll and never again |
| `Creation.DeferredIsItsStream` | ice-rpc-rx/src/creation.rs:200-242 | for every poll schedule the n-th poll is pending until the future is ready, then what the produced stream itself would answer |
| `Subscribe.RunPush` | ice-rpc-rx/src/subscribe.rs:172-208 | for every race the callbacks are a prefix of what the stream tells; all of it if it ended, values only, and no terminal, if it was cancelled |
| `Subscribe.SpawnPush` | ice-rpc-rx/src/subscribe.rs:156-169 | once the loop stops the token is cancelled, so the handle resolves |
| `Subscribe.SubscribeAndJoin` | ice-rpc-rx/src/subscribe.rs:109-169 | awaiting the handle resolves once the stream ended, the subscription was cancelled or it was unsubscribed, the callbacks of an ended stream being all it tells |
| `Subscribe.ToldEndsOnce` | ice-rpc-rx/src/subscribe.rs:195-206 | what a stream tells is its values in order up to its first terminal, then exactly one terminal callback: that error, or completion |
| `Subscribe.PushAgreesWithCollect` | ice-rpc-rx/src/subscribe.rs:172-208 | uncancelled, the callbacks are the values collecting would gather, then how it ended |
| `Bridge.EnvelopesRoundTrip` | ice-rpc-nodejs/src/bridge.rs:264-312 | exactly the malformed envelopes are refused, as invalid arguments, and the wire side reads back the payload and kind that were meant: data before error, and neither a plain completion |
| `Bridge.PendingCalls.Insert` | ice-rpc-nodejs/src/bridge.rs:74-96 | refuses for the limit if and only if 4096 calls are open, otherwise as a duplicate if and only if the id is open, and otherwise opens exactly that call; a refusal changes nothing |
| `Gateway.StepKeeps` | ice-rpc-nodejs/src/bridge.rs:74-243 | every step of any thread keeps the table, stream, lifecycle and answer laws |
| `Gateway.RunKeeps` | ice-rpc-nodejs/src/bridge.rs:74-243 | so they hold in every state of every interleaving |
| `GatewayTheorems.NothingAcceptedAfterTheTerminal` | ice-rpc-nodejs/src/bridge.rs:207-243 | what is accepted for a call, delivered or not, is intermediate events then at most one terminal, and nothing is accepted after it |
| `GatewayTheorems.CallsEndOnce` | ice-rpc-nodejs/src/bridge.rs:207-243 | a call receives intermediate events, then at most one terminal, nothing after, and exactly what was accepted while its reader was there, in order |
| `GatewayTheorems.AcceptedEventsArrive` | ice-rpc-nodejs/src/bridge.rs:207-220 | an accepted intermediate event is never lost |
| `GatewayTheorems.EntriesAreDistinct` | ice-rpc-nodejs/src/bridge.rs:34-109 | a call is listed at most once over all tables, and no table exceeds 4096 |
| `GatewayTheorems.RefusalsChangeNothing` | ice-rpc-nodejs/src/bridge.rs:74-243 | every refused emit, resolve, admission or lifecycle change leaves calls, tables and phase as they were |
| `GatewayTheorems.RefusalsAreExplained` | ice-rpc-nodejs/src/bridge.rs:74-349 | every step of any thread refuses with a code if and only if that code's condition holds and no earlier check failed |
| `GatewayTheorems.AdmittedIffRoom` | ice-rpc-nodejs/src/bridge.rs:74-96 | a call is admitted if and only if fewer than 4096 are open on its bridge and its id is not among them, and then has a fresh stream of its own |
| `GatewayTheorems.LimitIsReached` | ice-rpc-nodejs/src/bridge.rs:79-84 | a reachable state with 4096 calls open on one bridge, where the next one is refused |
| `GatewayTheorems.NothingAfterHangup` | ice-rpc-nodejs/src/bridge.rs:207-243 | in every interleaving a call whose reader hung up receives nothing more |
| `GatewayTheorems.UndoIsExactIffStillMine` | ice-rpc-nodejs/src/bridge.rs:184-193 | taking a failed call back spares all other calls if and only if its id was not opened again meanwhile |
| `GatewayTheorems.ReopenedCallIsTakenBack` | ice-rpc-nodejs/src/bridge.rs:184-193 | for every id, a reachable state where it was |
| `GatewayTheorems.StartsNeverExceedStopsPlusOne` | ice-rpc-nodejs/src/state.rs:82-125 | in every interleaving successful starts are at most stops + 1 |
| `GatewayTheorems.StartsAreSeparatedByAStop` | ice-rpc-nodejs/src/state.rs:82-92 | two successful starts have a stop between them |
| `GatewayTheorems.NoCallSurvivesAStop` | ice-rpc-nodejs/src/state.rs:105-125 | an answer that reads the state after a stop reaches only bridges built since: no call opened before the stop, nor one opened on an old bridge after it |
| `GatewayTheorems.AnswersReachTheRunningBridgeIffNotStopped` | ice-rpc-nodejs/src/bridge.rs:207-243 | an answer under way is for a call of the installed bridge if and only if no stop overtook it |
| `GatewayTheorems.AnswerOvertakenByAStop` | ice-rpc-nodejs/src/state.rs:105-125 | a reachable state where one did |
| `GatewayTheorems.StartEndsRunningIffNotStopped` | ice-rpc-nodejs/src/state.rs:82-99 | a start ends up running if and only if no stop fell between its halves |
| `GatewayTheorems.StoppedStartIsReplaced` | ice-rpc-nodejs/src/state.rs:82-125 | a reachable state, idle with a bridge and a call on it, from which a second start replaces that bridge without a stop |
| `GatewayObjects.NodeJsBridge.StartCall` | ice-rpc-nodejs/src/bridge.rs:167-196 | opens a call if and only if there is room, the id is new and JavaScript was reached, reporting the first of the three that fails and leaving the open calls as they were |
| `GatewayObjects.NodeJsBridge.EmitEvent` | ice-rpc-nodejs/src/bridge.rs:207-220 | pushes one intermediate event carrying the data, or refuses: malformed id, malformed event, unknown id, reader gone, in that order |
| `GatewayObjects.NodeJsBridge.Resolve` | ice-rpc-nodejs/src/bridge.rs:232-243 | pushes the terminal meant and closes the call, accepted even if its reader is gone, or refuses: malformed id, malformed event, unknown id, in that order |
| `GatewayObjects.AnswerAtOnceMeetsSpec` | ice-rpc-nodejs/src/bridge.rs:207-243 | the machine's answering steps, uninterrupted, do what those two methods do |
| `GatewayObjects.StartAtOnceMeetsSpec` | ice-rpc-nodejs/src/bridge.rs:167-196 | so do its opening steps and `StartCall` |
| `GatewayObjects.GatewayCell.BeginStart` | ice-rpc-nodejs/src/state.rs:82-92 | does what the machine's start step does in every state with the same phase and bridge, and is refused exactly when running |
| `GatewayObjects.GatewayCell.MarkConfigured` | ice-rpc-nodejs/src/state.rs:64-76 | likewise for the registration step |
| `GatewayObjects.GatewayCell.CompleteStart` | ice-rpc-nodejs/src/state.rs:95-99 | likewise for the second half of a start, with the bridge just built |
| `GatewayObjects.GatewayCell.Current` | ice-rpc-nodejs/src/state.rs:105-112 | decides, in every such state, whether an answering entry point is refused and which bridge it goes to |
| `GatewayObjects.GatewayCell.Stop` | ice-rpc-nodejs/src/state.rs:119-125 | likewise for the stop step, never refused |
| `Traces.Recent.Push` | ice-rpc-monitor/src/traces.rs:176-188 | the ring holds exactly the last ten records handed to it |
| `Traces.Recent.Drain` | ice-rpc-monitor/src/traces.rs:209-213 | the writer loop hands over everything received, in order |
| `Traces.RecordsAreConserved` | ice-rpc-monitor/src/traces.rs:176-241 | in every interleaving the records taken are those handled, in hand and queued, in emission order; the others are the dropped count; the ring is the last ten handled |
| `Traces.DroppedIffNoRoom` | ice-rpc-monitor/src/traces.rs:224-235 | a record is dropped if and only if the queue is closed or has no room, a queue without slots having room only when the writer is waiting |
| `Traces.DroppingDrains` | ice-rpc-monitor/src/traces.rs:243-252 | once the writer has ended, everything taken was handled |
| `Traces.WriterFinishes` | ice-rpc-monitor/src/traces.rs:243-252 | left to itself after the close the writer ends, with exactly the records taken |
| `Traces.JoinReturns` | ice-rpc-monitor/src/traces.rs:243-252 | after the close the writer always has exactly one step, and each brings it closer to its end |
| `Traces.JoinBeforeClosingHangs` | ice-rpc-monitor/src/traces.rs:245-250 | joined with the sender alive, the writer never ends: taking only its own steps it is stuck after exactly the steps it takes to handle what was queued |

## Left out

- The iceoryx2 transport, node listing, dead-node cleanup, health, signals and configuration files: foreign calls and I/O.
- The Prometheus endpoint, text rendering and the live console frame.
- Payload decoding, rkyv, JSON text and the rendering of trace records; the `Display` forms of errors and their codes.
- The procedural macros, the `gateway!` macro, the N-API wrappers and the consumer side of the gateway.
- The operators under `transform/`, the service locator and the runtime: a cancellation token is a flag that stays set, an unbounded channel a sequence with a closed bit.
- Poisoned mutexes, panics inside callbacks, and failed or partial writes of the trace file.
- Which calls are offered for tracing: sampling counts calls in the order they close, so hash-map order decides which one is offered. The confluence results cover how many are.
- Overflow of the exported 64-bit counters, and rounding of latency sums.
- EngineOrder.OrderMattersUnlessHarmless: one drain pass, with no pass over the held streams within it, whose samples meet no capacity bound: an eviction, an expiry or an overflow between the two places of the request is not covered. Held responses are told apart by the order they were observed in.
- EngineEarly.EarlyIsHarmlessIff: the call's responses overflow no held stream and find room in the held table; the table of calls may be full.
- Metrics.Registry: histograms are values in the registry's maps, updated by replacement, not objects updated in place; the one-line counters are modelled and used by `Collector.Monitor` but have no row.
- Gateway: the shutdown guard is not modelled, and a failed `registerService` for an unknown name never reaches the lifecycle.
