/** When a run accounts for every response: matched, held or counted as an orphan. */
module EngineLeaks {
  import opened Wire
  import opened Folds
  import opened Engine
  import opened EngineInvariant
  import opened EngineTheorems
  import opened EngineAgreement

  /** Responses that are neither matched, nor held, nor counted as orphans. */
  ghost function Lost(s: Engine): nat
  {
    |s.ledger.triggers| + |s.ledger.behind|
  }

  /** Some sample of a held stream follows a terminal one. */
  ghost predicate HasTail(samples: seq<HeldSample>)
  {
    exists i :: 0 <= i < |samples| - 1 && samples[i].header.kind.IsTerminal()
  }

  /** The operation loses a response: it finds the stream it belongs to full, or it
      replays a stream past a terminal. */
  ghost predicate Leaks(s: Engine, op: Op)
  {
    match op
    case ResponseSample(_, header, _, _, _, victim) =>
      header.cid !in s.calls && Overflowing(if |s.deferred| >= MAX_DEFERRED then Forfeit(s, victim) else s, header.cid)
    case ResolveDeferred(_, _, _) => exists c :: c in Ready(s) && HasTail(s.deferred[c].samples)
    case _ => false
  }

  // ---------------------------------------------------------------------------
  // What one replay loses
  // ---------------------------------------------------------------------------

  /** How many samples of a stream find no call, if it is tracked to begin with. */
  function Tail(tracked: bool, samples: seq<HeldSample>): nat
  {
    if samples == [] then 0
    else if tracked then Tail(!samples[0].header.kind.IsTerminal(), samples[1..])
    else 1 + Tail(false, samples[1..])
  }

  lemma {:induction false} TailWithoutCall(samples: seq<HeldSample>)
    ensures Tail(false, samples) == |samples|
  {
    if samples != [] { TailWithoutCall(samples[1..]); }
  }

  lemma {:induction false} TailIffHasTail(samples: seq<HeldSample>)
    ensures Tail(true, samples) > 0 <==> HasTail(samples)
  {
    if samples != [] {
      var rest := samples[1..];
      if samples[0].header.kind.IsTerminal() {
        TailWithoutCall(rest);
      } else {
        TailIffHasTail(rest);
        if HasTail(samples) {
          var i :| 0 <= i < |samples| - 1 && samples[i].header.kind.IsTerminal();
          assert rest[i - 1].header.kind.IsTerminal();
        } else if HasTail(rest) {
          var i :| 0 <= i < |rest| - 1 && rest[i].header.kind.IsTerminal();
          assert samples[i + 1].header.kind.IsTerminal();
        }
      }
    }
  }

  lemma SampleLoses(s: Engine, cid: Cid, x: HeldSample)
    ensures var t := ReplaySample(s, cid, x);
            && Lost(t) == Lost(s) + (if cid in s.calls then 0 else 1)
            && (cid in t.calls <==> cid in s.calls && !x.header.kind.IsTerminal())
  {
  }

  lemma {:induction false} StreamLoses(s: Engine, cid: Cid, samples: seq<HeldSample>)
    ensures Lost(ReplaySamples(s, cid, samples)) == Lost(s) + Tail(cid in s.calls, samples)
    decreases |samples|
  {
    if samples != [] {
      SampleLoses(s, cid, samples[0]);
      StreamLoses(ReplaySample(s, cid, samples[0]), cid, samples[1..]);
    }
  }

  lemma ReplayLoses(s: Engine, cid: Cid)
    requires cid in s.deferred && cid in s.calls
    ensures Lost(Replay(s, cid)) == Lost(s) + Tail(true, s.deferred[cid].samples)
  {
    StreamLoses(s.(deferred := s.deferred - {cid}), cid, s.deferred[cid].samples);
  }

  // ---------------------------------------------------------------------------
  // What one operation loses
  // ---------------------------------------------------------------------------

  /** What replaying the streams `ks`, all of them tracked, loses. */
  ghost function Tails(table: DeferredTable, ks: seq<Cid>): nat
    requires forall k :: k in ks ==> k in table
  {
    if ks == [] then 0 else Tail(true, table[ks[0]].samples) + Tails(table, ks[1..])
  }

  lemma {:induction false} TailsWithout(table: DeferredTable, k: Cid, ks: seq<Cid>)
    requires k !in ks && forall c :: c in ks ==> c in table
    ensures Tails(table - {k}, ks) == Tails(table, ks)
  {
    if ks != [] { TailsWithout(table, k, ks[1..]); }
  }

  lemma {:induction false} ReplaysLose(s: Engine, ks: seq<Cid>)
    requires Distinct(ks) && forall k :: k in ks ==> k in s.deferred && k in s.calls
    ensures Lost(Fold(s, ks, Replay)) == Lost(s) + Tails(s.deferred, ks)
    decreases |ks|
  {
    if ks != [] {
      var k, rest := ks[0], ks[1..];
      var t := Replay(s, k);
      assert k in ks && k !in rest;
      ReplayLoses(s, k);
      OthersUntouched(s, k);
      forall c | c in rest ensures c in t.deferred && c in t.calls {
        assert c in s.calls.Keys - {k};
      }
      TailsWithout(s.deferred, k, rest);
      ReplaysLose(t, rest);
    }
  }

  lemma {:induction false} TailsIff(table: DeferredTable, ks: seq<Cid>)
    requires forall k :: k in ks ==> k in table
    ensures Tails(table, ks) > 0 <==> exists k :: k in ks && HasTail(table[k].samples)
  {
    if ks != [] {
      TailIffHasTail(table[ks[0]].samples);
      TailsIff(table, ks[1..]);
      assert ks == [ks[0]] + ks[1..];
    }
  }

  lemma {:induction false} ForfeitsLoseNothing(s: Engine, ks: seq<Cid>)
    ensures Lost(Fold(s, ks, Forfeit)) == Lost(s)
    decreases |ks|
  {
    if ks != [] { ForfeitsLoseNothing(Forfeit(s, ks[0]), ks[1..]); }
  }

  lemma {:induction false} RetiresLoseNothing(s: Engine, ks: seq<Cid>)
    ensures Lost(Fold(s, ks, Retire)) == Lost(s)
    decreases |ks|
  {
    if ks != [] { RetiresLoseNothing(Retire(s, ks[0]), ks[1..]); }
  }

  lemma ResolveLoses(s: Engine, now: nat, ready: seq<Cid>, expired: seq<Cid>)
    requires ResolveOrders(s, ready, expired, now)
    ensures Lost(Resolve(s, ready, expired)) >= Lost(s)
    ensures Lost(Resolve(s, ready, expired)) > Lost(s) <==> exists c :: c in Ready(s) && HasTail(s.deferred[c].samples)
  {
    ListsMembers(ready, Ready(s));
    ListsDistinct(ready, Ready(s));
    ReplaysLose(s, ready);
    TailsIff(s.deferred, ready);
    ForfeitsLoseNothing(Fold(s, ready, Replay), expired);
  }

  lemma ResponseLoses(s: Engine, op: Op)
    requires op.ResponseSample?
    ensures Lost(Apply(s, op)) == Lost(s) + One(Leaks(s, op))
  {
    if op.header.cid !in s.calls {
      var counted, x := CountResponse(s, op.channel, op.header), HeldSample(op.header, op.emitter, op.len, s.ledger.responses);
      assert Apply(s, op) == Defer(counted, op.channel, x, op.now, op.victim);
      DeferLoses(counted, op.channel, x, op.now, op.victim);
    }
  }

  lemma DeferLoses(s: Engine, channel: string, x: HeldSample, now: nat, victim: Cid)
    ensures var room := if |s.deferred| >= MAX_DEFERRED then Forfeit(s, victim) else s;
      Lost(Defer(s, channel, x, now, victim)) == Lost(s) + One(Overflowing(room, x.header.cid))
  {
  }

  /** An operation loses responses exactly when it leaks, and never finds one again. */
  lemma StepLoses(s: Engine, op: Op)
    requires Allowed(s, op)
    ensures Lost(Apply(s, op)) >= Lost(s)
    ensures Lost(Apply(s, op)) > Lost(s) <==> Leaks(s, op)
  {
    match op
    case RequestSample(_, _, _, _, _, _) =>
    case ResponseSample(_, _, _, _, _, _) => ResponseLoses(s, op);
    case ResolveDeferred(now, ready, expired) => ResolveLoses(s, now, ready, expired);
    case SweepCalls(_, outlived) => RetiresLoseNothing(s, outlived);
  }

  // ---------------------------------------------------------------------------
  // Whole runs
  // ---------------------------------------------------------------------------

  lemma {:induction false} NothingLostIff(config: Config, ops: seq<Op>, states: seq<Engine>, i: nat)
    requires Run(config, ops, states) && i < |states|
    ensures Lost(states[i]) == 0 <==> forall j :: 0 <= j < i ==> !Leaks(states[j], ops[j])
  {
    if i > 0 {
      NothingLostIff(config, ops, states, i - 1);
      assert Leads(states[i - 1], ops[i - 1], states[i]);
      StepLoses(states[i - 1], ops[i - 1]);
    }
  }

  /** Every response counted is matched, held or counted as an orphan if and only if
      no operation of the run found a held stream full or replayed one past a terminal. */
  lemma ResponsesAddUpIffNothingLeaks(config: Config, ops: seq<Op>, states: seq<Engine>, i: nat)
    requires Run(config, ops, states) && i < |states|
    ensures var s := states[i];
      |s.counters.responses| == |s.ledger.direct| + |s.ledger.replayed| + |HeldTags(s.deferred)| + |s.counters.orphan|
      <==> (forall j :: 0 <= j < i ==> !Leaks(states[j], ops[j]))
  {
    ResponsesAreConserved(config, ops, states, i);
    NothingLostIff(config, ops, states, i);
  }
}
