/** Sample-loss detection from the sequence numbers of the publishers. */
module Loss {

  const U64_MAX: nat := 0xFFFF_FFFF_FFFF_FFFF

  type U64 = x: nat | x <= U64_MAX witness 0

  function SaturatingInc(x: U64): U64
  {
    if x == U64_MAX then U64_MAX else x + 1
  }

  /** How many values a publisher skipped between two consecutive observations. */
  function Gap(previous: U64, seqNo: U64): (gap: U64)
    ensures gap > 0 <==> seqNo > previous + 1
    ensures gap > 0 ==> previous + gap + 1 == seqNo
  {
    if seqNo > SaturatingInc(previous) then seqNo - previous - 1 else 0
  }

  /** Last observed sequence number of every publisher port. */
  class LossTracker {
    var last: map<nat, U64>

    constructor ()
      ensures last == map[]
    {
      last := map[];
    }

    /** Records one observation; returns how many samples were missed. */
    method Observe(publisher: nat, seqNo: U64) returns (missed: U64)
      modifies this
      ensures last == old(last)[publisher := seqNo]
      ensures missed == Missed(old(last), publisher, seqNo)
    {
      missed := 0;
      if publisher in last {
        var previous := last[publisher];
        if seqNo > SaturatingInc(previous) {
          missed := seqNo - previous - 1;
        }
      }
      last := last[publisher := seqNo];
    }
  }

  /** What one observation reports, given the table before it. */
  function Missed(last: map<nat, U64>, publisher: nat, seqNo: U64): U64
  {
    if publisher in last then Gap(last[publisher], seqNo) else 0
  }

  datatype Observation = Observation(publisher: nat, seqNo: U64)

  /** The table after a run of observations. */
  function Table(run: seq<Observation>): map<nat, U64>
  {
    if run == [] then map[]
    else Table(run[..|run| - 1])[run[|run| - 1].publisher := run[|run| - 1].seqNo]
  }

  /** Everything a run of the tracker reports. */
  function Reported(run: seq<Observation>): nat
  {
    if run == [] then 0
    else
      var o := run[|run| - 1];
      Reported(run[..|run| - 1]) + Missed(Table(run[..|run| - 1]), o.publisher, o.seqNo)
  }

  /** What a run of one publisher alone amounts to. */
  function Gaps(seen: seq<U64>): nat
  {
    if |seen| <= 1 then 0
    else Gaps(seen[..|seen| - 1]) + Gap(seen[|seen| - 2], seen[|seen| - 1])
  }

  // ---------------------------------------------------------------------------
  // Increasing sequences: the count is exact
  // ---------------------------------------------------------------------------

  ghost predicate Increasing(seen: seq<U64>)
  {
    forall i, j :: 0 <= i < j < |seen| ==> seen[i] < seen[j]
  }

  /** A publisher observed in order: exactly the values never observed are
      reported. */
  lemma {:induction false} IncreasingRunIsExact(seen: seq<U64>)
    requires seen != [] && Increasing(seen)
    ensures Gaps(seen) == (seen[|seen| - 1] - seen[0]) - (|seen| - 1)
  {
    if |seen| > 1 {
      var front := seen[..|seen| - 1];
      IncreasingRunIsExact(front);
      assert seen[|seen| - 2] < seen[|seen| - 1];
    }
  }

  // ---------------------------------------------------------------------------
  // Any order, resets included: losses are never under-reported
  // ---------------------------------------------------------------------------

  function Max(seen: seq<U64>): (m: U64)
    requires seen != []
    ensures m in seen
    ensures forall x :: x in seen ==> x <= m
  {
    if |seen| == 1 then seen[0]
    else
      var front := seen[..|seen| - 1];
      var m := Max(front);
      var x := seen[|seen| - 1];
      assert seen == front + [x];
      if x > m then x else m
  }

  /** The values between the first observation and the largest one that were
      never observed. */
  ghost function Unseen(seen: seq<U64>): set<nat>
    requires seen != []
  {
    set v: nat | seen[0] <= v < Max(seen) && v !in seen
  }

  /** The numbers from `lo` up to but not including `hi`. */
  ghost function Range(lo: nat, hi: nat): (r: set<nat>)
    ensures |r| == if lo <= hi then hi - lo else 0
    ensures forall v: nat :: v in r <==> lo <= v < hi
    decreases hi
  {
    if lo >= hi then {} else Range(lo, hi - 1) + {hi - 1}
  }

  lemma MaxAfter(front: seq<U64>, x: U64)
    requires front != []
    ensures Max(front + [x]) == if x > Max(front) then x else Max(front)
  {
    assert (front + [x])[..|front|] == front;
  }

  lemma UnseenAbove(front: seq<U64>, x: U64)
    requires front != [] && x > Max(front)
    ensures |Unseen(front + [x])| == |Unseen(front)| + (x - Max(front) - 1)
  {
    MaxAfter(front, x);
    var seen, jumped := front + [x], Range(Max(front) + 1, x);
    assert front[0] in front && seen[0] == front[0];
    forall v: nat ensures v in Unseen(seen) <==> v in Unseen(front) || v in jumped {
      assert v in seen <==> v in front || v == x;
    }
    assert Unseen(seen) == Unseen(front) + jumped;
    assert Unseen(front) !! jumped;
  }

  lemma UnseenBelow(front: seq<U64>, x: U64)
    requires front != [] && x <= Max(front)
    ensures |Unseen(front + [x])| == |Unseen(front)| - if front[0] <= x && x !in front then 1 else 0
  {
    MaxAfter(front, x);
    var seen := front + [x];
    assert seen[0] == front[0] && Max(seen) == Max(front);
    forall v: nat ensures v in Unseen(seen) <==> v in Unseen(front) && v != x {
      assert v in seen <==> v in front || v == x;
    }
    assert Unseen(seen) == Unseen(front) - {x};
    assert x in Unseen(front) <==> front[0] <= x && x !in front;
  }

  /** How one more observation changes what was never observed. */
  lemma UnseenAfter(front: seq<U64>, x: U64)
    requires front != []
    ensures x > Max(front) ==> |Unseen(front + [x])| == |Unseen(front)| + (x - Max(front) - 1)
    ensures x <= Max(front) ==>
              |Unseen(front + [x])| == |Unseen(front)| - if front[0] <= x && x !in front then 1 else 0
  {
    if x > Max(front) {
      UnseenAbove(front, x);
    } else {
      UnseenBelow(front, x);
    }
  }

  /** Whatever the order of the observations, the report covers every value that
      was skipped for good. */
  lemma {:induction false} NeverUnderReports(seen: seq<U64>)
    requires seen != []
    ensures Gaps(seen) >= |Unseen(seen)|
  {
    if |seen| == 1 {
      assert Unseen(seen) == {};
    } else {
      var front := seen[..|seen| - 1];
      var x := seen[|seen| - 1];
      assert seen == front + [x];
      NeverUnderReports(front);
      UnseenAfter(front, x);
      assert seen[|seen| - 2] in front;
    }
  }

  /** An observation that adds nothing wrong to the total: a new maximum that follows
      the previous one directly, or a value already seen or from before the start
      that skips nothing. */
  predicate Clean(front: seq<U64>, x: U64)
    requires front != []
  {
    var last: nat := front[|front| - 1];
    if x > Max(front) then last == Max(front) else x <= last + 1 && (x in front || x < front[0])
  }

  predicate AllClean(seen: seq<U64>)
  {
    forall i :: 0 < i < |seen| ==> Clean(seen[..i], seen[i])
  }

  /** The report is exact if and only if every observation is clean. */
  lemma {:induction false} ReportIsExactIffClean(seen: seq<U64>)
    requires seen != []
    ensures Gaps(seen) == |Unseen(seen)| <==> AllClean(seen)
  {
    if |seen| == 1 {
      assert Unseen(seen) == {};
    } else {
      var n := |seen| - 1;
      var front, x := seen[..n], seen[n];
      assert seen == front + [x];
      ReportIsExactIffClean(front);
      OneMoreObservation(front, x, seen);
      AllCleanSnoc(front, x, seen);
    }
  }

  lemma OneMoreObservation(front: seq<U64>, x: U64, seen: seq<U64>)
    requires front != [] && seen == front + [x]
    ensures Gaps(seen) == |Unseen(seen)| <==> Gaps(front) == |Unseen(front)| && Clean(front, x)
  {
    assert seen[..|front|] == front && front[|front| - 1] in front;
    NeverUnderReports(front);
    UnseenAfter(front, x);
  }

  lemma AllCleanSnoc(front: seq<U64>, x: U64, seen: seq<U64>)
    requires front != [] && seen == front + [x]
    ensures AllClean(seen) <==> AllClean(front) && Clean(front, x)
  {
    var n := |front|;
    assert seen[..n] == front && seen[n] == x;
    assert forall i :: 0 < i < n ==> front[..i] == seen[..i] && front[i] == seen[i];
    if AllClean(seen) { assert Clean(seen[..n], seen[n]); }
  }

  /** Reordering does over-report: the bound above is not an equality. */
  lemma ReorderingOverReports()
    ensures Gaps([0, 5, 0, 5]) == 8
    ensures |Unseen([0, 5, 0, 5])| == 4
  {
    var s: seq<U64> := [0, 5, 0, 5];
    assert s[..3] == [0, 5, 0] && s[..3][..2] == [0, 5] && s[..3][..2][..1] == [0];
    assert Gaps(s[..3][..2]) == 4;
    assert Gaps(s[..3]) == 4;
    assert s[1] in s && Max(s) == 5;
    assert s[0] in s;
    assert Unseen(s) == {1, 2, 3, 4};
  }

  // ---------------------------------------------------------------------------
  // Several publishers: each is reported as if it were alone
  // ---------------------------------------------------------------------------

  function Of(run: seq<Observation>, publisher: nat): seq<U64>
  {
    if run == [] then []
    else
      var o := run[|run| - 1];
      Of(run[..|run| - 1], publisher) + if o.publisher == publisher then [o.seqNo] else []
  }

  lemma {:induction false} TableHoldsTheLast(run: seq<Observation>, p: nat)
    ensures p in Table(run) <==> Of(run, p) != []
    ensures p in Table(run) ==> Table(run)[p] == Of(run, p)[|Of(run, p)| - 1]
  {
    if run != [] { TableHoldsTheLast(run[..|run| - 1], p); }
  }

  /** The sum of what each listed publisher alone would report. */
  function SumOfGaps(run: seq<Observation>, publishers: seq<nat>): nat
  {
    if publishers == [] then 0
    else Gaps(Of(run, publishers[0])) + SumOfGaps(run, publishers[1..])
  }

  /** One more observation changes the share of its own publisher, and no other. */
  lemma {:induction false} OnePublisherMoves(run: seq<Observation>, publishers: seq<nat>)
    requires run != []
    requires forall i, j :: 0 <= i < j < |publishers| ==> publishers[i] != publishers[j]
    ensures var o, before := run[|run| - 1], run[..|run| - 1];
            SumOfGaps(run, publishers) == SumOfGaps(before, publishers)
              + if o.publisher in publishers then Missed(Table(before), o.publisher, o.seqNo) else 0
  {
    var o, before := run[|run| - 1], run[..|run| - 1];
    if publishers != [] {
      OnePublisherMoves(run, publishers[1..]);
      var p := publishers[0];
      TableHoldsTheLast(before, p);
      var mine := Of(before, p);
      if o.publisher == p {
        assert (mine + [o.seqNo])[..|mine|] == mine;
      } else {
        assert mine + [] == mine;
      }
    }
  }

  /** An interleaved run reports the sum of the runs of its publishers, whatever
      the interleaving. */
  lemma {:induction false} PublishersAreIndependent(run: seq<Observation>, publishers: seq<nat>)
    requires forall i, j :: 0 <= i < j < |publishers| ==> publishers[i] != publishers[j]
    requires forall o :: o in run ==> o.publisher in publishers
    ensures Reported(run) == SumOfGaps(run, publishers)
  {
    if run == [] {
      NothingSeen(publishers);
    } else {
      PublishersAreIndependent(run[..|run| - 1], publishers);
      OnePublisherMoves(run, publishers);
    }
  }

  lemma {:induction false} NothingSeen(publishers: seq<nat>)
    ensures SumOfGaps([], publishers) == 0
  {
    if publishers != [] { NothingSeen(publishers[1..]); }
  }
}
