/** Bags collected over the entries of a map, and folds whose steps commute.

    Both exist for one reason: the observer walks hash maps, whose order is
    unspecified.  A quantity that is a bag over the entries does not depend on
    that order, and neither does a fold whose steps commute. */
module Bags {

  /** Some key of a non-empty map. */
  ghost function Pick<K, V>(m: map<K, V>): (k: K)
    requires m != map[]
    ensures k in m
  {
    var k :| k in m;
    k
  }

  /** The bag of `f(v)` over every entry `(k, v)` of `m`. */
  ghost function Bag<K, V, T>(m: map<K, V>, f: V -> multiset<T>): (b: multiset<T>)
    decreases |m|
  {
    if m == map[] then multiset{}
    else
      var k := Pick(m);
      assert |m - {k}| < |m| by { assert m.Keys == (m - {k}).Keys + {k}; }
      f(m[k]) + Bag(m - {k}, f)
  }

  /** Any entry can be taken out first. */
  lemma {:induction false} BagRemove<K, V, T>(m: map<K, V>, f: V -> multiset<T>, k: K)
    requires k in m
    ensures Bag(m, f) == f(m[k]) + Bag(m - {k}, f)
    decreases |m|
  {
    var first := Pick(m);
    if first != k {
      assert m.Keys == (m - {first}).Keys + {first};
      BagRemove(m - {first}, f, k);
      assert m.Keys == (m - {k}).Keys + {k};
      BagRemove(m - {k}, f, first);
      assert m - {first} - {k} == m - {k} - {first};
    }
  }

  /** What storing `v` under `k` changes, relative to the map without `k`. */
  lemma BagStore<K, V, T>(m: map<K, V>, f: V -> multiset<T>, k: K, v: V)
    ensures Bag(m[k := v], f) == f(v) + Bag(m - {k}, f)
    ensures k in m ==> Bag(m, f) == f(m[k]) + Bag(m - {k}, f)
    ensures k !in m ==> m - {k} == m
  {
    BagRemove(m[k := v], f, k);
    assert m[k := v] - {k} == m - {k};
    if k in m {
      BagRemove(m, f, k);
    }
  }

  /** One item per entry: the bag is as large as the map. */
  lemma {:induction false} BagSize<K, V, T>(m: map<K, V>, f: V -> multiset<T>)
    requires forall v :: |f(v)| == 1
    ensures |Bag(m, f)| == |m|
    decreases |m|
  {
    if m != map[] {
      var k := Pick(m);
      assert m.Keys == (m - {k}).Keys + {k};
      BagSize(m - {k}, f);
    }
  }

  /** What the bag holds, some entry contributes. */
  lemma {:induction false} BagMembers<K, V, T>(m: map<K, V>, f: V -> multiset<T>, x: T)
    ensures x in Bag(m, f) <==> exists k :: k in m && x in f(m[k])
    decreases |m|
  {
    if m != map[] {
      var k := Pick(m);
      assert m.Keys == (m - {k}).Keys + {k};
      BagMembers(m - {k}, f, x);
      if j :| j in m && x in f(m[j]) {
        assert j != k ==> j in m - {k};
      }
    }
  }

  /** The numbers below `n`, once each. */
  ghost function Arrivals(n: nat): (b: multiset<nat>)
    ensures |b| == n
    ensures forall i: nat :: b[i] == if i < n then 1 else 0
  {
    if n == 0 then multiset{} else Arrivals(n - 1) + multiset{n - 1}
  }
}

/** Left folds, and when their order does not matter. */
module Folds {

  ghost function Fold<S, K>(s: S, ks: seq<K>, step: (S, K) -> S): S
    decreases |ks|
  {
    if ks == [] then s else Fold(step(s, ks[0]), ks[1..], step)
  }

  /** The steps on two different keys can be exchanged, in every state. */
  ghost predicate Commutes<S(!new), K(!new)>(step: (S, K) -> S)
  {
    forall s, a, b :: a != b ==> step(step(s, a), b) == step(step(s, b), a)
  }

  lemma {:induction false} FoldAppend<S, K>(s: S, a: seq<K>, b: seq<K>, step: (S, K) -> S)
    ensures Fold(s, a + b, step) == Fold(Fold(s, a, step), b, step)
    decreases |a|
  {
    if a == [] {
      assert a + b == b;
    } else {
      assert (a + b)[1..] == a[1..] + b;
      FoldAppend(step(s, a[0]), a[1..], b, step);
    }
  }

  /** A step can be pulled to the front of a fold. */
  lemma {:induction false} FoldFront<S(!new), K(!new)>(s: S, ks: seq<K>, k: K, step: (S, K) -> S)
    requires Commutes(step)
    ensures step(Fold(s, ks, step), k) == Fold(step(s, k), ks, step)
    decreases |ks|
  {
    if ks != [] {
      FoldFront(step(s, ks[0]), ks[1..], k, step);
      assert ks[0] != k ==> step(step(s, ks[0]), k) == step(step(s, k), ks[0]);
    }
  }

  lemma TakeOut<K>(b: seq<K>, i: nat)
    requires i < |b|
    ensures b == b[..i] + ([b[i]] + b[i + 1..])
    ensures multiset(b[..i] + b[i + 1..]) == multiset(b) - multiset{b[i]}
  {
    assert b == b[..i] + ([b[i]] + b[i + 1..]);
    assert multiset(b) == multiset(b[..i]) + (multiset{b[i]} + multiset(b[i + 1..]));
  }

  /** Pulling one key out of the middle of a fold to its front. */
  lemma FoldMiddle<S(!new), K(!new)>(s: S, before: seq<K>, k: K, after: seq<K>, step: (S, K) -> S)
    requires Commutes(step)
    ensures Fold(s, before + ([k] + after), step) == Fold(step(s, k), before + after, step)
  {
    FoldAppend(s, before, [k] + after, step);
    FoldAppend(step(s, k), before, after, step);
    FoldFront(s, before, k, step);
    var mid := Fold(s, before, step);
    assert ([k] + after)[1..] == after;
    assert Fold(mid, [k] + after, step) == Fold(step(mid, k), after, step);
  }

  /** Commuting steps: two orders of the same keys end in the same state. */
  lemma {:induction false} FoldPermutation<S(!new), K(!new)>(s: S, a: seq<K>, b: seq<K>, step: (S, K) -> S)
    requires Commutes(step)
    requires multiset(a) == multiset(b)
    ensures Fold(s, a, step) == Fold(s, b, step)
    decreases |a|
  {
    if a == [] {
      assert |multiset(b)| == |b|;
    } else {
      var k := a[0];
      assert k in multiset(b);
      var j :| 0 <= j < |b| && b[j] == k;
      TakeOut(b, j);
      var before, after := b[..j], b[j + 1..];
      var rest := before + after;
      assert multiset(a[1..]) == multiset(rest) by {
        assert a == [k] + a[1..];
        assert multiset(a) == multiset{k} + multiset(a[1..]);
      }
      FoldPermutation(step(s, k), a[1..], rest, step);
      FoldMiddle(s, before, k, after, step);
    }
  }

  /** `ks` lists exactly the members of `keys`, once each: an order a hash map
      may yield them in. */
  ghost predicate Lists<K>(ks: seq<K>, keys: set<K>)
  {
    multiset(ks) == multiset(keys)
  }

  lemma ListsAdd<K>(ks: seq<K>, keys: set<K>, k: K)
    requires Lists(ks, keys) && k !in keys
    ensures Lists(ks + [k], keys + {k})
  {
  }

  lemma ListsMembers<K>(ks: seq<K>, keys: set<K>)
    requires Lists(ks, keys)
    ensures forall k :: k in ks <==> k in keys
  {
    forall k ensures k in ks <==> k in keys {
      assert k in ks <==> k in multiset(ks);
    }
  }

  predicate Distinct<K(==)>(ks: seq<K>)
  {
    forall i, j :: 0 <= i < j < |ks| ==> ks[i] != ks[j]
  }

  lemma ListsDistinct<K>(ks: seq<K>, keys: set<K>)
    requires Lists(ks, keys)
    ensures Distinct(ks)
  {
    forall i, j | 0 <= i < j < |ks| ensures ks[i] != ks[j] {
      assert ks == ks[..j] + ks[j..];
      assert ks[i] in ks[..j] && ks[j] in ks[j..];
      assert multiset(ks) == multiset(ks[..j]) + multiset(ks[j..]);
      assert multiset(ks)[ks[i]] <= 1;
    }
  }
}
