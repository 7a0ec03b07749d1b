/**
 Two caches of different sizes run on the same trace.  The caches sit in front of a store:
 puts go to the store and the cache, fetches that miss load from the store.  The smaller
 cache's list is always a prefix of the larger one's, whatever the entries weigh.
 */
module LruInclusion {
  import opened Bytes
  import opened LruSpec
  import opened LruCaches

  datatype Op<+K, +D> = Put(key: K, data: D) | Drop(key: K) | Load(key: K)

  function StoreAfter<K, D>(store: map<K, D>, op: Op<K, D>): map<K, D> {
    if op.Put? then store[op.key := op.data] else store
  }

  function ListAfter<K(==), D>(s: seq<Entry<K, D>>, store: map<K, D>, op: Op<K, D>, w: D -> nat, max: nat)
    : seq<Entry<K, D>>
  {
    match op
    case Put(k, d) => Insert(s, k, d, w, max)
    case Drop(k) => Without(s, k)
    case Load(k) =>
      if Find(s, k).Some? then Touch(s, k)
      else if k in store then Insert(s, k, store[k], w, max)
      else s
  }

  function Lists<K(==), D>(s: seq<Entry<K, D>>, store: map<K, D>, ops: seq<Op<K, D>>, w: D -> nat, max: nat)
    : seq<Entry<K, D>>
    decreases |ops|
  {
    if ops == [] then s
    else Lists(ListAfter(s, store, ops[0], w, max), StoreAfter(store, ops[0]), ops[1..], w, max)
  }

  /** Keys once each, every entry what the store holds, and within the limit. */
  ghost predicate Coherent<K, D>(s: seq<Entry<K, D>>, store: map<K, D>, w: D -> nat, max: nat) {
    && Distinct(s)
    && (forall i :: 0 <= i < |s| ==> s[i].key in store && store[s[i].key] == s[i].data)
    && Total(s, w) <= max
  }

  /** A hit leaves the same list as loading the entry afresh. */
  lemma HitIsInsert<K, D>(s: seq<Entry<K, D>>, store: map<K, D>, k: K, w: D -> nat, max: nat)
    requires Coherent(s, store, w, max) && Find(s, k).Some?
    ensures k in store && Touch(s, k) == Insert(s, k, store[k], w, max)
  {
    FindIsThere(s, k);
    var i :| 0 <= i < |s| && s[i] == Entry(k, Find(s, k).value);
    WithoutAt(s, i);
    TotalWithoutAt(s, i, w);
    hide Total, Without;
    TotalSingle(s[i], w);
    TotalConcat([s[i]], Without(s, k), w);
  }

  lemma LoadIsInsert<K, D>(s: seq<Entry<K, D>>, store: map<K, D>, k: K, w: D -> nat, max: nat)
    requires Coherent(s, store, w, max)
    ensures ListAfter(s, store, Load(k), w, max) == if k in store then Insert(s, k, store[k], w, max) else s
  {
    if Find(s, k).Some? {
      HitIsInsert(s, store, k, w, max);
    }
  }

  lemma InsertCoherent<K, D>(s: seq<Entry<K, D>>, store: map<K, D>, k: K, d: D, w: D -> nat, max: nat)
    requires Coherent(s, store, w, max)
    ensures Coherent(Insert(s, k, d, w, max), store[k := d], w, max)
  {
    var t := [Entry(k, d)] + Without(s, k);
    WithoutDistinct(s, k);
    assert Distinct(t);
    forall i | 0 <= i < |t|
      ensures t[i].key in store[k := d] && store[k := d][t[i].key] == t[i].data
    {
      if i > 0 {
        assert Without(s, k)[i - 1] in s;
      }
    }
    FitIsLongest(t, w, max);
  }

  lemma {:induction false} TotalWithout<K, D>(s: seq<Entry<K, D>>, k: K, w: D -> nat)
    ensures Total(Without(s, k), w) <= Total(s, w)
  {
    if s != [] {
      TotalWithout(s[..|s| - 1], k, w);
    }
  }

  lemma StepCoherent<K, D>(s: seq<Entry<K, D>>, store: map<K, D>, op: Op<K, D>, w: D -> nat, max: nat)
    requires Coherent(s, store, w, max)
    ensures Coherent(ListAfter(s, store, op, w, max), StoreAfter(store, op), w, max)
  {
    match op
    case Put(k, d) =>
      hide Coherent, Insert;
      InsertCoherent(s, store, k, d, w, max);
    case Drop(k) =>
      WithoutDistinct(s, k);
      TotalWithout(s, k, w);
      forall i | 0 <= i < |Without(s, k)|
        ensures var e := Without(s, k)[i]; e.key in store && store[e.key] == e.data
      {
        assert Without(s, k)[i] in s;
      }
    case Load(k) =>
      hide Insert, ListAfter;
      LoadIsInsert(s, store, k, w, max);
      if k in store {
        InsertCoherent(s, store, k, store[k], w, max);
        assert store[k := store[k]] == store;
      }
  }

  /** One step on both caches keeps the prefix. */
  lemma StepInclusion<K, D>(
    p: seq<Entry<K, D>>, s: seq<Entry<K, D>>, store: map<K, D>, op: Op<K, D>, w: D -> nat, m: nat, n: nat)
    requires p <= s && m <= n && Coherent(p, store, w, m) && Coherent(s, store, w, n)
    ensures ListAfter(p, store, op, w, m) <= ListAfter(s, store, op, w, n)
  {
    hide Coherent, Fit, Without;
    WithoutPrefix(p, s, op.key);
    match op
    case Put(k, d) =>
      FitMonotone([Entry(k, d)] + Without(p, k), [Entry(k, d)] + Without(s, k), w, m, n);
    case Drop(k) =>
    case Load(k) =>
      LoadIsInsert(p, store, k, w, m);
      LoadIsInsert(s, store, k, w, n);
      if k in store {
        FitMonotone([Entry(k, store[k])] + Without(p, k), [Entry(k, store[k])] + Without(s, k), w, m, n);
      }
  }

  /** The inclusion property: after any trace, the larger cache holds what the smaller one does, in the same order. */
  lemma {:induction false} Inclusion<K, D>(
    p: seq<Entry<K, D>>, s: seq<Entry<K, D>>, store: map<K, D>, ops: seq<Op<K, D>>, w: D -> nat, m: nat, n: nat)
    requires p <= s && m <= n && Coherent(p, store, w, m) && Coherent(s, store, w, n)
    ensures Lists(p, store, ops, w, m) <= Lists(s, store, ops, w, n)
    decreases |ops|
  {
    hide Coherent, ListAfter, StoreAfter;
    if ops != [] {
      StepCoherent(p, store, ops[0], w, m);
      StepCoherent(s, store, ops[0], w, n);
      StepInclusion(p, s, store, ops[0], w, m, n);
      var op := ops[0];
      Inclusion(ListAfter(p, store, op, w, m), ListAfter(s, store, op, w, n), StoreAfter(store, op), ops[1..], w, m, n);
    }
  }

  /** So a bigger cache never misses where a smaller one hits, and a hit gives the same data. */
  lemma BiggerHitsMore<K, D>(store: map<K, D>, ops: seq<Op<K, D>>, k: K, w: D -> nat, m: nat, n: nat)
    requires m <= n && Find(Lists([], store, ops, w, m), k).Some?
    ensures Find(Lists([], store, ops, w, n), k) == Find(Lists([], store, ops, w, m), k)
  {
    hide Lists, Find;
    Inclusion([], [], store, ops, w, m, n);
    FindInPrefix(Lists([], store, ops, w, m), Lists([], store, ops, w, n), k);
  }

  lemma {:induction false} FindInPrefix<K, D>(p: seq<Entry<K, D>>, s: seq<Entry<K, D>>, k: K)
    requires p <= s && Find(p, k).Some?
    ensures Find(s, k) == Find(p, k)
  {
    if p[0].key != k {
      FindInPrefix(p[1..], s[1..], k);
    }
  }

  /**
   Loads must bring what the larger cache still holds.  When a fetch of k hits only in the
   larger cache, loading d into the smaller one keeps the prefix exactly when d is the data
   of that hit, or is too heavy for the smaller cache to keep at all.
   */
  lemma LoadKeepsPrefixIff<K, D>(p: seq<Entry<K, D>>, s: seq<Entry<K, D>>, k: K, d: D, w: D -> nat, m: nat, n: nat)
    requires p <= s && m <= n && Distinct(s) && Total(s, w) <= n
    requires Find(p, k).None? && Find(s, k).Some?
    ensures Insert(p, k, d, w, m) <= Touch(s, k) <==> Find(s, k) == Some(d) || w(d) > m
  {
    var t := [Entry(k, d)] + Without(p, k);
    FitIsLongest(t, w, m);
    TotalSingle(Entry(k, d), w);
    if w(d) > m {
      HeavyFrontLeavesNothing(t, w, m);
    } else {
      assert t[..1] == [Entry(k, d)];
      assert |Fit(t, w, m)| >= 1 && Fit(t, w, m)[0] == Entry(k, d);
      if Find(s, k) == Some(d) {
        WithoutPrefix(p, s, k);
        hide Fit, Total, Without;
        assert Fit(t, w, m) <= t <= Touch(s, k);
      }
    }
  }

  lemma HeavyFrontLeavesNothing<K, D>(t: seq<Entry<K, D>>, w: D -> nat, m: nat)
    requires t != [] && w(t[0].data) > m
    ensures Fit(t, w, m) == []
  {
    FitIsLongest(t, w, m);
    hide Fit, Total;
    var f := Fit(t, w, m);
    if f != [] {
      assert f == [t[0]] + f[1..];
      TotalConcat([t[0]], f[1..], w);
      TotalSingle(t[0], w);
    }
  }
}
