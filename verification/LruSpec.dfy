/**
 What a weighted least-recently-used cache is, on plain sequences: most recent entry
 first, each operation a rearrangement followed by keeping the longest prefix that fits.
 */
module LruSpec {
  datatype Entry<+K, +D> = Entry(key: K, data: D)

  function Total<K, D>(s: seq<Entry<K, D>>, w: D -> nat): nat {
    if s == [] then 0 else Total(s[..|s| - 1], w) + w(s[|s| - 1].data)
  }

  predicate Has<K(==), D>(s: seq<Entry<K, D>>, k: K) {
    exists i :: 0 <= i < |s| && s[i].key == k
  }

  ghost predicate Distinct<K, D>(s: seq<Entry<K, D>>) {
    forall i, j :: 0 <= i < j < |s| ==> s[i].key != s[j].key
  }

  function Without<K(==), D>(s: seq<Entry<K, D>>, k: K): (r: seq<Entry<K, D>>)
    ensures forall i :: 0 <= i < |r| ==> r[i].key != k && r[i] in s
  {
    if s == [] then []
    else if s[|s| - 1].key == k then Without(s[..|s| - 1], k)
    else Without(s[..|s| - 1], k) + [s[|s| - 1]]
  }

  /** Drop from the end until the total is at most max. */
  function Fit<K, D>(s: seq<Entry<K, D>>, w: D -> nat, max: nat): seq<Entry<K, D>> {
    if Total(s, w) <= max then s else Fit(s[..|s| - 1], w, max)
  }

  /** insert: the new entry in front of the old ones without its key, cut to size. */
  function Insert<K(==), D>(s: seq<Entry<K, D>>, k: K, d: D, w: D -> nat, max: nat): seq<Entry<K, D>> {
    Fit([Entry(k, d)] + Without(s, k), w, max)
  }

  // ----- the longest prefix that fits -----

  lemma {:induction false} FitIsLongest<K, D>(s: seq<Entry<K, D>>, w: D -> nat, max: nat)
    ensures Fit(s, w, max) <= s && Total(Fit(s, w, max), w) <= max
    ensures forall n :: |Fit(s, w, max)| < n <= |s| ==> Total(s[..n], w) > max
  {
    if Total(s, w) > max {
      var t := s[..|s| - 1];
      FitIsLongest(t, w, max);
      forall n | |Fit(s, w, max)| < n <= |s|
        ensures Total(s[..n], w) > max
      {
        assert n < |s| ==> s[..n] == t[..n];
        assert s[..|s|] == s;
      }
    }
  }

  lemma FitMonotone<K, D>(p: seq<Entry<K, D>>, s: seq<Entry<K, D>>, w: D -> nat, m: nat, n: nat)
    requires p <= s && m <= n
    ensures Fit(p, w, m) <= Fit(s, w, n)
  {
    hide Fit, Total;
    FitIsLongest(p, w, m);
    FitIsLongest(s, w, n);
    var k := |Fit(p, w, m)|;
    assert Fit(p, w, m) == s[..k];
  }

  // ----- removing a key -----

  lemma {:induction false} WithoutAbsent<K, D>(s: seq<Entry<K, D>>, k: K)
    requires forall i :: 0 <= i < |s| ==> s[i].key != k
    ensures Without(s, k) == s
  {
    if s != [] {
      WithoutAbsent(s[..|s| - 1], k);
    }
  }

  lemma {:induction false} WithoutAt<K, D>(s: seq<Entry<K, D>>, i: nat)
    requires i < |s| && Distinct(s)
    ensures Without(s, s[i].key) == s[..i] + s[i + 1..]
  {
    var t := s[..|s| - 1];
    if i == |s| - 1 {
      WithoutAbsent(t, s[i].key);
    } else {
      WithoutAt(t, i);
      assert s[i + 1..] == t[i + 1..] + [s[|s| - 1]];
    }
  }

  lemma {:induction false} WithoutPrefix<K, D>(p: seq<Entry<K, D>>, s: seq<Entry<K, D>>, k: K)
    requires p <= s
    ensures Without(p, k) <= Without(s, k)
  {
    if p != s {
      assert p <= s[..|s| - 1];
      WithoutPrefix(p, s[..|s| - 1], k);
    }
  }

  lemma {:induction false} WithoutDistinct<K, D>(s: seq<Entry<K, D>>, k: K)
    requires Distinct(s)
    ensures Distinct(Without(s, k))
  {
    if s != [] {
      WithoutDistinct(s[..|s| - 1], k);
    }
  }

  // ----- totals -----

  lemma {:induction false} TotalConcat<K, D>(s: seq<Entry<K, D>>, t: seq<Entry<K, D>>, w: D -> nat)
    ensures Total(s + t, w) == Total(s, w) + Total(t, w)
  {
    if t == [] {
      assert s + t == s;
    } else {
      assert (s + t)[..|s + t| - 1] == s + t[..|t| - 1];
      TotalConcat(s, t[..|t| - 1], w);
    }
  }

  lemma TotalSingle<K, D>(e: Entry<K, D>, w: D -> nat)
    ensures Total([e], w) == w(e.data)
  {
    assert [e][..0] == [];
  }

  lemma TotalWithoutAt<K, D>(s: seq<Entry<K, D>>, i: nat, w: D -> nat)
    requires i < |s|
    ensures Total(s[..i] + s[i + 1..], w) + w(s[i].data) == Total(s, w)
  {
    hide Total;
    TotalConcat(s[..i], s[i + 1..], w);
    TotalConcat(s[..i] + [s[i]], s[i + 1..], w);
    TotalConcat(s[..i], [s[i]], w);
    TotalSingle(s[i], w);
    assert s[..i] + [s[i]] + s[i + 1..] == s;
  }
}
