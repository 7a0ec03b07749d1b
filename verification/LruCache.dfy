/**
 LRUCache of whip/lru_cache.h: a list of entries, an index from keys to list nodes and a
 running size, kept in step by every operation.
 */
module LruCaches {
  import opened Bytes
  import opened LruSpec

  /** A list node; its handle is what an iterator into the list is. */
  datatype Node<+K, +D> = Node(handle: nat, key: K, data: D)

  function Entries<K, D>(l: seq<Node<K, D>>): seq<Entry<K, D>> {
    seq(|l|, i requires 0 <= i < |l| => Entry(l[i].key, l[i].data))
  }

  /** The index maps exactly the keys in the list, each to its own node. */
  ghost predicate Linked<K, D>(l: seq<Node<K, D>>, index: map<K, nat>) {
    && (forall i, j :: 0 <= i < j < |l| ==> l[i].handle != l[j].handle)
    && (forall i :: 0 <= i < |l| ==> l[i].key in index && index[l[i].key] == l[i].handle)
    && (forall k :: k in index ==> HasNode(l, k))
  }

  ghost predicate HasNode<K, D>(l: seq<Node<K, D>>, k: K) {
    exists i :: 0 <= i < |l| && l[i].key == k
  }

  lemma LinkedIsDistinct<K, D>(l: seq<Node<K, D>>, index: map<K, nat>)
    requires Linked(l, index)
    ensures Distinct(Entries(l))
  {
  }

  /** A list is linked when its nodes are nodes of a linked one, none twice, and every indexed key has one. */
  lemma LinkedFrom<K, D>(l: seq<Node<K, D>>, index: map<K, nat>, l': seq<Node<K, D>>, index': map<K, nat>)
    requires Linked(l, index)
    requires forall i, j :: 0 <= i < j < |l'| ==> l'[i].handle != l'[j].handle
    requires forall i :: 0 <= i < |l'| ==> l'[i] in l && l'[i].key in index'
    requires forall k :: k in index' ==> k in index && index'[k] == index[k] && HasNode(l', k)
    ensures Linked(l', index')
  {
  }

  /** _list.erase and _index.erase of one node. */
  lemma Unlink<K, D>(l: seq<Node<K, D>>, index: map<K, nat>, i: nat)
    requires Linked(l, index) && i < |l|
    ensures Linked(l[..i] + l[i + 1..], index - {l[i].key})
  {
    var l' := l[..i] + l[i + 1..];
    assert forall j :: 0 <= j < |l'| ==> l'[j] == l[if j < i then j else j + 1];
    forall k | k in index - {l[i].key}
      ensures HasNode(l', k)
    {
      var j :| 0 <= j < |l| && l[j].key == k;
      assert l'[if j < i then j else j - 1].key == k;
    }
    LinkedFrom(l, index, l', index - {l[i].key});
  }

  lemma UnlinkEntries<K, D>(l: seq<Node<K, D>>, index: map<K, nat>, i: nat)
    requires Linked(l, index) && i < |l|
    ensures Entries(l[..i] + l[i + 1..]) == Without(Entries(l), l[i].key)
  {
    LinkedIsDistinct(l, index);
    WithoutAt(Entries(l), i);
    hide Linked, Without, Distinct;
    assert Entries(l[..i] + l[i + 1..]) == Entries(l)[..i] + Entries(l)[i + 1..];
  }

  /** _list.push_front and _index.insert of a new key. */
  lemma PushFront<K, D>(l: seq<Node<K, D>>, index: map<K, nat>, n: Node<K, D>)
    requires Linked(l, index) && n.key !in index && forall i :: 0 <= i < |l| ==> l[i].handle != n.handle
    ensures Linked([n] + l, index[n.key := n.handle])
  {
    var l' := [n] + l;
    assert forall j :: 0 < j < |l'| ==> l'[j] == l[j - 1];
    forall k | k in index[n.key := n.handle]
      ensures HasNode(l', k)
    {
      if k == n.key {
        assert l'[0].key == k;
      } else {
        var j :| 0 <= j < |l| && l[j].key == k;
        assert l'[j + 1].key == k;
      }
    }
  }

  lemma PushFrontEntries<K, D>(l: seq<Node<K, D>>, n: Node<K, D>)
    ensures Entries([n] + l) == [Entry(n.key, n.data)] + Entries(l)
  {
  }

  /** _list.splice of one node to the front: out of its place, in at the front. */
  lemma Splice<K, D>(l: seq<Node<K, D>>, index: map<K, nat>, i: nat)
    requires Linked(l, index) && i < |l|
    ensures Linked([l[i]] + (l[..i] + l[i + 1..]), index)
    ensures Entries([l[i]] + (l[..i] + l[i + 1..])) == [Entry(l[i].key, l[i].data)] + Without(Entries(l), l[i].key)
  {
    var rest := l[..i] + l[i + 1..];
    assert forall j :: 0 <= j < |rest| ==> rest[j] == l[if j < i then j else j + 1];
    assert index == (index - {l[i].key})[l[i].key := l[i].handle];
    Unlink(l, index, i);
    UnlinkEntries(l, index, i);
    hide Linked, Entries, Without;
    PushFront(rest, index - {l[i].key}, l[i]);
    PushFrontEntries(rest, l[i]);
  }

  /** What a fetch of a key finds: its data, or nothing. */
  function Find<K(==), D>(s: seq<Entry<K, D>>, k: K): Option<D> {
    if s == [] then None else if s[0].key == k then Some(s[0].data) else Find(s[1..], k)
  }

  lemma {:induction false} FindIsThere<K, D>(s: seq<Entry<K, D>>, k: K)
    requires Find(s, k).Some?
    ensures exists i :: 0 <= i < |s| && s[i] == Entry(k, Find(s, k).value)
  {
    if s[0].key != k {
      FindIsThere(s[1..], k);
      var i :| 0 <= i < |s[1..]| && s[1..][i] == Entry(k, Find(s, k).value);
      assert s[i + 1] == s[1..][i];
    } else {
      assert s[0] == Entry(k, Find(s, k).value);
    }
  }

  lemma {:induction false} FindAt<K, D>(s: seq<Entry<K, D>>, i: nat)
    requires i < |s| && Distinct(s)
    ensures Find(s, s[i].key) == Some(s[i].data)
  {
    if i > 0 { FindAt(s[1..], i - 1); }
  }

  lemma {:induction false} FindAbsent<K, D>(s: seq<Entry<K, D>>, k: K)
    requires forall i :: 0 <= i < |s| ==> s[i].key != k
    ensures Find(s, k) == None
  {
    if s != [] { FindAbsent(s[1..], k); }
  }

  /** The entry of a key moved to the front. */
  function Touch<K(==), D>(s: seq<Entry<K, D>>, k: K): seq<Entry<K, D>> {
    match Find(s, k)
    case None => s
    case Some(d) => [Entry(k, d)] + Without(s, k)
  }

  class LruCache<K(==), D> {
    var list: seq<Node<K, D>>     // _list, most recently used first
    var index: map<K, nat>        // _index
    var size: nat                 // _calculator
    var nextHandle: nat
    const maxSize: nat            // _max_size
    const weight: D -> nat        // what on_add and on_remove count an entry for

    ghost predicate Valid()
      reads this
    {
      && Linked(list, index)
      && (forall i :: 0 <= i < |list| ==> list[i].handle < nextHandle)
      && size == Total(Entries(list), weight)
    }

    ghost function Contents(): seq<Entry<K, D>>
      reads this
    {
      Entries(list)
    }

    constructor (maxSize: nat, weight: D -> nat)
      ensures Valid() && Contents() == [] && this.maxSize == maxSize && this.weight == weight
    {
      list, index, size, nextHandle := [], map[], 0, 0;
      this.maxSize, this.weight := maxSize, weight;
    }

    method Clear()
      modifies this
      ensures Valid() && Contents() == []
    {
      list, index, size := [], map[], 0;
    }

    method Exists(key: K) returns (found: bool)
      requires Valid()
      ensures found == Has(Contents(), key)
    {
      found := key in index;
      if found {
        var i :| 0 <= i < |list| && list[i].key == key;
        assert Contents()[i].key == key;
      }
    }

    /** Where the node of an indexed key stands: what following the stored iterator does. */
    method Follow(key: K) returns (i: nat)
      requires Valid() && key in index
      ensures i < |list| && list[i].key == key
    {
      i :| 0 <= i < |list| && list[i].handle == index[key];
    }

    /** _touch */
    method Promote(key: K) returns (found: bool)
      requires Valid()
      modifies this`list
      ensures Valid() && Contents() == Touch(old(Contents()), key)
      ensures found == (key in index) && (found ==> |list| > 0 && list[0].key == key)
    {
      hide Total, Without, Linked;
      found := key in index;
      if found {
        var i := Follow(key);
        LinkedIsDistinct(list, index);
        FindAt(Contents(), i);
        WithoutAt(Contents(), i);
        Splice(list, index, i);
        TotalWithoutAt(Contents(), i, weight);
        TotalSingle(Contents()[i], weight);
        TotalConcat([Contents()[i]], Without(Contents(), key), weight);
        list := [list[i]] + (list[..i] + list[i + 1..]);
      } else {
        AbsentFromContents(list, index, key);
      }
    }

    /** _remove */
    method Erase(key: K)
      requires Valid() && key in index
      modifies this
      ensures Valid() && Contents() == Without(old(Contents()), key)
      ensures index == old(index) - {key} && |list| == |old(list)| - 1 && nextHandle == old(nextHandle)
    {
      hide Total, Without;
      var i := Follow(key);
      LinkedIsDistinct(list, index);
      WithoutAt(Contents(), i);
      TotalWithoutAt(Contents(), i, weight);
      Unlink(list, index, i);
      UnlinkEntries(list, index, i);
      size := size - weight(list[i].data);
      list := list[..i] + list[i + 1..];
      index := index - {key};
    }

    method Remove(key: K)
      requires Valid()
      modifies this
      ensures Valid() && Contents() == Without(old(Contents()), key)
    {
      if key in index {
        Erase(key);
      } else {
        WithoutAbsent(Contents(), key);
      }
    }

    /** fetch with touch_data set, as every caller leaves it. */
    method Fetch(key: K) returns (r: Option<D>)
      requires Valid()
      modifies this`list
      ensures Valid() && r == Find(old(Contents()), key)
      ensures Contents() == Touch(old(Contents()), key)
    {
      if key !in index {
        FindAbsent(Contents(), key);
        return None;
      }
      var i := Follow(key);
      LinkedIsDistinct(list, index);
      FindAt(Contents(), i);
      r := Some(list[i].data);
      var found := Promote(key);
    }

    method Insert(key: K, data: D)
      requires Valid()
      modifies this
      ensures Valid()
      ensures Contents() == LruSpec.Insert(old(Contents()), key, data, weight, maxSize)
    {
      hide Total, Without, Fit;
      ghost var before := Contents();
      MakeRoom(key);
      PushFront(list, index, Node(nextHandle, key, data));
      PushFrontEntries(list, Node(nextHandle, key, data));
      TotalConcat([Entry(key, data)], Contents(), weight);
      TotalSingle(Entry(key, data), weight);
      list := [Node(nextHandle, key, data)] + list;
      index := index[key := nextHandle];
      nextHandle := nextHandle + 1;
      size := size + weight(data);
      Evict();
    }

    /** The first half of insert: touch the key, and if it was there remove it. */
    method MakeRoom(key: K)
      requires Valid()
      modifies this
      ensures Valid() && Contents() == Without(old(Contents()), key)
      ensures key !in index && nextHandle == old(nextHandle)
    {
      hide Total, Without, Find, Linked;
      AbsentFromContents(list, index, key);
      TouchThenWithout(Contents(), key);
      var found := Promote(key);
      if found {
        Erase(key);
      }
    }

    /** The eviction loop: it never looks for the last entry of an empty list. */
    method Evict()
      requires Valid()
      modifies this
      ensures Valid() && Contents() == Fit(old(Contents()), weight, maxSize)
    {
      hide Without;
      while size > maxSize
        invariant Valid() && Fit(Contents(), weight, maxSize) == Fit(old(Contents()), weight, maxSize)
        decreases |list|
      {
        assert Contents() != [];
        var last := |list| - 1;
        LinkedIsDistinct(list, index);
        WithoutAt(Contents(), last);
        assert Contents()[..last] + Contents()[last + 1..] == Contents()[..last];
        Erase(list[last].key);
      }
    }
  }

  lemma AbsentFromContents<K, D>(l: seq<Node<K, D>>, index: map<K, nat>, k: K)
    requires Linked(l, index)
    ensures k !in index ==> Touch(Entries(l), k) == Entries(l) == Without(Entries(l), k)
  {
    if k !in index {
      FindAbsent(Entries(l), k);
      WithoutAbsent(Entries(l), k);
    }
  }

  lemma TouchThenWithout<K, D>(s: seq<Entry<K, D>>, k: K)
    ensures Without(Touch(s, k), k) == Without(s, k)
  {
    WithoutAbsent(Without(s, k), k);
    if Find(s, k).Some? {
      WithoutFront(Entry(k, Find(s, k).value), Without(s, k));
    }
  }

  lemma {:induction false} WithoutFront<K, D>(e: Entry<K, D>, s: seq<Entry<K, D>>)
    ensures Without([e] + s, e.key) == Without(s, e.key)
  {
    if s == [] {
      assert [e] + s == [e] && [e][..0] == [];
    } else {
      var t := [e] + s;
      assert t[..|t| - 1] == [e] + s[..|s| - 1];
      WithoutFront(e, s[..|s| - 1]);
    }
  }
}
