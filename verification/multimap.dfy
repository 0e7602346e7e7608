/** The part of `std::multimap<int, V>` the device selection relies on: an
    insertion that keeps the entries ordered by key and puts a new entry
    after every entry with an equal key (the position `upper_bound` names),
    and `rbegin()`, the entry with the greatest key that was inserted last. */
module Multimap {

  datatype Entry<V> = Entry(key: int, value: V)

  /** Entries in ascending key order — the iteration order of a multimap. */
  ghost predicate SortedByKey<V>(m: seq<Entry<V>>) {
    forall i, j :: 0 <= i < j < |m| ==> m[i].key <= m[j].key
  }

  /** `upper_bound(key)` as a position: the first entry whose key is greater
      than `key`, or the end. */
  function UpperBound<V>(m: seq<Entry<V>>, key: int): (p: nat)
    ensures p <= |m|
    ensures forall i :: 0 <= i < p ==> m[i].key <= key
    ensures p < |m| ==> key < m[p].key
  {
    if |m| == 0 || key < m[0].key then 0 else 1 + UpperBound(m[1..], key)
  }

  /** `m.insert(e)` on a multimap whose entries, in iteration order, are `m`. */
  function Insert<V>(m: seq<Entry<V>>, e: Entry<V>): (r: seq<Entry<V>>)
    ensures |r| == |m| + 1
    ensures multiset(r) == multiset(m) + multiset{e}
  {
    var p := UpperBound(m, e.key);
    assert m == m[..p] + m[p..];
    m[..p] + [e] + m[p..]
  }

  /** In a key-ordered multimap the inserted entry follows every entry whose
      key is not greater than its own and precedes every entry whose key is. */
  lemma InsertAfterEqualKeys<V>(m: seq<Entry<V>>, e: Entry<V>)
    requires SortedByKey(m)
    ensures var p := UpperBound(m, e.key);
      && Insert(m, e) == m[..p] + [e] + m[p..]
      && (forall i :: 0 <= i < p ==> m[i].key <= e.key)
      && (forall i :: p <= i < |m| ==> e.key < m[i].key)
  {
    var p := UpperBound(m, e.key);
    forall i | p <= i < |m| ensures e.key < m[i].key {
      assert m[p].key <= m[i].key;
    }
  }

  /** Insertion keeps a multimap's entries in key order. */
  lemma InsertKeepsOrder<V>(m: seq<Entry<V>>, e: Entry<V>)
    requires SortedByKey(m)
    ensures SortedByKey(Insert(m, e))
  {
    var p := UpperBound(m, e.key);
    var r := Insert(m, e);
    InsertAfterEqualKeys(m, e);
    assert forall k :: 0 <= k < p ==> r[k] == m[k];
    assert r[p] == e;
    assert forall k :: p < k < |r| ==> r[k] == m[k - 1];
    forall i, j | 0 <= i < j < |r|
      ensures r[i].key <= r[j].key
    {
      if j < p {
        assert r[i].key == m[i].key;
      } else if j == p {
        assert r[i].key == m[i].key;
      } else if i < p {
        assert r[j].key == m[j - 1].key;
      } else if i == p {
        assert r[j].key == m[j - 1].key;
      } else {
        assert r[i].key == m[i - 1].key;
      }
    }
  }

  /** `*m.rbegin()`: the last entry in iteration order, which in a
      key-ordered multimap has the greatest key. */
  function RBegin<V>(m: seq<Entry<V>>): (r: Entry<V>)
    requires |m| > 0
    ensures r in m && m[..|m| - 1] + [r] == m
    ensures SortedByKey(m) ==> forall i :: 0 <= i < |m| ==> m[i].key <= r.key
  {
    m[|m| - 1]
  }
}
