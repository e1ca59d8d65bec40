/**
 * java.util.LinkedHashMap as a sequence of key/value entries in insertion order: `Put` replaces
 * the value of a present key in place and appends a new key at the end; `Get` is the value of
 * the key, if any.
 */
module LinkedMap {
  import opened Wrappers

  predicate DistinctKeys<K(==,!new), V(==,!new)>(m: seq<(K, V)>)
  {
    forall i, j :: 0 <= i < j < |m| ==> m[i].0 != m[j].0
  }

  function KeySet<K(==,!new), V(==,!new)>(m: seq<(K, V)>): set<K>
  {
    set e | e in m :: e.0
  }

  /** The position of the first entry for `k`. */
  function IndexOf<K(==,!new), V(==,!new)>(m: seq<(K, V)>, k: K): (i: int)
    ensures -1 <= i < |m|
    ensures i >= 0 ==> m[i].0 == k && forall j :: 0 <= j < i ==> m[j].0 != k
    ensures i < 0 <==> k !in KeySet(m)
  {
    if m == [] then -1
    else if m[0].0 == k then 0
    else
      var i := IndexOf(m[1..], k);
      assert forall e :: e in m ==> e == m[0] || e in m[1..];
      assert forall e :: e in m[1..] ==> e in m;
      if i < 0 then -1 else i + 1
  }

  function Get<K(==,!new), V(==,!new)>(m: seq<(K, V)>, k: K): (r: Option<V>)
    ensures r.Some? <==> k in KeySet(m)
    ensures r.Some? ==> (k, r.value) in m
  {
    var i := IndexOf(m, k);
    if i < 0 then None else Some(m[i].1)
  }

  /** Map.put: replaces the value of a present key in its place, appends a new key at the end. */
  function Put<K(==,!new), V(==,!new)>(m: seq<(K, V)>, k: K, v: V): (r: seq<(K, V)>)
    ensures KeySet(r) == KeySet(m) + {k}
    ensures k in KeySet(m) ==> |r| == |m| && forall i :: 0 <= i < |m| ==> r[i].0 == m[i].0
    ensures k !in KeySet(m) ==> r == m + [(k, v)]
    ensures forall e :: e in r ==> e in m || e == (k, v)
  {
    var i := IndexOf(m, k);
    if i < 0 then m + [(k, v)]
    else
      var r := m[i := (k, v)];
      assert forall e :: e in r ==> e in m || e == (k, v) by {
        forall e | e in r
          ensures e in m || e == (k, v)
        {
          var j :| 0 <= j < |r| && r[j] == e;
          if j != i { assert r[j] == m[j]; }
        }
      }
      assert forall e :: e in m ==> e.0 in KeySet(r) by {
        forall e | e in m
          ensures e.0 in KeySet(r)
        {
          var j :| 0 <= j < |m| && m[j] == e;
          assert r[j].0 == e.0 && r[j] in r;
        }
      }
      r
  }

  /** What the map holds after a put: the new value under `k`, and every other key untouched. */
  lemma GetAfterPut<K(!new), V(!new)>(m: seq<(K, V)>, k: K, v: V, k2: K)
    ensures Get(Put(m, k, v), k2) == if k2 == k then Some(v) else Get(m, k2)
  {
    var r := Put(m, k, v);
    var i := IndexOf(m, k);
    if i >= 0 {
      assert forall j :: 0 <= j < |r| ==> r[j] == if j == i then (k, v) else m[j];
      assert IndexOf(r, k2) == IndexOf(m, k2);
    } else {
      assert forall j :: 0 <= j < |m| ==> r[j] == m[j];
      if k2 != k {
        assert IndexOf(r, k2) == IndexOf(m, k2);
      } else {
        assert IndexOf(r, k2) == |m|;
      }
    }
  }

  lemma PutEntries<K(!new), V(!new)>(m: seq<(K, V)>, k: K, v: V)
    ensures forall e :: e in Put(m, k, v) ==> e in m || e == (k, v)
  {
  }

  lemma PutKeepsDistinct<K(!new), V(!new)>(m: seq<(K, V)>, k: K, v: V)
    requires DistinctKeys(m)
    ensures DistinctKeys(Put(m, k, v))
  {
    if k !in KeySet(m) {
      forall i | 0 <= i < |m|
        ensures m[i].0 != k
      {
        assert m[i] in m;
      }
    }
  }

  /** Map.putAll: the entries of `es`, put one by one in their order. */
  function PutAll<K(==,!new), V(==,!new)>(m: seq<(K, V)>, es: seq<(K, V)>): seq<(K, V)>
  {
    if es == [] then m
    else Put(PutAll(m, es[..|es| - 1]), es[|es| - 1].0, es[|es| - 1].1)
  }

  /** Every entry of `m` is the entry `source` holds for that key. */
  predicate AgreesWith<K(==,!new), V(==,!new)>(m: seq<(K, V)>, source: seq<(K, V)>)
  {
    forall e :: e in m ==> Get(source, e.0) == Some(e.1)
  }

  lemma AgreeingGet<K(!new), V(!new)>(m: seq<(K, V)>, source: seq<(K, V)>, k: K)
    requires AgreesWith(m, source) && k in KeySet(m)
    ensures Get(m, k) == Get(source, k)
  {
    assert (k, Get(m, k).value) in m;
  }

  lemma {:induction false} PutAllAgrees<K(!new), V(!new)>(m: seq<(K, V)>, es: seq<(K, V)>, source: seq<(K, V)>)
    requires AgreesWith(m, source) && AgreesWith(es, source)
    ensures AgreesWith(PutAll(m, es), source)
    ensures KeySet(PutAll(m, es)) == KeySet(m) + KeySet(es)
  {
    if es != [] {
      var prefix := es[..|es| - 1];
      var last := es[|es| - 1];
      assert es == prefix + [last];
      assert forall e :: e in es <==> e in prefix || e == last;
      PutAllAgrees(m, prefix, source);
      assert last in es;
      PutEntries(PutAll(m, prefix), last.0, last.1);
    }
  }

  lemma KeySetSnoc<K(!new), V(!new)>(m: seq<(K, V)>, e: (K, V))
    ensures KeySet(m + [e]) == KeySet(m) + {e.0}
  {
    assert forall x :: x in m + [e] <==> x in m || x == e;
  }

  /** In a map with distinct keys, no entry's key occurs among the entries before it. */
  lemma PrefixLacksKey<K(!new), V(!new)>(m: seq<(K, V)>, i: int)
    requires DistinctKeys(m) && 0 <= i < |m|
    ensures m[i].0 !in KeySet(m[..i])
  {
    forall e | e in m[..i]
      ensures e.0 != m[i].0
    {
      var j :| 0 <= j < i && m[..i][j] == e;
      assert m[j] == e;
    }
  }

  lemma {:induction false} PutAllKeepsDistinct<K(!new), V(!new)>(m: seq<(K, V)>, es: seq<(K, V)>)
    requires DistinctKeys(m)
    ensures DistinctKeys(PutAll(m, es))
  {
    if es != [] {
      PutAllKeepsDistinct(m, es[..|es| - 1]);
      PutKeepsDistinct(PutAll(m, es[..|es| - 1]), es[|es| - 1].0, es[|es| - 1].1);
    }
  }

  /** In a map with distinct keys, each entry is the value `Get` finds for its key. */
  lemma DistinctAgreesWithItself<K(!new), V(!new)>(m: seq<(K, V)>)
    requires DistinctKeys(m)
    ensures AgreesWith(m, m)
  {
    forall e | e in m
      ensures Get(m, e.0) == Some(e.1)
    {
      var j :| 0 <= j < |m| && m[j] == e;
      assert IndexOf(m, e.0) == j;
    }
  }

  /** In a map with distinct keys, the entry at `i` is what `Get` finds, and a put there replaces it in place. */
  lemma PutAt<K(!new), V(!new)>(m: seq<(K, V)>, i: int, v: V)
    requires DistinctKeys(m) && 0 <= i < |m|
    ensures Get(m, m[i].0) == Some(m[i].1)
    ensures Put(m, m[i].0, v) == m[i := (m[i].0, v)]
  {
    assert IndexOf(m, m[i].0) == i;
  }
}
