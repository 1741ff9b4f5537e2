/**
 * Python dictionaries whose iteration order matters to the core: a
 * sequence of key/value pairs with distinct keys, kept in insertion order.
 * Assigning to an existing key replaces its value in place and keeps its
 * position, as `d[k] = v` does in Python.
 */
module Dicts {
  import opened Common

  type Dict<K, V> = seq<(K, V)>

  predicate DistinctKeys<K(==), V>(d: Dict<K, V>)
  {
    forall i, j :: 0 <= i < j < |d| ==> d[i].0 != d[j].0
  }

  /** The keys of `d`. */
  function Keys<K, V>(d: Dict<K, V>): (r: set<K>)
    ensures forall i :: 0 <= i < |d| ==> d[i].0 in r
  {
    if d == [] then {} else {d[0].0} + Keys(d[1..])
  }

  /** `d.get(k)` */
  function Get<K(==), V>(d: Dict<K, V>, k: K): (r: Option<V>)
    ensures r.Some? <==> k in Keys(d)
  {
    if d == [] then None
    else if d[0].0 == k then Some(d[0].1)
    else Get(d[1..], k)
  }

  /** `d[k] = v`: an existing key keeps its position and gets the new value; a new key goes last. */
  function Put<K(==), V>(d: Dict<K, V>, k: K, v: V): (r: Dict<K, V>)
    requires DistinctKeys(d)
    ensures DistinctKeys(r)
    ensures k in Keys(d) ==> |r| == |d|
    ensures k !in Keys(d) ==> r == d + [(k, v)]
    ensures forall i :: 0 <= i < |d| ==> r[i] == if d[i].0 == k then (k, v) else d[i]
  {
    if d == [] then [(k, v)]
    else if d[0].0 == k then
      assert forall i :: 1 <= i < |d| ==> d[i].0 != k;
      [(k, v)] + d[1..]
    else
      var rest := Put(d[1..], k, v);
      assert k in Keys(d) <==> k in Keys(d[1..]);
      [d[0]] + rest
  }

  /** Reading back after `d[k] = v`: the new value at `k`, the old one everywhere else. */
  lemma {:induction false} GetAfterPut<K, V>(d: Dict<K, V>, k: K, v: V, k': K)
    requires DistinctKeys(d)
    ensures Get(Put(d, k, v), k') == if k' == k then Some(v) else Get(d, k')
  {
    if d != [] && d[0].0 != k && d[0].0 != k' {
      GetAfterPut(d[1..], k, v, k');
    }
  }

  /** After `d[k] = v` the keys are the old keys and `k`. */
  lemma {:induction false} PutKeys<K, V>(d: Dict<K, V>, k: K, v: V)
    requires DistinctKeys(d)
    ensures Keys(Put(d, k, v)) == Keys(d) + {k}
  {
    if d == [] {
      assert Put(d, k, v) == [(k, v)];
    } else if d[0].0 == k {
      var r := Put(d, k, v);
      assert r == [(k, v)] + d[1..];
      assert r[1..] == d[1..];
    } else {
      var r := Put(d, k, v);
      PutKeys(d[1..], k, v);
      assert r == [d[0]] + Put(d[1..], k, v);
      assert r[1..] == Put(d[1..], k, v);
    }
  }

  /** Pair `i` carries key `k` and a value. */
  predicate PresentAt<K(==), V>(pairs: seq<(K, Option<V>)>, i: int, k: K)
  {
    0 <= i < |pairs| && pairs[i].0 == k && pairs[i].1.Some?
  }

  /** `for k, v in pairs: if v: d[k] = v` over the first `n` pairs, from an empty dictionary. */
  function PutPresent<K(==), V>(pairs: seq<(K, Option<V>)>, n: nat): (r: Dict<K, V>)
    requires n <= |pairs|
    ensures DistinctKeys(r)
  {
    if n == 0 then []
    else
      var prev := PutPresent(pairs, n - 1);
      match pairs[n - 1].1
      case None => prev
      case Some(v) => Put(prev, pairs[n - 1].0, v)
  }

  /** One more pair: its value, if any, is assigned to its key. */
  lemma PutPresentStep<K, V>(pairs: seq<(K, Option<V>)>, n: nat)
    requires n < |pairs|
    ensures pairs[n].1.None? ==> PutPresent(pairs, n + 1) == PutPresent(pairs, n)
    ensures pairs[n].1.Some? ==> PutPresent(pairs, n + 1) == Put(PutPresent(pairs, n), pairs[n].0, pairs[n].1.value)
  {
  }

  /** The last of the first `n` pairs that carries key `k` and a value. */
  function LastPresent<K(==), V>(pairs: seq<(K, Option<V>)>, k: K, n: nat): (m: Option<int>)
    requires n <= |pairs|
    ensures m.None? <==> forall i :: 0 <= i < n ==> !PresentAt(pairs, i, k)
    ensures m.Some? ==> m.value < n && PresentAt(pairs, m.value, k)
    ensures m.Some? ==> forall j :: m.value < j < n ==> !PresentAt(pairs, j, k)
  {
    if n == 0 then None
    else if PresentAt(pairs, n - 1, k) then Some(n - 1)
    else LastPresent(pairs, k, n - 1)
  }

  /** One assignment step: key `k` changes only when the new pair assigns it. */
  lemma GetPutPresentStep<K, V>(pairs: seq<(K, Option<V>)>, k: K, n: nat)
    requires 0 < n <= |pairs|
    ensures Get(PutPresent(pairs, n), k) == if PresentAt(pairs, n - 1, k) then pairs[n - 1].1 else Get(PutPresent(pairs, n - 1), k)
  {
    if pairs[n - 1].1.Some? {
      GetAfterPut(PutPresent(pairs, n - 1), pairs[n - 1].0, pairs[n - 1].1.value, k);
    }
  }

  /** After the assignments, key `k` holds the value of the last pair that assigned it, and is absent if none did. */
  lemma {:induction false} GetPutPresent<K, V>(pairs: seq<(K, Option<V>)>, k: K, n: nat)
    requires n <= |pairs|
    ensures Get(PutPresent(pairs, n), k) == match LastPresent(pairs, k, n) case None => None case Some(i) => pairs[i].1
  {
    if n == 0 {
      assert PutPresent(pairs, n) == [];
    } else {
      GetPutPresent(pairs, k, n - 1);
      GetPutPresentStep(pairs, k, n);
      if PresentAt(pairs, n - 1, k) {
        assert LastPresent(pairs, k, n) == Some(n - 1);
      } else {
        assert LastPresent(pairs, k, n) == LastPresent(pairs, k, n - 1);
      }
    }
  }
}
