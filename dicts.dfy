/** Python's insertion-ordered `dict` with string keys, as an association list: assigning to
    a key that is present replaces its value in place, assigning to a new key appends it. */
module Dicts {
  import opened Wrappers

  type Dict<V> = seq<(string, V)>

  function Lookup<V>(d: Dict<V>, k: string): Option<V> {
    if d == [] then None
    else if d[0].0 == k then Some(d[0].1)
    else Lookup(d[1..], k)
  }

  /** `k in d` is exactly "some entry has key `k`". */
  lemma {:induction false} LookupMissing<V>(d: Dict<V>, k: string)
    ensures Lookup(d, k).None? <==> forall i :: 0 <= i < |d| ==> d[i].0 != k
    decreases |d|
  {
    if d != [] && d[0].0 != k {
      LookupMissing(d[1..], k);
      assert forall i :: 1 <= i < |d| ==> d[i] == d[1..][i - 1];
    }
  }

  /** `d[k] = v`. */
  function Set<V>(d: Dict<V>, k: string, v: V): Dict<V> {
    if d == [] then [(k, v)]
    else if d[0].0 == k then [(k, v)] + d[1..]
    else [d[0]] + Set(d[1..], k, v)
  }

  /** After `d[k] = v`, `k` reads `v`, every other key reads what it read before, the length
      grows by one exactly when `k` was new, and the keys already present keep their places. */
  lemma {:induction false} SetReads<V>(d: Dict<V>, k: string, v: V)
    ensures Lookup(Set(d, k, v), k) == Some(v)
    ensures forall k' :: k' != k ==> Lookup(Set(d, k, v), k') == Lookup(d, k')
    ensures |Set(d, k, v)| == if Lookup(d, k).Some? then |d| else |d| + 1
    ensures forall i :: 0 <= i < |d| ==> Set(d, k, v)[i].0 == d[i].0
    decreases |d|
  {
    if d != [] && d[0].0 != k {
      SetReads(d[1..], k, v);
      var r := Set(d, k, v);
      assert r[1..] == Set(d[1..], k, v);
      forall k' | k' != k
        ensures Lookup(r, k') == Lookup(d, k')
      {
      }
      forall i | 0 <= i < |d|
        ensures r[i].0 == d[i].0
      {
        if i > 0 {
          assert r[i] == r[1..][i - 1];
        }
      }
    } else if d != [] {
      var r := Set(d, k, v);
      forall k' | k' != k
        ensures Lookup(r, k') == Lookup(d, k')
      {
        assert r[1..] == d[1..];
      }
    }
  }

  /** `d.update(pairs)` for a dict literal `pairs`, in the literal's order. */
  function Update<V>(d: Dict<V>, pairs: seq<(string, V)>): Dict<V>
    decreases |pairs|
  {
    if pairs == [] then d else Update(Set(d, pairs[0].0, pairs[0].1), pairs[1..])
  }

  /** A key the update does not mention keeps its value. */
  lemma {:induction false} UpdateUntouched<V>(d: Dict<V>, pairs: seq<(string, V)>, k: string)
    requires forall j :: 0 <= j < |pairs| ==> pairs[j].0 != k
    ensures Lookup(Update(d, pairs), k) == Lookup(d, k)
    decreases |pairs|
  {
    if pairs != [] {
      SetReads(d, pairs[0].0, pairs[0].1);
      UpdateUntouched(Set(d, pairs[0].0, pairs[0].1), pairs[1..], k);
    }
  }

  /** A key the update mentions gets the value of its last mention. */
  lemma {:induction false} UpdateLastWins<V>(d: Dict<V>, pairs: seq<(string, V)>, j: nat)
    requires j < |pairs|
    requires forall j' :: j < j' < |pairs| ==> pairs[j'].0 != pairs[j].0
    ensures Lookup(Update(d, pairs), pairs[j].0) == Some(pairs[j].1)
    decreases |pairs|
  {
    var d' := Set(d, pairs[0].0, pairs[0].1);
    SetReads(d, pairs[0].0, pairs[0].1);
    if j == 0 {
      UpdateUntouched(d', pairs[1..], pairs[0].0);
    } else {
      UpdateLastWins(d', pairs[1..], j - 1);
    }
  }

  /** The keys already present keep their positions. */
  lemma {:induction false} UpdateKeepsPositions<V>(d: Dict<V>, pairs: seq<(string, V)>)
    ensures |d| <= |Update(d, pairs)|
    ensures forall i :: 0 <= i < |d| ==> Update(d, pairs)[i].0 == d[i].0
    decreases |pairs|
  {
    if pairs != [] {
      SetReads(d, pairs[0].0, pairs[0].1);
      UpdateKeepsPositions(Set(d, pairs[0].0, pairs[0].1), pairs[1..]);
    }
  }

  /** No key occurs twice. */
  predicate DistinctKeys<V>(pairs: seq<(string, V)>) {
    forall i, j :: 0 <= i < j < |pairs| ==> pairs[i].0 != pairs[j].0
  }

  /** Updating with distinct keys: each key of the update reads back its value, and every other
      key reads back what it read before. */
  lemma UpdateDistinct<V>(d: Dict<V>, pairs: seq<(string, V)>)
    requires DistinctKeys(pairs)
    ensures forall i :: 0 <= i < |pairs| ==> Lookup(Update(d, pairs), pairs[i].0) == Some(pairs[i].1)
    ensures forall k :: (forall i :: 0 <= i < |pairs| ==> pairs[i].0 != k) ==> Lookup(Update(d, pairs), k) == Lookup(d, k)
  {
    forall i | 0 <= i < |pairs|
      ensures Lookup(Update(d, pairs), pairs[i].0) == Some(pairs[i].1)
    {
      UpdateLastWins(d, pairs, i);
    }
    forall k | forall i :: 0 <= i < |pairs| ==> pairs[i].0 != k
      ensures Lookup(Update(d, pairs), k) == Lookup(d, k)
    {
      UpdateUntouched(d, pairs, k);
    }
  }
}
