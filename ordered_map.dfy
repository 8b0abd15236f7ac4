/**
 * A JavaScript `Map<string, V>` as the dashboard uses it: a list of entries
 * with distinct keys, kept in insertion order. `set` on a present key
 * replaces its value where it stands; on a new key it appends an entry.
 * `Array.from(map.entries())` is the entry list itself.
 */
module OrderedMap {
  import opened Records

  type Entries<V> = seq<(string, V)>

  predicate UniqueKeys<V>(m: Entries<V>) {
    forall i, j :: 0 <= i < j < |m| ==> m[i].0 != m[j].0
  }

  /** The keys in iteration (insertion) order. */
  function Keys<V>(m: Entries<V>): (ks: seq<string>)
    ensures |ks| == |m|
    ensures forall i :: 0 <= i < |m| ==> ks[i] == m[i].0
  {
    if m == [] then [] else [m[0].0] + Keys(m[1..])
  }

  /** `map.get(k)`: the value stored under `k`, `None` for `undefined`. */
  function Get<V>(m: Entries<V>, k: string): Option<V> {
    if m == [] then None
    else if m[0].0 == k then Some(m[0].1)
    else Get(m[1..], k)
  }

  /** `get` finds exactly the keys of the map. */
  lemma {:induction false} GetFindsKeys<V>(m: Entries<V>, k: string)
    ensures Get(m, k).Some? <==> k in Keys(m)
  {
    if m != [] && m[0].0 != k {
      GetFindsKeys(m[1..], k);
    }
  }

  /** `map.set(k, v)`. */
  function Put<V>(m: Entries<V>, k: string, v: V): Entries<V>
  {
    if m == [] then [(k, v)]
    else if m[0].0 == k then [(k, v)] + m[1..]
    else [m[0]] + Put(m[1..], k, v)
  }

  /** `set` keeps the iteration order: a present key stays where it is, a new key goes last. */
  lemma {:induction false} PutKeys<V>(m: Entries<V>, k: string, v: V)
    ensures Keys(Put(m, k, v)) == if k in Keys(m) then Keys(m) else Keys(m) + [k]
  {
    if m != [] && m[0].0 != k {
      PutKeys(m[1..], k, v);
    }
  }

  /** After `set(k, v)`, `get(k)` gives `v` and every other key keeps its value. */
  lemma {:induction false} PutGet<V>(m: Entries<V>, k: string, v: V, k': string)
    ensures Get(Put(m, k, v), k') == if k' == k then Some(v) else Get(m, k')
  {
    if m != [] && m[0].0 != k {
      PutGet(m[1..], k, v, k');
    }
  }

  /** `set` keeps the keys distinct. */
  lemma {:induction false} PutUnique<V>(m: Entries<V>, k: string, v: V)
    requires UniqueKeys(m)
    ensures UniqueKeys(Put(m, k, v))
  {
    var r := Put(m, k, v);
    PutKeys(m, k, v);
    assert Keys(r) == if k in Keys(m) then Keys(m) else Keys(m) + [k];
    forall i, j | 0 <= i < j < |r|
      ensures r[i].0 != r[j].0
    {
      assert Keys(r)[i] == r[i].0 && Keys(r)[j] == r[j].0;
    }
  }

  /** `map.set(k, (map.get(k) || 0) + x)`: add `x` to the total kept under `k`. */
  function AddTo(m: Entries<int>, k: string, x: int): Entries<int> {
    Put(m, k, Get(m, k).GetOr(0) + x)
  }

  /** The sum of all values. */
  function SumValues(m: Entries<int>): int {
    if m == [] then 0 else m[0].1 + SumValues(m[1..])
  }

  /** Adding `x` under any key raises the sum of all values by exactly `x`. */
  lemma {:induction false} AddToSum(m: Entries<int>, k: string, x: int)
    ensures SumValues(AddTo(m, k, x)) == SumValues(m) + x
  {
    if m != [] && m[0].0 != k {
      AddToSum(m[1..], k, x);
      assert AddTo(m, k, x) == [m[0]] + AddTo(m[1..], k, x);
    }
  }

  /** With distinct keys, every entry is what `get` returns for its key. */
  lemma {:induction false} GetEntry<V>(m: Entries<V>, i: nat)
    requires UniqueKeys(m) && i < |m|
    ensures Get(m, m[i].0) == Some(m[i].1)
  {
    if i > 0 {
      GetEntry(m[1..], i - 1);
    }
  }
}
