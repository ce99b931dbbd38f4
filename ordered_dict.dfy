/** A Python `dict` with string keys, as the copier uses it for its manifest:
    a list of key-value pairs in insertion order. Assigning to a key that is
    already present replaces its value in place; a new key goes at the end.
    `json.dump` writes the keys in this order. */
module OrderedDict {
  import opened VkTypes

  type Dict<V> = seq<(string, V)>

  function Keys<V>(d: Dict<V>): (ks: seq<string>)
    ensures |ks| == |d|
    ensures forall i :: 0 <= i < |d| ==> ks[i] == d[i].0
  {
    if d == [] then [] else [d[0].0] + Keys(d[1..])
  }

  predicate Distinct(ks: seq<string>) {
    forall i, j :: 0 <= i < j < |ks| ==> ks[i] != ks[j]
  }

  /** `d.get(k)`. */
  function Get<V>(d: Dict<V>, k: string): Option<V> {
    if d == [] then None else if d[0].0 == k then Some(d[0].1) else Get(d[1..], k)
  }

  /** A key has a value exactly when it is one of the keys. */
  lemma {:induction false} GetSome<V>(d: Dict<V>, k: string)
    ensures Get(d, k).Some? <==> k in Keys(d)
  {
    if d != [] {
      GetSome(d[1..], k);
    }
  }

  /** `d[k] = v`: afterwards `k` maps to `v` and no other key changes; the
      keys keep their order, and a new key is appended. */
  function Set<V>(d: Dict<V>, k: string, v: V): (r: Dict<V>)
    ensures |d| <= |r| <= |d| + 1
    ensures d != [] ==> r[0].0 == d[0].0
  {
    if d == [] then [(k, v)]
    else if d[0].0 == k then [(k, v)] + d[1..]
    else [d[0]] + Set(d[1..], k, v)
  }

  /** Assigning to a present key keeps the keys as they are; a new key is
      appended after them. */
  lemma {:induction false} SetKeys<V>(d: Dict<V>, k: string, v: V)
    ensures k in Keys(d) ==> Keys(Set(d, k, v)) == Keys(d)
    ensures k !in Keys(d) ==> Keys(Set(d, k, v)) == Keys(d) + [k]
  {
    if d != [] && d[0].0 != k {
      SetKeys(d[1..], k, v);
    }
  }

  /** After `d[k] = v`, the keys are the old ones and `k`. */
  lemma {:induction false} KeyInSet<V>(d: Dict<V>, k: string, v: V, t: string)
    ensures t in Keys(Set(d, k, v)) <==> t in Keys(d) || t == k
  {
    SetKeys(d, k, v);
  }

  /** After `d[k] = v`, `k` maps to `v` and every other key to what it
      mapped to before. */
  lemma {:induction false} SetGet<V>(d: Dict<V>, k: string, v: V, k': string)
    ensures Get(Set(d, k, v), k') == if k' == k then Some(v) else Get(d, k')
  {
    if d != [] && d[0].0 != k {
      SetGet(d[1..], k, v, k');
    }
  }

  /** Assignment never makes a key appear twice. */
  lemma {:induction false} SetDistinct<V>(d: Dict<V>, k: string, v: V)
    requires Distinct(Keys(d))
    ensures Distinct(Keys(Set(d, k, v)))
  {
    SetKeys(d, k, v);
  }
}
