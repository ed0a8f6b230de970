/** Python's insertion-ordered `dict`, restricted to what the strategy needs:
    an iteration order over the keys and the key-to-value map itself. */
module Dicts {
  import opened Seqs

  /** A dict: `keys` is the iteration order, `vals` the mapping; every key occurs once. */
  datatype Dict<K(==,!new), V> = Dict(keys: seq<K>, vals: map<K, V>) {
    ghost predicate Valid() {
      NoDup(keys) && forall k :: k in vals <==> k in keys
    }
  }

  /** `{**a, **b}`: the keys of `a` in their order, then the keys of `b` that `a` lacks,
      in theirs; where both have a key, the value from `b` wins. */
  function Merge<K(==,!new), V>(a: Dict<K, V>, b: Dict<K, V>): (r: Dict<K, V>)
    requires a.Valid() && b.Valid()
    ensures r.Valid()
    ensures forall k :: k in r.vals <==> k in a.vals || k in b.vals
    ensures forall k :: k in b.vals ==> r.vals[k] == b.vals[k]
    ensures forall k :: k in a.vals && k !in b.vals ==> r.vals[k] == a.vals[k]
    ensures |a.keys| <= |r.keys| && r.keys[..|a.keys|] == a.keys
    ensures r.keys == a.keys + Filter(b.keys, k => k !in a.vals)
  {
    var extra := Filter(b.keys, k => k !in a.vals);
    NoDupConcat(a.keys, extra);
    Dict(a.keys + extra, a.vals + b.vals)
  }

  /** `dict.fromkeys(d, v)`: the keys of `d`, in the same order, each with value `v`. */
  function FromKeys<K(==,!new), U, V>(d: Dict<K, U>, v: V): (r: Dict<K, V>)
    requires d.Valid()
    ensures r.Valid() && r.keys == d.keys
    ensures forall k :: k in r.vals ==> r.vals[k] == v
  {
    Dict(d.keys, map k | k in d.vals :: v)
  }

  /** `d[k] = v` for a key already present: the order is untouched. */
  function Put<K(==,!new), V>(d: Dict<K, V>, k: K, v: V): (r: Dict<K, V>)
    requires d.Valid() && k in d.vals
    ensures r.Valid() && r.keys == d.keys
    ensures r.vals.Keys == d.vals.Keys && r.vals[k] == v
    ensures forall j :: j in d.vals && j != k ==> r.vals[j] == d.vals[j]
  {
    Dict(d.keys, d.vals[k := v])
  }
}
