/**
 * A Python dictionary as the analysis uses it (string keys): a finite map whose keys remember
 * the order in which they were first inserted.  Assigning to an existing key
 * replaces its value and keeps its position; keys are never removed.
 */
module OrderedDict {

  /** No element occurs twice. */
  predicate Distinct<K(==)>(s: seq<K>) {
    forall i, j :: 0 <= i < j < |s| ==> s[i] != s[j]
  }

  /** `sub` is `s` with some elements left out, the rest in their order. */
  predicate Subsequence<K(==)>(sub: seq<K>, s: seq<K>)
    decreases |s|
  {
    if sub == [] then true
    else if s == [] then false
    else if sub[0] == s[0] then Subsequence(sub[1..], s[1..])
    else Subsequence(sub, s[1..])
  }

  datatype Dict<V> = Dict(keys: seq<string>, entries: map<string, V>)

  /** The insertion-order list holds each key of the map exactly once. */
  ghost predicate Valid<V>(d: Dict<V>) {
    && Distinct(d.keys)
    && (forall k :: k in d.entries <==> k in d.keys)
  }

  function Empty<V>(): (d: Dict<V>)
    ensures Valid(d) && d.entries == map[]
  {
    Dict([], map[])
  }

  /** `d[k] = v`: the new value replaces any old one; a new key goes last. */
  function Put<V>(d: Dict<V>, k: string, v: V): (r: Dict<V>)
    requires Valid(d)
    ensures Valid(r)
    ensures k in r.entries && r.entries[k] == v
    ensures forall j :: j != k ==> (j in r.entries <==> j in d.entries)
    ensures forall j :: j != k && j in d.entries ==> r.entries[j] == d.entries[j]
    ensures d.keys <= r.keys
    ensures |r.keys| == |d.keys| + (if k in d.entries then 0 else 1)
  {
    if k in d.entries then Dict(d.keys, d.entries[k := v])
    else Dict(d.keys + [k], d.entries[k := v])
  }

  /**
   * The keys, in insertion order, whose value satisfies `p`
   * (the comprehension `[k for k in d if p(d[k])]`).
   */
  function KeysWhere<V>(keys: seq<string>, entries: map<string, V>, p: V -> bool): (r: seq<string>)
    requires forall k :: k in keys ==> k in entries
    ensures forall k :: k in r <==> k in keys && p(entries[k])
    ensures Subsequence(r, keys)
    ensures Distinct(keys) ==> Distinct(r)
  {
    if keys == [] then []
    else
      var rest := KeysWhere(keys[1..], entries, p);
      assert forall k :: k in keys <==> k == keys[0] || k in keys[1..];
      if p(entries[keys[0]]) then [keys[0]] + rest else rest
  }
}
