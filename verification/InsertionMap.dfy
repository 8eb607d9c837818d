/** A map that lists its entries in the order their keys were first set. */
module InsertionMap {
  import opened Text

  datatype Entry<K, V> = Entry(key: K, value: V)

  function Get<K(==), V>(m: seq<Entry<K, V>>, key: K): Option<V> {
    if m == [] then None
    else if m[0].key == key then Some(m[0].value)
    else Get(m[1..], key)
  }

  /** Setting a key again keeps its place. */
  function Set<K(==), V>(m: seq<Entry<K, V>>, key: K, value: V): seq<Entry<K, V>> {
    if m == [] then [Entry(key, value)]
    else if m[0].key == key then [Entry(key, value)] + m[1..]
    else [m[0]] + Set(m[1..], key, value)
  }

  function Remove<K(==), V>(m: seq<Entry<K, V>>, key: K): seq<Entry<K, V>> {
    if m == [] then []
    else if m[0].key == key then Remove(m[1..], key)
    else [m[0]] + Remove(m[1..], key)
  }

  predicate HasKey<K(==), V>(m: seq<Entry<K, V>>, key: K) {
    m != [] && (m[0].key == key || HasKey(m[1..], key))
  }

  predicate DistinctKeys<K(==), V>(m: seq<Entry<K, V>>) {
    m == [] || (!HasKey(m[1..], m[0].key) && DistinctKeys(m[1..]))
  }

  lemma {:induction false} HasKeyAt<K, V>(m: seq<Entry<K, V>>, i: nat)
    requires i < |m|
    ensures HasKey(m, m[i].key)
  {
    if i > 0 { HasKeyAt(m[1..], i - 1); }
  }

  lemma {:induction false} DistinctKeysDiffer<K, V>(m: seq<Entry<K, V>>, i: nat, j: nat)
    requires DistinctKeys(m) && i < j < |m|
    ensures m[i].key != m[j].key
  {
    if i > 0 { DistinctKeysDiffer(m[1..], i - 1, j - 1); } else { HasKeyAt(m[1..], j - 1); }
  }

  lemma {:induction false} SetHasKey<K, V>(m: seq<Entry<K, V>>, key: K, value: V, other: K)
    ensures HasKey(Set(m, key, value), other) <==> other == key || HasKey(m, other)
  {
    if m != [] && m[0].key != key { SetHasKey(m[1..], key, value, other); }
  }

  lemma {:induction false} SetProperties<K, V>(m: seq<Entry<K, V>>, key: K, value: V)
    requires DistinctKeys(m)
    ensures var out := Set(m, key, value);
            && DistinctKeys(out)
            && |out| == if HasKey(m, key) then |m| else |m| + 1
  {
    if m != [] && m[0].key != key {
      SetProperties(m[1..], key, value);
      SetHasKey(m[1..], key, value, m[0].key);
    }
  }

  lemma {:induction false} RemoveHasKey<K, V>(m: seq<Entry<K, V>>, key: K, other: K)
    ensures HasKey(Remove(m, key), other) <==> other != key && HasKey(m, other)
  {
    if m != [] { RemoveHasKey(m[1..], key, other); }
  }

  lemma {:induction false} RemoveProperties<K, V>(m: seq<Entry<K, V>>, key: K)
    requires DistinctKeys(m)
    ensures var left := Remove(m, key);
            && DistinctKeys(left) && |left| <= |m|
            && (HasKey(m, key) ==> |left| < |m|)
  {
    if m != [] {
      RemoveProperties(m[1..], key);
      RemoveHasKey(m[1..], key, m[0].key);
    }
  }

  lemma {:induction false} GetSet<K, V>(m: seq<Entry<K, V>>, key: K, value: V, other: K)
    ensures Get(Set(m, key, value), other) == if other == key then Some(value) else Get(m, other)
  {
    if m != [] && m[0].key != key { GetSet(m[1..], key, value, other); }
  }
}
