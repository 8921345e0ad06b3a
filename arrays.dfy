/** PHP arrays used as dictionaries: insertion-ordered, one entry per key,
    and `$a[$k] = $v` overwrites an existing key in place rather than
    moving it to the end. */
module PhpArrays {
  import opened Php

  datatype Entry<K, V> = Entry(key: K, value: V)

  type OrderedMap<K, V> = seq<Entry<K, V>>

  function Keys<K, V>(m: OrderedMap<K, V>): (ks: seq<K>)
    ensures |ks| == |m|
    ensures forall i :: 0 <= i < |m| ==> ks[i] == m[i].key
  {
    if m == [] then [] else [m[0].key] + Keys(m[1..])
  }

  function Values<K, V>(m: OrderedMap<K, V>): (vs: seq<V>)
    ensures |vs| == |m|
    ensures forall i :: 0 <= i < |m| ==> vs[i] == m[i].value
  {
    if m == [] then [] else [m[0].value] + Values(m[1..])
  }

  predicate UniqueKeys<K(==), V>(m: OrderedMap<K, V>) {
    forall i, j :: 0 <= i < j < |m| ==> m[i].key != m[j].key
  }

  /** `$m[$k] ?? null` */
  function Get<K(==), V>(m: OrderedMap<K, V>, k: K): (r: Option<V>)
    ensures r.Some? <==> k in Keys(m)
  {
    if m == [] then None
    else if m[0].key == k then Some(m[0].value)
    else Get(m[1..], k)
  }

  /** `$m[$k] = $v` */
  function Put<K(==), V>(m: OrderedMap<K, V>, k: K, v: V): (r: OrderedMap<K, V>)
    ensures Keys(r) == if k in Keys(m) then Keys(m) else Keys(m) + [k]
  {
    if m == [] then [Entry(k, v)]
    else if m[0].key == k then [Entry(k, v)] + m[1..]
    else [m[0]] + Put(m[1..], k, v)
  }

  /** After `$m[$k] = $v`, k holds v and every other key is unchanged. */
  lemma {:induction false} PutGet<K, V>(m: OrderedMap<K, V>, k: K, v: V, j: K)
    ensures Get(Put(m, k, v), j) == if j == k then Some(v) else Get(m, j)
  {
    if m != [] && m[0].key != k {
      PutGet(m[1..], k, v, j);
      assert Put(m, k, v)[1..] == Put(m[1..], k, v);
    }
  }

  /** Assignment keeps the keys distinct. */
  lemma PutUnique<K, V>(m: OrderedMap<K, V>, k: K, v: V)
    requires UniqueKeys(m)
    ensures UniqueKeys(Put(m, k, v))
  {
    var r := Put(m, k, v);
    forall i, j | 0 <= i < j < |r| ensures r[i].key != r[j].key {
      assert Keys(r)[i] == r[i].key && Keys(r)[j] == r[j].key;
    }
  }

  /** Assigning the pairs one after the other to an empty array. */
  function FromPairs<K(==), V>(ps: seq<Entry<K, V>>): (r: OrderedMap<K, V>)
    ensures UniqueKeys(r)
  {
    if ps == [] then []
    else
      var m := FromPairs(ps[..|ps| - 1]);
      PutUnique(m, ps[|ps| - 1].key, ps[|ps| - 1].value);
      Put(m, ps[|ps| - 1].key, ps[|ps| - 1].value)
  }

  /** The keys of a sequence in order of first occurrence, without repeats. */
  function Dedup<K(==)>(ks: seq<K>): seq<K> {
    if ks == [] then []
    else if ks[|ks| - 1] in ks[..|ks| - 1] then Dedup(ks[..|ks| - 1])
    else Dedup(ks[..|ks| - 1]) + [ks[|ks| - 1]]
  }

  /** The value of the last pair with key k. */
  function LastValue<K(==), V>(ps: seq<Entry<K, V>>, k: K): Option<V> {
    if ps == [] then None
    else if ps[|ps| - 1].key == k then Some(ps[|ps| - 1].value)
    else LastValue(ps[..|ps| - 1], k)
  }

  lemma {:induction false} DedupSameElements<K>(ks: seq<K>)
    ensures forall k :: k in Dedup(ks) <==> k in ks
  {
    if ks != [] {
      DedupSameElements(ks[..|ks| - 1]);
      assert ks == ks[..|ks| - 1] + [ks[|ks| - 1]];
    }
  }

  /** Building an array from pairs keeps the keys in order of first
      occurrence. */
  lemma {:induction false} FromPairsOrder<K, V>(ps: seq<Entry<K, V>>)
    ensures Keys(FromPairs(ps)) == Dedup(Keys(ps))
  {
    if ps != [] {
      var init := ps[..|ps| - 1];
      FromPairsOrder(init);
      assert Keys(ps)[..|ps| - 1] == Keys(init);
      DedupSameElements(Keys(init));
    }
  }

  /** Each key holds the value of its last pair. */
  lemma {:induction false} FromPairsGet<K, V>(ps: seq<Entry<K, V>>, k: K)
    ensures Get(FromPairs(ps), k) == LastValue(ps, k)
  {
    if ps != [] {
      var init := ps[..|ps| - 1];
      FromPairsGet(init, k);
      PutGet(FromPairs(init), ps[|ps| - 1].key, ps[|ps| - 1].value, k);
    }
  }
}
