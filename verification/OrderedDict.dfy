/**
 Insertion-ordered dictionaries, as the simulation uses them: overwriting keeps an entry's
 place, a new key goes to the end, deleting closes the gap.  Iterating one is a left-to-right
 walk, which is what makes sums over open positions plain recursions.
 */
module OrderedDict {

  datatype Option<T> = None | Some(value: T)

  datatype Entry<K, V> = Entry(key: K, value: V)

  type Dict<K, V> = seq<Entry<K, V>>

  function Keys<K(==), V>(d: Dict<K, V>): set<K> {
    if d == [] then {} else {d[0].key} + Keys(d[1..])
  }

  predicate Has<K(==), V>(d: Dict<K, V>, k: K) {
    k in Keys(d)
  }

  function Get<K(==), V>(d: Dict<K, V>, k: K): V
    requires Has(d, k)
  {
    if d[0].key == k then d[0].value else Get(d[1..], k)
  }

  predicate Unique<K(==), V>(d: Dict<K, V>) {
    d == [] || (d[0].key !in Keys(d[1..]) && Unique(d[1..]))
  }

  function Put<K(==), V>(d: Dict<K, V>, k: K, v: V): (r: Dict<K, V>)
    ensures Keys(r) == Keys(d) + {k}
    ensures Unique(d) ==> Unique(r)
  {
    if d == [] then [Entry(k, v)]
    else if d[0].key == k then [Entry(k, v)] + d[1..]
    else
      var rest := Put(d[1..], k, v);
      assert ([d[0]] + rest)[1..] == rest;
      [d[0]] + rest
  }

  function Remove<K(==), V>(d: Dict<K, V>, k: K): (r: Dict<K, V>)
    ensures Keys(r) == Keys(d) - {k}
    ensures Unique(d) ==> Unique(r)
  {
    if d == [] then []
    else if d[0].key == k then Remove(d[1..], k)
    else
      var rest := Remove(d[1..], k);
      assert ([d[0]] + rest)[1..] == rest;
      [d[0]] + rest
  }

  lemma {:induction false} GetPut<K, V>(d: Dict<K, V>, k: K, v: V, x: K)
    requires x == k || Has(d, x)
    ensures Get(Put(d, k, v), x) == if x == k then v else Get(d, x)
  {
    if d != [] && d[0].key != k && x != d[0].key {
      GetPut(d[1..], k, v, x);
      assert Put(d, k, v)[1..] == Put(d[1..], k, v);
    }
  }

  lemma {:induction false} GetRemove<K, V>(d: Dict<K, V>, k: K, x: K)
    requires x != k && Has(d, x)
    ensures Get(Remove(d, k), x) == Get(d, x)
  {
    if d[0].key == k {
      GetRemove(d[1..], k, x);
    } else if x != d[0].key {
      GetRemove(d[1..], k, x);
      assert Remove(d, k)[1..] == Remove(d[1..], k);
    }
  }

  lemma {:induction false} RemoveAbsent<K, V>(d: Dict<K, V>, k: K)
    requires !Has(d, k)
    ensures Remove(d, k) == d
  {
    if d == [] {
    } else {
      RemoveAbsent(d[1..], k);
    }
  }
}
