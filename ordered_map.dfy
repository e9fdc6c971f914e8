/** A JavaScript `Map` with string keys: the keys in insertion order beside
    the key-value pairs. `set` on a key already present replaces its value
    and keeps the key where it was; `delete` removes the key from the order;
    iteration and `keys().next()` follow the order. */
module OrderedMaps {
  import opened Wrappers
  import opened Seqs

  function NotKey(k: string): string -> bool {
    x => x != k
  }

  /** The order with `k` taken out. */
  function RemoveKey(order: seq<string>, k: string): (r: seq<string>)
    ensures forall x :: x in r <==> x in order && x != k
  {
    FilterCount(order, NotKey(k), k);
    assert forall x :: x in order && x != k ==> x in Filter(order, NotKey(k)) by {
      forall x | x in order && x != k ensures x in Filter(order, NotKey(k)) {
        FilterComplete(order, NotKey(k), x);
      }
    }
    Filter(order, NotKey(k))
  }

  /** Removing a key that occurs exactly once shortens the order by one. */
  lemma {:induction false} RemoveKeyLength(order: seq<string>, k: string)
    requires NoDuplicates(order)
    ensures |RemoveKey(order, k)| == if k in order then |order| - 1 else |order|
  {
    if k !in order {
      FilterKeepsAll(order, NotKey(k));
    } else {
      var i :| 0 <= i < |order| && order[i] == k;
      assert order == order[..i] + [k] + order[i + 1..];
      FilterAppend(order[..i] + [k], order[i + 1..], NotKey(k));
      FilterAppend(order[..i], [k], NotKey(k));
      assert k !in order[..i] && k !in order[i + 1..] by {
        forall j | 0 <= j < |order| && j != i ensures order[j] != k { }
      }
      FilterKeepsAll(order[..i], NotKey(k));
      FilterKeepsAll(order[i + 1..], NotKey(k));
    }
  }

  /** Removing a key that occurs once, between `a` and `b`, joins `a` and `b`. */
  lemma RemoveKeyBetween(a: seq<string>, k: string, b: seq<string>)
    requires k !in a && k !in b
    ensures RemoveKey(a + [k] + b, k) == a + b
  {
    var p := NotKey(k);
    FilterAppend(a + [k], b, p);
    FilterAppend(a, [k], p);
    FilterKeepsAll(a, p);
    FilterKeepsAll(b, p);
    assert Filter([k], p) == [] by {
      assert !p(k);
      assert [k][1..] == [];
    }
    assert Filter(a + [k], p) == a;
  }

  datatype OrderedMap<V> = OrderedMap(order: seq<string>, entries: map<string, V>) {

    /** Every stored key occurs exactly once in the order, and the order holds only stored keys. */
    ghost predicate Valid() {
      NoDuplicates(order) && forall k :: k in entries <==> k in order
    }

    /** `Map.prototype.size` */
    function Size(): nat {
      |order|
    }

    /** `Map.prototype.get` */
    function Get(k: string): Option<V> {
      if k in entries then Some(entries[k]) else None
    }

    /** `Map.prototype.keys().next().value`: the oldest key, if any. */
    function First(): (r: Option<string>)
      ensures Valid() && r.Some? ==> r.value in entries
    {
      if order == [] then None else Some(order[0])
    }

    /** `Map.prototype.set`: a new key goes last, a present key keeps its place. */
    function Put(k: string, v: V): (r: OrderedMap<V>)
      ensures Valid() ==> r.Valid()
      ensures r.Get(k) == Some(v)
      ensures forall j :: j != k ==> r.Get(j) == Get(j)
      ensures k in entries ==> r.order == order
      ensures k !in entries ==> r.order == order + [k]
    {
      var r := OrderedMap(if k in entries then order else order + [k], entries[k := v]);
      assert Valid() ==> r.Valid() by {
        if Valid() && k !in entries {
          assert forall i :: 0 <= i < |order| ==> r.order[i] == order[i];
        }
      }
      r
    }

    /** `Map.prototype.delete` */
    function Remove(k: string): (r: OrderedMap<V>)
      ensures Valid() ==> r.Valid() && r.Size() == if k in entries then Size() - 1 else Size()
      ensures r.Get(k) == None
      ensures forall j :: j != k ==> r.Get(j) == Get(j)
      ensures IsSubsequence(r.order, order)
    {
      var r := OrderedMap(RemoveKey(order, k), entries - {k});
      FilterIsSubsequence(order, NotKey(k));
      assert Valid() ==> r.Valid() && r.Size() == if k in entries then Size() - 1 else Size() by {
        if Valid() {
          FilterNoDuplicates(order, NotKey(k));
          RemoveKeyLength(order, k);
        }
      }
      r
    }
  }

  /** `new Map()` and `Map.prototype.clear` */
  function Empty<V>(): (r: OrderedMap<V>)
    ensures r.Valid() && r.Size() == 0
  {
    OrderedMap([], map[])
  }
}
