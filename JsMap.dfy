/** The ECMAScript Map<string, V> the store keeps its records in. A Map remembers the order in which
    its keys were first inserted: `values()` reports entries in that order, `set` on a key already
    present replaces the value in place, and `delete` drops the key and reports whether it was
    there. */
module JsMap {
  import opened Wrappers
  import opened Js
  import opened Sequences

  type Key = string

  /** `order` lists the keys in insertion order; `rows` holds the entries. */
  datatype Table<V> = Table(order: seq<Key>, rows: map<Key, V>) {

    /** The order lists every key of the map exactly once. */
    ghost predicate Valid() {
      && Distinct(order)
      && (forall k :: k in rows <==> k in order)
    }

    /** `map.get(k)`. */
    function Get(k: Key): (r: Option<V>)
      ensures r.Some? <==> k in rows
      ensures r.Some? ==> r.value == rows[k]
    {
      if k in rows then Some(rows[k]) else None
    }

    /** `Array.from(map.values())`: the entries in insertion order. */
    function Values(): (vs: seq<V>)
      requires Valid()
      ensures |vs| == |order|
      ensures forall i | 0 <= i < |order| :: vs[i] == rows[order[i]]
    {
      seq(|order|, i requires 0 <= i < |order| => rows[order[i]])
    }

    /** `map.set(k, v)`. */
    function Set(k: Key, v: V): (t: Table<V>)
      requires Valid()
      ensures t.Valid()
      ensures t.rows == rows[k := v]
      ensures k !in rows ==> t.Values() == Values() + [v]
      ensures k in rows ==> |t.Values()| == |Values()|
      ensures k in rows ==> forall i | 0 <= i < |order| :: t.Values()[i] == if order[i] == k then v else Values()[i]
    {
      if k in rows then Table(order, rows[k := v]) else Table(order + [k], rows[k := v])
    }

    /** `map.delete(k)`: the map without k, and whether k was present. */
    function Delete(k: Key): (r: (Table<V>, bool))
      requires Valid()
      ensures r.0.Valid()
      ensures r.1 == (k in rows)
      ensures r.0.rows == rows - {k}
      ensures r.0.order == Without(order, k)
    {
      if k in rows then (Table(Without(order, k), rows - {k}), true) else (this, false)
    }
  }

  /** The empty Map. */
  function EmptyTable<V>(): (t: Table<V>)
    ensures t.Valid() && t.rows == map[] && t.Values() == []
  {
    Table([], map[])
  }

  /** The keys of s other than k, in their order. */
  function Without(s: seq<Key>, k: Key): (r: seq<Key>)
    ensures forall x :: x in r <==> x in s && x != k
    ensures Distinct(s) ==> Distinct(r)
    ensures k !in s ==> r == s
  {
    if s == [] then []
    else if s[0] == k then Without(s[1..], k)
    else
      var rest := Without(s[1..], k);
      assert Distinct(s) ==> s[0] !in s[1..];
      [s[0]] + rest
  }
  /** The test `x != k` that a delete applies to every remaining key. */
  function Other(k: Key): Key -> bool {
    x => x != k
  }

  /** A delete filters k out of the key order, so the remaining keys keep their relative order. */
  lemma {:induction false} WithoutIsFilter(s: seq<Key>, k: Key)
    ensures Without(s, k) == Filter(s, Other(k))
    ensures forall i, j | 0 <= i < j < |Without(s, k)| ::
              exists a, b | 0 <= a < b < |s| :: s[a] == Without(s, k)[i] && s[b] == Without(s, k)[j]
  {
    if s != [] {
      WithoutIsFilter(s[1..], k);
    }
    FilterKeepsOrder(s, Other(k));
  }



  /** Every value a Map reports is the entry of one of its keys, and every entry is reported. */
  lemma ValuesAreEntries<V>(t: Table<V>)
    requires t.Valid()
    ensures forall v :: v in t.Values() <==> exists k :: k in t.rows && t.rows[k] == v
  {
    forall v ensures v in t.Values() <==> exists k :: k in t.rows && t.rows[k] == v {
      if v in t.Values() {
        var i :| 0 <= i < |t.Values()| && t.Values()[i] == v;
        assert t.order[i] in t.rows;
      }
      if exists k :: k in t.rows && t.rows[k] == v {
        var k :| k in t.rows && t.rows[k] == v;
        var i :| 0 <= i < |t.order| && t.order[i] == k;
        assert t.Values()[i] == v;
      }
    }
  }

  /** `map.get` after `map.set`: the key just set holds the new value, every other key is as before. */
  lemma GetAfterSet<V>(t: Table<V>, k: Key, v: V, k': Key)
    requires t.Valid()
    ensures t.Set(k, v).Get(k) == Some(v)
    ensures k' != k ==> t.Set(k, v).Get(k') == t.Get(k')
  {
  }

  /** Deleting a key twice: the first delete reports whether it was present, the second reports
      false, and the Map is the same after both as after the first. */
  lemma DeleteTwice<V>(t: Table<V>, k: Key)
    requires t.Valid()
    ensures t.Delete(k).1 == (k in t.rows)
    ensures !t.Delete(k).0.Delete(k).1
    ensures t.Delete(k).0.Delete(k).0 == t.Delete(k).0
    ensures t.Delete(k).0.Get(k).None?
  {
  }
}
