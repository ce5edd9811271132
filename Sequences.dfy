/** Array.prototype.filter and Array.prototype.sort with a numeric comparator `(a, b) => key(a) - key(b)`,
    on the arrays the store builds from its Maps. The engines the store runs on sort stably, so the
    model sorts by stable insertion. */
module Sequences {

  /** `s.filter(p)`: the elements of s that satisfy p, in their order, each as often as in s. */
  function Filter<T>(s: seq<T>, p: T -> bool): (r: seq<T>)
    ensures forall x | x in r :: x in s && p(x)
    ensures |r| <= |s|
  {
    if s == [] then []
    else
      var rest := Filter(s[1..], p);
      assert s == [s[0]] + s[1..];
      if p(s[0]) then [s[0]] + rest else rest
  }

  /** Filtering keeps every occurrence of an element that satisfies p and none of the others. */
  lemma {:induction false} FilterCount<T>(s: seq<T>, p: T -> bool, x: T)
    ensures multiset(Filter(s, p))[x] == if p(x) then multiset(s)[x] else 0
  {
    if s != [] {
      FilterCount(s[1..], p, x);
      assert s == [s[0]] + s[1..];
    }
  }

  lemma FilterMembership<T>(s: seq<T>, p: T -> bool, x: T)
    ensures x in Filter(s, p) <==> x in s && p(x)
  {
    FilterCount(s, p, x);
    assert x in Filter(s, p) <==> multiset(Filter(s, p))[x] > 0;
    assert x in s <==> multiset(s)[x] > 0;
  }

  /** Filtering keeps the relative order: filtering a concatenation filters each part in turn. */
  lemma {:induction false} FilterAppend<T>(s1: seq<T>, s2: seq<T>, p: T -> bool)
    ensures Filter(s1 + s2, p) == Filter(s1, p) + Filter(s2, p)
  {
    if s1 == [] {
      assert s1 + s2 == s2;
    } else {
      var s := s1 + s2;
      assert s[0] == s1[0];
      assert s[1..] == s1[1..] + s2;
      FilterAppend(s1[1..], s2, p);
      var head := if p(s1[0]) then [s1[0]] else [];
      assert Filter(s, p) == head + Filter(s[1..], p);
      assert Filter(s1, p) == head + Filter(s1[1..], p);
    }
  }

  /** Positions in s[1..] as positions in s. */
  ghost function Shift(idx: seq<nat>): (r: seq<nat>)
    ensures |r| == |idx|
    ensures forall i | 0 <= i < |r| :: r[i] == idx[i] + 1
    ensures (forall i, j | 0 <= i < j < |idx| :: idx[i] < idx[j]) ==> forall i, j | 0 <= i < j < |r| :: r[i] < r[j]
  {
    seq(|idx|, i requires 0 <= i < |idx| => idx[i] + 1)
  }

  /** The positions in s of the elements that `s.filter(p)` keeps, in increasing order. */
  lemma {:induction false} FilterPositions<T>(s: seq<T>, p: T -> bool) returns (idx: seq<nat>)
    ensures |idx| == |Filter(s, p)|
    ensures forall i | 0 <= i < |idx| :: idx[i] < |s| && s[idx[i]] == Filter(s, p)[i]
    ensures forall i, j | 0 <= i < j < |idx| :: idx[i] < idx[j]
  {
    if s == [] {
      return [];
    }
    var tail := Filter(s[1..], p);
    var rest := FilterPositions(s[1..], p);
    var shifted := Shift(rest);
    forall i | 0 <= i < |shifted| ensures shifted[i] < |s| && s[shifted[i]] == tail[i] {
      assert s[rest[i] + 1] == s[1..][rest[i]];
    }
    if p(s[0]) {
      assert Filter(s, p) == [s[0]] + tail;
      idx := [0] + shifted;
      forall i | 0 < i < |idx| ensures idx[i] == shifted[i - 1] && Filter(s, p)[i] == tail[i - 1] {
      }
    } else {
      assert Filter(s, p) == tail;
      idx := shifted;
    }
  }

  /** Filtering keeps the relative order: two kept elements appear in s in the same order. */
  lemma FilterKeepsOrder<T>(s: seq<T>, p: T -> bool)
    ensures forall i, j | 0 <= i < j < |Filter(s, p)| ::
              exists a, b | 0 <= a < b < |s| :: s[a] == Filter(s, p)[i] && s[b] == Filter(s, p)[j]
  {
    var idx := FilterPositions(s, p);
    forall i, j | 0 <= i < j < |Filter(s, p)|
      ensures exists a, b | 0 <= a < b < |s| :: s[a] == Filter(s, p)[i] && s[b] == Filter(s, p)[j]
    {
      assert s[idx[i]] == Filter(s, p)[i] && s[idx[j]] == Filter(s, p)[j];
    }
  }

  /** Non-decreasing by key. */
  ghost predicate SortedBy<T>(s: seq<T>, key: T -> int) {
    forall i, j | 0 <= i < j < |s| :: key(s[i]) <= key(s[j])
  }

  /** Inserts x in front of the first element whose key is not smaller, so that x stays ahead of
      elements with an equal key that came after it. */
  function Insert<T>(x: T, s: seq<T>, key: T -> int): (r: seq<T>)
    requires SortedBy(s, key)
    ensures SortedBy(r, key)
    ensures multiset(r) == multiset(s) + multiset{x}
    ensures |r| == |s| + 1
    ensures r[0] == if s == [] || key(x) <= key(s[0]) then x else s[0]
  {
    if s == [] || key(x) <= key(s[0]) then [x] + s
    else
      var tail := s[1..];
      var rest := Insert(x, tail, key);
      assert s == [s[0]] + tail;
      assert forall k | 0 <= k < |rest| :: key(s[0]) <= key(rest[k]) by {
        forall k | 0 <= k < |rest| ensures key(s[0]) <= key(rest[k]) {
          var y := rest[k];
          assert y in multiset(rest);
          if y != x {
            assert y in multiset(tail);
            var j :| 0 <= j < |tail| && tail[j] == y;
            assert s[j + 1] == y;
          }
        }
      }
      [s[0]] + rest
  }

  /** `s.slice().sort((a, b) => key(a) - key(b))`, stable. */
  function SortBy<T>(s: seq<T>, key: T -> int): (r: seq<T>)
    ensures SortedBy(r, key)
    ensures multiset(r) == multiset(s)
    ensures |r| == |s|
  {
    if s == [] then []
    else
      assert s == [s[0]] + s[1..];
      Insert(s[0], SortBy(s[1..], key), key)
  }

  /** Index i holds the earliest of the least keys of s. */
  ghost predicate EarliestLeast<T>(s: seq<T>, key: T -> int, i: nat) {
    && i < |s|
    && (forall j | 0 <= j < |s| :: key(s[i]) <= key(s[j]))
    && (forall j | 0 <= j < i :: key(s[j]) > key(s[i]))
  }

  /** The earliest least key of s[1..] moves one place right in s, or s[0] takes its place when its
      key is no greater. */
  lemma EarliestLeastCons<T>(s: seq<T>, key: T -> int, i': nat)
    requires |s| >= 2 && EarliestLeast(s[1..], key, i')
    ensures key(s[0]) <= key(s[i' + 1]) ==> EarliestLeast(s, key, 0)
    ensures key(s[0]) > key(s[i' + 1]) ==> EarliestLeast(s, key, i' + 1)
  {
    var tail := s[1..];
    assert forall j | 0 < j < |s| :: s[j] == tail[j - 1];
  }

  /** The first element of a stable sort is the earliest element of s whose key is the least. */
  lemma {:induction false} SortByHead<T>(s: seq<T>, key: T -> int) returns (i: nat)
    requires s != []
    ensures EarliestLeast(s, key, i) && SortBy(s, key)[0] == s[i]
  {
    var tail := s[1..];
    var rest := SortBy(tail, key);
    assert SortBy(s, key) == Insert(s[0], rest, key);
    if tail == [] {
      i := 0;
    } else {
      var i' := SortByHead(tail, key);
      EarliestLeastCons(s, key, i');
      assert rest[0] == tail[i'] == s[i' + 1];
      i := if key(s[0]) <= key(s[i' + 1]) then 0 else i' + 1;
    }
  }
}
