/** The JavaScript runtime semantics the store and the routes rely on: Date values and their
    comparisons, plain property values, objects as ordered property lists, object spread, and
    truthiness. */
module Js {
  import opened Wrappers

  /** Milliseconds since the epoch: the value of a valid Date. */
  type Time = int

  /** A Date object: a valid instant, or the Invalid Date that `new Date(x)` yields when x does not
      parse (its time value is NaN). */
  datatype JsDate = Instant(ms: Time) | InvalidDate

  /** `a > b` on two Dates: both are converted to numbers, and every comparison with NaN is false. */
  function After(a: JsDate, b: JsDate): (r: bool)
    ensures r ==> AtOrAfter(a, b) && !AtOrBefore(a, b)
  {
    a.Instant? && b.Instant? && a.ms > b.ms
  }

  /** `a >= b` on two Dates: the mirror image of `b <= a`. */
  function AtOrAfter(a: JsDate, b: JsDate): (r: bool)
    ensures r <==> AtOrBefore(b, a)
  {
    a.Instant? && b.Instant? && a.ms >= b.ms
  }

  /** `a <= b` on two Dates. */
  function AtOrBefore(a: JsDate, b: JsDate): (r: bool)
    ensures r ==> a.Instant? && b.Instant?
  {
    a.Instant? && b.Instant? && a.ms <= b.ms
  }

  lemma InvalidDateComparesFalse(a: JsDate)
    ensures !After(a, InvalidDate) && !After(InvalidDate, a)
    ensures !AtOrAfter(a, InvalidDate) && !AtOrBefore(a, InvalidDate)
    ensures !AtOrAfter(InvalidDate, a) && !AtOrBefore(InvalidDate, a)
  {
  }

  /** The property values the records and request bodies hold. Numbers are modelled as integers. */
  datatype Value =
    | Str(s: string)
    | Num(n: int)
    | Bool(b: bool)
    | Null
    | Date(d: JsDate)
    | Dict(entries: map<string, string>)   // a plain object with string values (a configuration)

  /** A plain object: its own properties in insertion order, which is the order Object.keys reports. */
  type Obj = seq<(string, Value)>

  /** No element appears twice. */
  ghost predicate Distinct<T>(s: seq<T>) {
    forall i, j | 0 <= i < j < |s| :: s[i] != s[j]
  }

  /** An object never has two own properties with the same name. */
  predicate DistinctKeys(o: Obj) {
    forall i, j | 0 <= i < j < |o| :: o[i].0 != o[j].0
  }

  /** Object.keys(o). */
  function Keys(o: Obj): (ks: seq<string>)
    ensures |ks| == |o|
    ensures forall i | 0 <= i < |o| :: ks[i] == o[i].0
  {
    if o == [] then [] else [o[0].0] + Keys(o[1..])
  }

  /** `o[k]`: the value of property k, or None for `undefined` when o has no such property. */
  function Get(o: Obj, k: string): (r: Option<Value>)
    ensures r.None? <==> k !in Keys(o)
    ensures r.Some? ==> (k, r.value) in o
  {
    if o == [] then None else if o[0].0 == k then Some(o[0].1) else Get(o[1..], k)
  }

  /** `o[k] = v`: an existing property keeps its place and takes the new value; a new one is
      appended. */
  function Assign(o: Obj, k: string, v: Value): (r: Obj)
    ensures Get(r, k) == Some(v)
    ensures forall k' | k' != k :: Get(r, k') == Get(o, k')
  {
    if o == [] then [(k, v)]
    else if o[0].0 == k then [(k, v)] + o[1..]
    else [o[0]] + Assign(o[1..], k, v)
  }

  /** `{...a, ...b}`: the properties of b assigned onto a copy of a, in b's order. */
  function Spread(a: Obj, b: Obj): (r: Obj)
    ensures forall k :: k in Keys(r) <==> k in Keys(a) || k in Keys(b)
    decreases |b|
  {
    if b == [] then a
    else
      var a' := Assign(a, b[0].0, b[0].1);
      assert forall k :: k in Keys(b) <==> k == b[0].0 || k in Keys(b[1..]) by {
        assert Keys(b) == [b[0].0] + Keys(b[1..]);
      }
      assert forall k :: k in Keys(a') <==> k == b[0].0 || k in Keys(a) by {
        forall k ensures k in Keys(a') <==> k == b[0].0 || k in Keys(a) {
          if k != b[0].0 {
            assert Get(a', k) == Get(a, k);
          }
        }
      }
      Spread(a', b[1..])
  }

  /** A property of a spread comes from the right-hand object when that object has it, and from the
      left-hand one otherwise. */
  lemma {:induction false} GetSpread(a: Obj, b: Obj, k: string)
    requires DistinctKeys(b)
    ensures Get(Spread(a, b), k) == if Get(b, k).Some? then Get(b, k) else Get(a, k)
    decreases |b|
  {
    if b != [] {
      var a' := Assign(a, b[0].0, b[0].1);
      GetSpread(a', b[1..], k);
      if b[0].0 == k {
        assert k !in Keys(b[1..]);
      } else {
        assert Get(a', k) == Get(a, k);
        assert Get(b, k) == Get(b[1..], k);
      }
    }
  }

  /** An object literal over the property names `names`, in that order, that leaves out each name
      whose value is undefined (None). */
  function Props(names: seq<string>, view: string -> Option<Value>): (o: Obj)
    ensures forall i | 0 <= i < |o| :: o[i].0 in names
  {
    if names == [] then []
    else
      (match view(names[0]) case Some(v) => [(names[0], v)] case None => []) + Props(names[1..], view)
  }

  /** Reading a property of such a literal gives the view's value for a listed name and undefined
      for any other name. */
  lemma {:induction false} GetProps(names: seq<string>, view: string -> Option<Value>, k: string)
    ensures Get(Props(names, view), k) == if k in names then view(k) else None
  {
    if names != [] {
      GetProps(names[1..], view, k);
      var head := match view(names[0]) case Some(v) => [(names[0], v)] case None => [];
      GetAppend(head, Props(names[1..], view), k);
    }
  }

  /** When the view is undefined outside `names`, reading the literal reads the view. */
  lemma GetPropsView(names: seq<string>, view: string -> Option<Value>, k: string)
    requires k !in names ==> view(k).None?
    ensures Get(Props(names, view), k) == view(k)
  {
    GetProps(names, view, k);
  }

  /** Distinct names give an object with distinct keys. */
  lemma {:induction false} PropsDistinct(names: seq<string>, view: string -> Option<Value>)
    requires Distinct(names)
    ensures DistinctKeys(Props(names, view))
  {
    if names != [] {
      PropsDistinct(names[1..], view);
      assert names[0] !in names[1..];
    }
  }

  /** Reading a property of a concatenation finds it in the first part that has it. */
  lemma {:induction false} GetAppend(a: Obj, b: Obj, k: string)
    ensures Get(a + b, k) == if Get(a, k).Some? then Get(a, k) else Get(b, k)
  {
    if a != [] {
      assert (a + b)[1..] == a[1..] + b;
      GetAppend(a[1..], b, k);
    } else {
      assert a + b == b;
    }
  }

  /** JavaScript truthiness of a property read; an absent property reads as `undefined`. */
  function Truthy(v: Option<Value>): (r: bool)
    ensures v.None? || v == Some(Null) ==> !r
    ensures v.Some? && (v.value.Date? || v.value.Dict?) ==> r
  {
    match v
    case None => false
    case Some(Str(s)) => s != ""
    case Some(Num(n)) => n != 0
    case Some(Bool(b)) => b
    case Some(Null) => false
    case Some(Date(_)) => true
    case Some(Dict(_)) => true
  }
}
