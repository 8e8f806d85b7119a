/**
 * JavaScript values as the core handles them: JSON bodies received by the two
 * servers, the objects the client keeps in its marker list, and the results of
 * `JSON.parse`.  Truthiness and property access are written out because the
 * client's validation and every `marker.id` filter depend on them.
 */
module Js {
  import opened Wrappers
  import Sequences

  datatype Value =
    | Undefined
    | Null
    | Bool(b: bool)
    | Number(x: real)
    | NaN
    | Str(s: string)
    | Array(elems: seq<Value>)
    | Object(fields: map<string, Value>)

  /** JavaScript truthiness: `false`, `0`, `NaN`, `""`, `null` and `undefined` are falsy. */
  predicate Truthy(v: Value) {
    match v
    case Undefined => false
    case Null => false
    case Bool(b) => b
    case Number(x) => x != 0.0
    case NaN => false
    case Str(s) => s != ""
    case Array(_) => true
    case Object(_) => true
  }

  /**
   * `v.key` for one of the data properties the core reads (`id`, `latitude`,
   * `name`, ...).  Reading a property of `undefined` or `null` throws a
   * TypeError (None); other primitives and arrays carry none of these
   * properties, so they yield `undefined`.
   */
  function Prop(v: Value, key: string): (r: Option<Value>)
    ensures r.None? <==> v.Undefined? || v.Null?
    ensures r.Some? && !v.Object? ==> r.value == Undefined
    ensures v.Object? ==> r == Some(if key in v.fields then v.fields[key] else Undefined)
  {
    match v
    case Undefined => None
    case Null => None
    case Object(fields) => Some(if key in fields then fields[key] else Undefined)
    case _ => Some(Undefined)
  }

  /** `!!v.key`, where a throwing read counts as falsy (every caller catches it and rejects). */
  predicate TruthyProp(v: Value, key: string) {
    match Prop(v, key)
    case None => false
    case Some(x) => Truthy(x)
  }

  /**
   * `a === b`: primitives compare by value, `NaN` equals nothing (itself
   * included), and values of different types are never equal.  Arrays and
   * objects are compared by contents here, where JavaScript compares references.
   */
  predicate StrictEquals(a: Value, b: Value) {
    match (a, b)
    case (Undefined, Undefined) => true
    case (Null, Null) => true
    case (Bool(x), Bool(y)) => x == y
    case (Number(x), Number(y)) => x == y
    case (Str(x), Str(y)) => x == y
    case (Array(x), Array(y)) => x == y
    case (Object(x), Object(y)) => x == y
    case _ => false
  }

  /**
   * `marker.id === markerId`.  The servers pass a route parameter, always a
   * string; the client passes the `id` of a cached marker, which may be any value.
   */
  predicate HasId(marker: Value, markerId: Value) {
    match Prop(marker, "id")
    case None => false
    case Some(id) => StrictEquals(id, markerId)
  }

  /** The callback of `markers.filter(marker => marker.id !== markerId)`. */
  function OtherId(markerId: Value): Value -> bool {
    marker => !HasId(marker, markerId)
  }

  /**
   * `markers.filter(marker => marker.id !== markerId)`: the callback throws on the
   * first `undefined` or `null` element, so the filter either throws (None) or
   * yields every element whose id is not `markerId`, in order.
   */
  function WithoutId(markers: seq<Value>, markerId: Value): (r: Option<seq<Value>>)
    ensures r.None? <==> exists i :: 0 <= i < |markers| && Prop(markers[i], "id").None?
    ensures r.Some? ==> forall i :: 0 <= i < |r.value| ==> !HasId(r.value[i], markerId) && r.value[i] in markers
  {
    if exists i :: 0 <= i < |markers| && Prop(markers[i], "id").None? then None
    else Some(Sequences.Filter(markers, OtherId(markerId)))
  }

  /**
   * The filter keeps every element whose id differs, as often as it occurred,
   * and drops every element with that id.
   */
  lemma WithoutIdCounts(markers: seq<Value>, markerId: Value, x: Value)
    requires WithoutId(markers, markerId).Some?
    ensures multiset(WithoutId(markers, markerId).value)[x] ==
              if HasId(x, markerId) then 0 else multiset(markers)[x]
  {
    Sequences.FilterCount(markers, OtherId(markerId), x);
  }

  /** The filter preserves relative order: it distributes over any split of the list. */
  lemma WithoutIdKeepsOrder(front: seq<Value>, back: seq<Value>, markerId: Value)
    requires WithoutId(front + back, markerId).Some?
    ensures WithoutId(front, markerId).Some? && WithoutId(back, markerId).Some?
    ensures WithoutId(front + back, markerId).value ==
              WithoutId(front, markerId).value + WithoutId(back, markerId).value
  {
    forall i | 0 <= i < |front| ensures Prop(front[i], "id").Some? {
      assert (front + back)[i] == front[i];
    }
    forall i | 0 <= i < |back| ensures Prop(back[i], "id").Some? {
      assert (front + back)[|front| + i] == back[i];
    }
    Sequences.FilterAppend(front, back, OtherId(markerId));
  }

  /** Removing an id that no element carries leaves the list as it was. */
  lemma WithoutAbsentId(markers: seq<Value>, markerId: Value)
    requires WithoutId(markers, markerId).Some?
    requires forall i :: 0 <= i < |markers| ==> !HasId(markers[i], markerId)
    ensures WithoutId(markers, markerId) == Some(markers)
  {
    Sequences.FilterKeepsAll(markers, OtherId(markerId));
  }

  /** `NaN !== NaN`: an entry whose id is `NaN` survives every removal, even of `NaN`. */
  lemma NaNIdKept(markers: seq<Value>, markerId: Value, x: Value)
    requires WithoutId(markers, markerId).Some?
    requires Prop(x, "id") == Some(NaN)
    ensures multiset(WithoutId(markers, markerId).value)[x] == multiset(markers)[x]
  {
    WithoutIdCounts(markers, markerId, x);
  }

  /** A second removal of the same id succeeds and changes nothing. */
  lemma WithoutIdIdempotent(markers: seq<Value>, markerId: Value)
    requires WithoutId(markers, markerId).Some?
    ensures WithoutId(WithoutId(markers, markerId).value, markerId) == WithoutId(markers, markerId)
  {
    var r := WithoutId(markers, markerId).value;
    forall i | 0 <= i < |r| ensures Prop(r[i], "id").Some? {
      var j :| 0 <= j < |markers| && markers[j] == r[i];
    }
    WithoutAbsentId(r, markerId);
  }
}
