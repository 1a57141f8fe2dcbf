/** The slice of JavaScript's value semantics that the site's handlers and
    components depend on: JSON-shaped values, `undefined` as a missing
    property, truthiness, strict equality and object spread. */
module Js {

  datatype Option<+T> = None | Some(value: T)

  /** A JavaScript number. Finite numbers are exact reals: rounding to
      IEEE-754 doubles is not modelled. `+0` and `-0` are both `Finite(0.0)`,
      which is how `===` treats them. */
  datatype Num = NaN | PosInf | NegInf | Finite(r: real)

  /** A JSON-shaped JavaScript value. An object is a map from property names
      to values; the order of its keys is not modelled. `undefined` is never a
      stored value: a missing property reads as `None`. */
  datatype Value =
    | Null
    | Bool(b: bool)
    | Number(n: Num)
    | Str(s: string)
    | Array(items: seq<Value>)
    | Object(props: map<string, Value>)

  type Obj = map<string, Value>

  /** `o[key]`, with `None` for `undefined`. */
  function Get(o: Obj, key: string): (r: Option<Value>)
    ensures r.Some? <==> key in o
    ensures key in o ==> r == Some(o[key])
  {
    if key in o then Some(o[key]) else None
  }

  /** JavaScript's ToBoolean, applied to a possibly-undefined value. */
  predicate Truthy(v: Option<Value>)
    ensures !Truthy(v) <==> v in {None, Some(Null), Some(Bool(false)), Some(Number(NaN)), Some(Number(Finite(0.0))), Some(Str(""))}
  {
    match v
    case None => false
    case Some(Null) => false
    case Some(Bool(b)) => b
    case Some(Number(n)) => n != NaN && n != Finite(0.0)
    case Some(Str(s)) => s != ""
    case Some(Array(_)) => true
    case Some(Object(_)) => true
  }

  /** `a === b` on numbers: NaN equals nothing, not even itself. */
  predicate NumEquals(a: Num, b: Num)
  {
    a != NaN && a == b
  }

  /** `a === b`. Two primitives are strictly equal when they have the same
      type and value (`undefined === undefined` and `null === null` hold).
      Arrays and objects compare by reference; every array or object this
      model compares comes from a separately parsed JSON document or a fresh
      literal, so two of them are never the same reference. */
  predicate StrictEquals(a: Option<Value>, b: Option<Value>)
    ensures StrictEquals(a, b) <==>
              a == b && a != Some(Number(NaN)) && !(a.Some? && (a.value.Array? || a.value.Object?))
  {
    match (a, b)
    case (None, None) => true
    case (Some(Null), Some(Null)) => true
    case (Some(Bool(x)), Some(Bool(y))) => x == y
    case (Some(Number(x)), Some(Number(y))) => NumEquals(x, y)
    case (Some(Str(x)), Some(Str(y))) => x == y
    case _ => false
  }

  /** `{ ...base, ...over }`: every property of `over`, and the properties of
      `base` that `over` does not mention. */
  function Spread(base: Obj, over: Obj): (r: Obj)
    ensures r.Keys == base.Keys + over.Keys
    ensures forall k :: k in over ==> r[k] == over[k]
    ensures forall k :: k in base && k !in over ==> r[k] == base[k]
  {
    base + over
  }

  /** Strict equality is symmetric. */
  lemma StrictEqualsSymmetric(a: Option<Value>, b: Option<Value>)
    ensures StrictEquals(a, b) == StrictEquals(b, a)
  {
  }

  /** Strict equality is transitive, so two values strictly equal to one
      key are strictly equal to each other. */
  lemma StrictEqualsTransitive(a: Option<Value>, b: Option<Value>, c: Option<Value>)
    ensures StrictEquals(a, b) && StrictEquals(b, c) ==> StrictEquals(a, c)
  {
  }

  /** Nothing is strictly equal to NaN. */
  lemma NothingEqualsNaN(a: Option<Value>)
    ensures !StrictEquals(a, Some(Number(NaN)))
  {
  }
}
