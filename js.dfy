/**
  JavaScript values as the frontend sees them: the decoded JSON bodies of the
  backend, the values held in React state, and the values thrown by the
  service wrappers. Only the operators the frontend applies are modelled:
  truthiness, `?.` and plain property access, `||`, and
  `typeof v === 'object' && v !== null`.
*/
module Js {

  import opened Wrappers

  datatype Value =
    | Undefined
    | Null
    | Bool(b: bool)
    | Num(n: real)
    | Str(s: string)
    | Arr(items: seq<Value>)
    | Obj(props: map<string, Value>)

  /** Truthiness as JavaScript's `if (v)` decides it (NaN is not modelled). */
  predicate Truthy(v: Value) {
    match v
    case Undefined => false
    case Null => false
    case Bool(b) => b
    case Num(n) => n != 0.0
    case Str(s) => s != ""
    case Arr(_) => true
    case Obj(_) => true
  }

  /** `v == null` with loose equality: null or undefined. */
  predicate Nullish(v: Value) {
    v.Undefined? || v.Null?
  }

  /** `typeof v === 'object' && v !== null`: arrays and plain objects. */
  predicate IsObject(v: Value) {
    v.Arr? || v.Obj?
  }

  /**
    `v?.key` for an own data property of a plain object; every other value
    (a primitive, an array, null or undefined) gives undefined.
  */
  function Get(v: Value, key: string): (r: Value)
    ensures !r.Undefined? ==> v.Obj? && key in v.props && v.props[key] == r
    ensures v.Obj? && key in v.props ==> r == v.props[key]
  {
    if v.Obj? && key in v.props then v.props[key] else Undefined
  }

  /**
    Plain `v.key`: reading a property of null or undefined throws a
    TypeError (None); on any other value it reads what `v?.key` reads.
  */
  function Member(v: Value, key: string): (r: Option<Value>)
    ensures r.None? <==> Nullish(v)
    ensures r.Some? ==> r.value == Get(v, key)
  {
    if Nullish(v) then None else Some(Get(v, key))
  }

  /** `a || b`: the first operand when it is truthy, the second one otherwise. */
  function Or(a: Value, b: Value): (r: Value)
    ensures Truthy(r) <==> Truthy(a) || Truthy(b)
    ensures Truthy(a) ==> r == a
  {
    if Truthy(a) then a else b
  }

  /** `new Error(message)`: an object whose `message` property is the text. */
  function ErrorObject(message: string): (r: Value)
    ensures Truthy(r) && Get(r, "message") == Str(message)
  {
    Obj(map["message" := Str(message)])
  }

  /** A string-or-null JSON field (`None` serialises to `null`). */
  function StrOrNull(s: Option<string>): (r: Value)
    ensures r.Null? <==> s.None?
    ensures s.Some? ==> r == Str(s.value)
  {
    match s
    case None => Null
    case Some(t) => Str(t)
  }

}
