/** JavaScript values as the examples use them, with the two runtime operations
    they rely on: strict equality (`===`) and truthiness. Numbers are integers. */
module Js {

  datatype Option<+T> = None | Some(value: T)

  /** A thrown `Error` object, reduced to its message. */
  datatype Error = Error(message: string)

  /** The outcome of an expression that either yields a value or throws. */
  datatype Result<+T> = Ok(value: T) | Thrown(error: Error)

  /** The outcome of a statement sequence that returns nothing or throws. */
  datatype Outcome = Completed | Threw(error: Error)

  /** A JavaScript value. Arrays and objects carry the identity of the
      allocation that created them; `===` compares that identity only. */
  datatype Value =
    | Undefined
    | Null
    | Bool(b: bool)
    | Num(n: int)
    | Str(s: string)
    | Arr(arrId: nat, elems: seq<Value>)
    | Obj(objId: nat, fields: map<string, Value>)
  {
    predicate IsReference() { Arr? || Obj? }
  }

  /** `Array.isArray(v)` */
  predicate IsArray(v: Value) {
    v.Arr?
  }

  /** `a === b`: primitives by value, arrays and objects by identity. */
  predicate StrictEquals(a: Value, b: Value) {
    match (a, b)
    case (Undefined, Undefined) => true
    case (Null, Null) => true
    case (Bool(x), Bool(y)) => x == y
    case (Num(x), Num(y)) => x == y
    case (Str(x), Str(y)) => x == y
    case (Arr(i, _), Arr(j, _)) => i == j
    case (Obj(i, _), Obj(j, _)) => i == j
    case _ => false
  }

  /** On primitives `===` is equality of the values themselves; on references
      it is equality of identities, whatever the contents. */
  lemma StrictEqualsMeaning(a: Value, b: Value)
    ensures !a.IsReference() && !b.IsReference() ==> (StrictEquals(a, b) <==> a == b)
    ensures a.Obj? && b.Obj? ==> (StrictEquals(a, b) <==> a.objId == b.objId)
    ensures a.Arr? && b.Arr? ==> (StrictEquals(a, b) <==> a.arrId == b.arrId)
    ensures a.IsReference() != b.IsReference() ==> !StrictEquals(a, b)
  {
  }

  /** JavaScript truthiness: `undefined`, `null`, `false`, `0` and `""` are falsy. */
  predicate Truthy(v: Value) {
    match v
    case Undefined => false
    case Null => false
    case Bool(b) => b
    case Num(n) => n != 0
    case Str(s) => s != ""
    case _ => true
  }

  /** A value of the optional type `string | undefined`. */
  function OptionalString(o: Option<string>): Value {
    match o
    case None => Undefined
    case Some(s) => Str(s)
  }

  /** An optional string is truthy exactly when it is present and non-empty. */
  lemma OptionalStringTruthy(o: Option<string>)
    ensures Truthy(OptionalString(o)) <==> o.Some? && o.value != ""
  {
  }
}
