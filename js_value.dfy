/** JavaScript values, as far as the block code inspects them: their kind and
    their truthiness (the ToBoolean conversion of ECMAScript, section 7.1.2 of
    ECMA-262). */
module JsValue {

  datatype Option<+T> = None | Some(value: T)

  /** A JavaScript number. Negative zero is not told apart from zero: both are
      falsy and both are numbers, which is all the code here looks at. */
  datatype Number = Finite(x: real) | NaN | Infinity(negative: bool)

  datatype Value =
    | Undefined
    | Null
    | Bool(b: bool)
    | Num(n: Number)
    | BigInt(i: int)
    | Str(s: string)
    | Symbol(description: string)
    | Arr(elems: seq<Value>)
    | Obj(props: seq<Property>)

  /** One own property of an object, in insertion order. */
  datatype Property = Property(key: string, value: Value)

  /** ToBoolean: undefined, null, false, 0, NaN, 0n and "" are falsy; every
      other value, every array and every object included, is truthy. */
  predicate Truthy(v: Value) {
    match v
    case Undefined => false
    case Null => false
    case Bool(b) => b
    case Num(n) => n.Infinity? || (n.Finite? && n.x != 0.0)
    case BigInt(i) => i != 0
    case Str(s) => s != ""
    case Symbol(_) => true
    case Arr(_) => true
    case Obj(_) => true
  }

  /** A string attribute or prop: undefined when unset. */
  function OfString(o: Option<string>): Value {
    match o
    case None => Undefined
    case Some(s) => Str(s)
  }

  /** A string attribute used in a condition (`mediaType && mediaUrl`,
      `! attributes.align`): set and not empty. */
  predicate Present(o: Option<string>) {
    Truthy(OfString(o))
  }

  /** ToPropertyKey of a string-or-undefined used as a computed key or an
      index: undefined becomes the key "undefined". */
  function PropertyKey(o: Option<string>): string {
    match o
    case None => "undefined"
    case Some(s) => s
  }
}
