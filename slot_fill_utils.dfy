/** The slot/fill utility that decides whether a rendered element counts as
    empty, so that a slot with nothing to show can be skipped. */
module SlotFillUtils {
  import opened JsValue

  /** isEmptyElement: a number is never empty, an array is empty when it has
      no elements, and any other value is empty when it is falsy. */
  function IsEmptyElement(element: Value): (empty: bool)
    ensures empty <==> element in {Undefined, Null, Bool(false), Str(""), BigInt(0), Arr([])}
  {
    if element.Num? then false
    else if element.Arr? then |element.elems| == 0
    else !Truthy(element)
  }

  /** Emptiness is falsiness, except for the falsy numbers (0 and NaN), which
      are not empty, and the empty array, which is truthy but empty. */
  lemma EmptyVersusFalsy(element: Value)
    ensures IsEmptyElement(element) != !Truthy(element) <==>
      element in {Num(Finite(0.0)), Num(NaN), Arr([])}
  {
  }

  /** An array is judged by its length alone, never by its elements: [null]
      is not empty although null is. */
  lemma ArrayByLength(elems: seq<Value>)
    ensures IsEmptyElement(Arr(elems)) <==> |elems| == 0
    ensures IsEmptyElement(Null) && !IsEmptyElement(Arr([Null]))
  {
  }
}
