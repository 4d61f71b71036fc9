/**
 * The generic-outside-class lesson: two array helpers written once with a type
 * parameter `T` and once over `unknown[]`.
 */
module GenericOutsideClass {
  import opened Js

  /** `countElementInArray1<T>(elements)`: the number of elements. */
  function CountElementInArray1<T>(elements: seq<T>): (count: nat)
  {
    |elements|
  }

  /** `returnFirstElementInArray1<T>(elements)`: the first element, or `undefined` when there is none. */
  function ReturnFirstElementInArray1<T>(elements: seq<T>): (first: Option<T>)
  {
    if |elements| > 0 then Some(elements[0]) else None
  }

  /** `countElementInArray2(elements: unknown[])`. */
  function CountElementInArray2(elements: seq<JsValue>): (count: nat)
  {
    |elements|
  }

  /**
   * `returnFirstElementInArray2(elements: unknown[])`: with `unknown` elements the
   * `undefined` of an empty array is itself one of the possible elements.
   */
  function ReturnFirstElementInArray2(elements: seq<JsValue>): (first: JsValue)
  {
    if |elements| > 0 then elements[0] else Undefined
  }

  /** Every element of a `T[]` seen as `unknown`, as passing it to an `unknown[]` parameter does. */
  function Widen<T>(elements: seq<T>, toUnknown: T -> JsValue): (widened: seq<JsValue>)
  {
    seq(|elements|, i requires 0 <= i < |elements| => toUnknown(elements[i]))
  }

  /** The `unknown[]` helpers give the generic helpers' results on every input. */
  lemma UnknownVariantsAgree<T>(elements: seq<T>, toUnknown: T -> JsValue)
    ensures CountElementInArray2(Widen(elements, toUnknown)) == CountElementInArray1(elements)
    ensures ReturnFirstElementInArray2(Widen(elements, toUnknown))
            == match ReturnFirstElementInArray1(elements)
               case None => Undefined
               case Some(x) => toUnknown(x)
  {
  }

  /** The JavaScript value a `T | undefined` result holds, for `T` = `unknown`. */
  function Undefinable(first: Option<JsValue>): (v: JsValue)
  {
    match first
    case None => Undefined
    case Some(x) => x
  }

  /**
   * In JavaScript both helpers return `undefined` for an empty array and for an
   * array whose first element is `undefined`: the caller cannot tell the two apart.
   */
  lemma EmptyAndUndefinedFirstCoincide()
    ensures ReturnFirstElementInArray2([]) == ReturnFirstElementInArray2([Undefined]) == Undefined
    ensures Undefinable(ReturnFirstElementInArray1<JsValue>([]))
            == Undefinable(ReturnFirstElementInArray1([Undefined])) == Undefined
  {
  }

  /** The lesson's calls on [1, 2, 3]: count 3, first element 1, for both variants. */
  lemma SampleCalls()
    ensures CountElementInArray1([1, 2, 3]) == 3 && ReturnFirstElementInArray1([1, 2, 3]) == Some(1)
    ensures CountElementInArray2([Number(1), Number(2), Number(3)]) == 3
    ensures ReturnFirstElementInArray2([Number(1), Number(2), Number(3)]) == Number(1)
  {
  }
}
