/**
 * The JavaScript value semantics the views rely on when they read an amount out of fetched
 * JSON or out of a form field. Amounts are whole Rupiah, so a JavaScript number is an integer
 * or NaN.
 */
module JsValues {

  /** A JSON field or form value as the components see it. */
  datatype Raw =
    | Undefined      // the field is absent
    | Null           // the field is JSON null
    | Blank          // the empty string ""
    | Num(n: int)    // a number, or a string that reads as that number ("1500", "1500.00")
    | Junk           // a string with no numeric reading at all, such as "abc"

  /** A JavaScript number restricted to whole amounts. */
  datatype JsNumber = Finite(v: int) | NaN

  /** `Number(x)`: null and "" become 0, undefined and a non-numeric string become NaN. */
  function ToNumber(x: Raw): (r: JsNumber)
    ensures r.NaN? <==> x.Undefined? || x.Junk?
    ensures x.Null? || x.Blank? ==> r == Finite(0)
    ensures x.Num? ==> r == Finite(x.n)
  {
    match x
    case Undefined => NaN
    case Null => Finite(0)
    case Blank => Finite(0)
    case Num(n) => Finite(n)
    case Junk => NaN
  }

  /** JavaScript truthiness: 0, "", null and undefined are falsy; a non-empty string is truthy. */
  predicate Truthy(x: Raw)
  {
    match x
    case Num(n) => n != 0
    case Junk => true
    case _ => false
  }

  /** `x || 0`. */
  function OrZero(x: Raw): (r: Raw)
    ensures r.Num? || r.Junk?
    ensures r.Junk? <==> x.Junk?
    ensures Truthy(x) ==> r == x
    ensures !Truthy(x) ==> r == Num(0)
  {
    if Truthy(x) then x else Num(0)
  }

  /** `Number(x || 0)`: every empty value counts as 0; a non-numeric string still gives NaN. */
  function NumberOrZero(x: Raw): (r: JsNumber)
    ensures r.NaN? <==> x.Junk?
    ensures x.Num? ==> r == Finite(x.n)
    ensures !x.Num? && !x.Junk? ==> r == Finite(0)
  {
    ToNumber(OrZero(x))
  }

  /** `parseFloat(x) || 0`: anything without a numeric reading, NaN included, counts as 0. */
  function ParseFloatOrZero(x: Raw): (r: int)
    ensures x.Num? ==> r == x.n
    ensures r != 0 ==> x == Num(r)
  {
    if x.Num? then x.n else 0
  }

  /** `a + b` on numbers: NaN absorbs. */
  function Plus(a: JsNumber, b: JsNumber): (r: JsNumber)
    ensures r.NaN? <==> a.NaN? || b.NaN?
    ensures r.Finite? ==> r.v == a.v + b.v
  {
    if a.Finite? && b.Finite? then Finite(a.v + b.v) else NaN
  }

  /** `a - b` on numbers: NaN absorbs. */
  function Minus(a: JsNumber, b: JsNumber): (r: JsNumber)
    ensures r.NaN? <==> a.NaN? || b.NaN?
    ensures r.Finite? ==> r.v == a.v - b.v
  {
    if a.Finite? && b.Finite? then Finite(a.v - b.v) else NaN
  }

  /** `a === b` on numbers: NaN equals nothing, itself included. */
  predicate StrictEquals(a: JsNumber, b: JsNumber)
  {
    a.Finite? && b.Finite? && a.v == b.v
  }

  /** `a > 0`: false for NaN. */
  predicate Positive(a: JsNumber)
  {
    a.Finite? && a.v > 0
  }
}
