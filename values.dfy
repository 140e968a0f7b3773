/**
 * Runtime values of the language. Both evaluators carry them untyped
 * (`std::any` in C++, `Object` in Java); here they are a closed sum.
 * Numbers are exact reals: IEEE-754 rounding, infinities and NaN are not modelled.
 */
module Values {

  datatype Value = Nil | Bool(b: bool) | Num(n: real) | Str(s: string)

  /**
   * The quotient of two numbers. A `double` division by zero gives an
   * infinity or NaN, which exact reals do not have; it is 0 here.
   */
  function Quotient(x: real, y: real): real
  {
    if y == 0.0 then 0.0 else x / y
  }

  /** The dynamic type of a value, the analogue of `std::any::type()` / `getClass()`. */
  datatype Tag = NilTag | BoolTag | NumTag | StrTag

  function TagOf(v: Value): Tag
  {
    match v
    case Nil => NilTag
    case Bool(_) => BoolTag
    case Num(_) => NumTag
    case Str(_) => StrTag
  }
}
