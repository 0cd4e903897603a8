/** Small shared vocabulary: an optional value and the integer `Math.min` / `Math.max`. */
module Common {

  /** A value that may be absent (`null` / `undefined` in the original). */
  datatype Option<T> = None | Some(value: T) {
    function GetOr(default: T): T {
      match this
      case Some(v) => v
      case None => default
    }
  }

  function Min(a: int, b: int): (r: int)
    ensures r <= a && r <= b && (r == a || r == b)
  {
    if a <= b then a else b
  }

  function Max(a: int, b: int): (r: int)
    ensures r >= a && r >= b && (r == a || r == b)
  {
    if a >= b then a else b
  }

  /** A number read from a form field with `parseInt`: either an integer or `NaN`. */
  datatype Numeric = Num(n: int) | NaN
}
