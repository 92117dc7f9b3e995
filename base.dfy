/** Values that JavaScript represents as "possibly undefined or null". */
module Base {

  /** A present value, or JavaScript's `undefined`/`null`. */
  datatype Option<+T> = None | Some(value: T)

  function Min(a: real, b: real): (r: real)
    ensures r <= a && r <= b
    ensures r == a || r == b
  {
    if a <= b then a else b
  }

  function Max(a: real, b: real): (r: real)
    ensures r >= a && r >= b
    ensures r == a || r == b
  {
    if a >= b then a else b
  }
}
