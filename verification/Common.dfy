/** Small vocabulary shared by every module of the project. */
module Common {

  datatype Option<+T> = None | Some(value: T)

  datatype Result<+T, +E> = Ok(value: T) | Err(error: E)

  /** Entry direction: `Buy` opens a long position, `Sell` opens a short one. */
  datatype Side = Buy | Sell

  function Min(a: real, b: real): real {
    if a <= b then a else b
  }

  function Max(a: real, b: real): real {
    if a >= b then a else b
  }

  function Abs(a: real): real {
    if a >= 0.0 then a else -a
  }

  lemma MulMono(a: real, b: real, c: real)
    requires a <= b && 0.0 <= c
    ensures a * c <= b * c && c * a <= c * b
  {
  }

  lemma DivTimes(a: real, b: real)
    requires b != 0.0
    ensures a / b * b == a && b * (a / b) == a
  {
  }

  lemma RatioAtLeast(a: real, b: real, floor: real)
    requires b > 0.0 && a / b >= floor
    ensures a >= floor * b
  {
    DivTimes(a, b);
    MulMono(floor, a / b, b);
  }

  lemma DivMono(a: real, b: real, c: real)
    requires a <= b && c > 0.0
    ensures a / c <= b / c
  {
    DivTimes(a, c);
    DivTimes(b, c);
  }
}
