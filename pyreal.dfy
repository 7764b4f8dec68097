/** Python's numeric built-ins used by main.py, over exact reals. */
module PyReal {

  /** Python's abs() on a float. */
  function Abs(x: real): real {
    if x < 0.0 then -x else x
  }

  /** Python's int() on a float: truncation toward zero (not Dafny's Floor). */
  function Trunc(r: real): int {
    if r >= 0.0 then r.Floor else -((-r).Floor)
  }

  /** Truncation never moves away from zero by a whole unit or more. */
  lemma TruncBounds(r: real)
    ensures r >= 0.0 ==> Trunc(r) as real <= r < Trunc(r) as real + 1.0
    ensures r < 0.0 ==> Trunc(r) as real - 1.0 < r <= Trunc(r) as real
  {
  }

  /** The k-th element start + k*step of an arithmetic progression. */
  function Nth(start: real, step: real, k: int): real {
    start + k as real * step
  }

  /** Advancing by one step from the k-th element gives the (k+1)-th, as `x += step` does. */
  lemma NthNext(start: real, step: real, k: int)
    ensures Nth(start, step, k) + step == Nth(start, step, k + 1)
  {
  }
}
