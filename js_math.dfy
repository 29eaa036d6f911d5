/** The two JavaScript rounding operations the dashboard uses, on idealised (real) numbers. */
module JsMath {

  /** `Math.round(x)`: the nearest integer, halves rounded towards +infinity. */
  function Round(x: real): (r: int)
    ensures r as real - 0.5 <= x < r as real + 0.5
  {
    (x + 0.5).Floor
  }

  /** True when `x` has at most one decimal digit. */
  predicate IsTenths(x: real)
  {
    (x * 10.0).Floor as real == x * 10.0
  }

  /** `+x.toFixed(1)`: the nearest multiple of 0.1, halves rounded up. For a non-negative `x`,
      the only kind the audit ratio passes, this is what `toFixed` does; for a negative `x` a
      half is rounded toward positive infinity here (-1.25 gives -1.2) where `toFixed` rounds it
      away from zero (-1.3). */
  function RoundTenths(x: real): (r: real)
    ensures IsTenths(r)
    ensures x - 0.05 < r <= x + 0.05
  {
    var n := Round(x * 10.0);
    assert (n as real / 10.0) * 10.0 == n as real;
    n as real / 10.0
  }

  /** `a / b == c` whenever `b * c == a` and `b` is not zero. */
  lemma Quotient(a: real, b: real, c: real)
    requires b != 0.0 && b * c == a
    ensures a / b == c
  {
  }
}
