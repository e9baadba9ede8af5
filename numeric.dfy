/**
 * Arithmetic helpers for the JavaScript idioms the game code relies on:
 * `Math.min`/`Math.max`, `x || d` on numbers, `Math.pow` with a whole exponent,
 * `Math.floor(Math.random() * n)` and the trip count of `for (i = 0; i < c; i++)`.
 * JavaScript numbers are modelled as exact reals.
 */
module Numeric {

  /** A value returned by `Math.random()`. */
  type Unit = r: real | 0.0 <= r < 1.0

  function Min(a: real, b: real): real { if a <= b then a else b }

  function Max(a: real, b: real): real { if a >= b then a else b }

  /** `x || d` on a number: zero is falsy (NaN never occurs in the model). */
  function OrElse(x: real, d: real): real { if x != 0.0 then x else d }

  /** `Math.pow(b, n)` for a whole exponent. */
  function Pow(b: real, n: nat): real
  {
    if n == 0 then 1.0 else b * Pow(b, n - 1)
  }

  lemma {:induction false} PowAtLeastOne(b: real, n: nat)
    requires b >= 1.0
    ensures Pow(b, n) >= 1.0
  {
    if n > 0 {
      PowAtLeastOne(b, n - 1);
      var q := Pow(b, n - 1);
      assert b * q >= 1.0 * q by {
        assert (b - 1.0) * q >= 0.0;
      }
    }
  }

  /** A growth factor of at least 1 never makes the power smaller. */
  lemma {:induction false} PowStep(b: real, n: nat)
    requires b >= 1.0
    ensures Pow(b, n + 1) >= Pow(b, n)
  {
    PowAtLeastOne(b, n);
    var q := Pow(b, n);
    assert (b - 1.0) * q >= 0.0;
  }

  /** `Math.floor(Math.random() * n)`: always a valid index of a list of length n. */
  function Index(u: Unit, n: nat): (i: nat)
    requires n > 0
    ensures i < n
  {
    var x := u * (n as real);
    assert 0.0 <= x by { assert 0.0 <= u && 0.0 <= n as real; }
    assert x < n as real by { assert (1.0 - u) * (n as real) > 0.0; }
    x.Floor
  }

  /**
   * The number of passes of `for (let i = 0; i < c; i++)` when `c` is any real:
   * the least natural number that is at least `c`.
   */
  function Iterations(c: real): (n: nat)
    ensures c <= n as real
    ensures n > 0 ==> ((n - 1) as real) < c
  {
    if c <= 0.0 then 0 else -((-c).Floor)
  }
}
