/** Small shared vocabulary: optional values, results, and the real-number
    helpers the grid arithmetic needs (powers, absolute value, rounding to
    six decimal places). */
module Basics {

  /** A value that may be missing, like Python's `None`. */
  datatype Option<+T> = None | Some(value: T)

  /** The outcome of an operation that may raise. */
  datatype Result<+T, +E> = Ok(value: T) | Err(error: E)

  /** `x ** n` for a natural exponent. */
  function Pow(x: real, n: nat): real
  {
    if n == 0 then 1.0 else x * Pow(x, n - 1)
  }

  function Abs(x: real): (r: real)
    ensures r >= 0.0
    ensures r == x || r == -x
  {
    if x < 0.0 then -x else x
  }

  /** Decimal rounding to six places, ties rounded up. */
  function Round6(x: real): (r: real)
    ensures x - 1.0 / 2000000.0 < r <= x + 1.0 / 2000000.0
  {
    var k := (x * 1000000.0 + 0.5).Floor;
    assert k as real <= x * 1000000.0 + 0.5 < k as real + 1.0;
    k as real / 1000000.0
  }

  /** Rounding never reverses the order of two prices. */
  lemma Round6Monotone(x: real, y: real)
    requires x <= y
    ensures Round6(x) <= Round6(y)
  {
    var a := (x * 1000000.0 + 0.5).Floor;
    var b := (y * 1000000.0 + 0.5).Floor;
    assert a as real <= x * 1000000.0 + 0.5 <= y * 1000000.0 + 0.5 < b as real + 1.0;
    assert a <= b;
  }

  lemma {:induction false} PowPositive(x: real, n: nat)
    requires x > 0.0
    ensures Pow(x, n) > 0.0
  {
    if n > 0 {
      PowPositive(x, n - 1);
    }
  }

  lemma {:induction false} PowOfOne(n: nat)
    ensures Pow(1.0, n) == 1.0
  {
    if n > 0 {
      PowOfOne(n - 1);
    }
  }

  /** Multiplying a positive number by a factor above one makes it larger. */
  lemma MulGrows(x: real, p: real, q: real)
    requires x > 1.0 && p > 0.0 && q == x * p
    ensures p < q
  {
    assert q - p == (x - 1.0) * p;
    assert (x - 1.0) * p > 0.0;
  }

  /** For a base above one, each further power is larger. */
  lemma PowStep(x: real, n: nat)
    requires x > 1.0
    ensures Pow(x, n) < Pow(x, n + 1)
  {
    PowPositive(x, n);
    MulGrows(x, Pow(x, n), Pow(x, n + 1));
  }

  /** For a base above one, a larger exponent gives a strictly larger power. */
  lemma {:induction false} PowStrictlyIncreasing(x: real, i: nat, j: nat)
    requires x > 1.0
    requires i < j
    ensures Pow(x, i) < Pow(x, j)
    decreases j
  {
    var k: nat := j - 1;
    PowStep(x, k);
    assert k + 1 == j;
    if i < k {
      PowStrictlyIncreasing(x, i, k);
    }
  }
}
