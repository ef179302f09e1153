/**
 * Real-number stand-ins for the floating-point primitives the hand-control
 * pipeline relies on. Floats are modelled as mathematical reals; `numpy.sqrt`
 * and `numpy.arctan2` are supplied as parameters (a `Numerics` value) that
 * satisfy the axioms stated by `Sound`, and every property that needs them is
 * proved for every such implementation.
 */
module RealMath {

  /** The value of `numpy.pi` as a real. */
  const Pi: real := 3.141592653589793

  /**
   * A decimal just above the true pi/2 (1.57079632679489661923...): every
   * first-quadrant arctangent, exact or rounded to the nearest double, lies
   * below it, while `Pi / 2.0` itself lies slightly below pi/2.
   */
  const HalfPiAbove: real := 1.5707963267948967

  function Abs(x: real): (r: real)
    ensures 0.0 <= r && (r == x || r == -x)
  {
    if x < 0.0 then -x else x
  }

  function Max(a: int, b: int): (r: int)
    ensures a <= r && b <= r && (r == a || r == b)
  {
    if a < b then b else a
  }

  function Min(a: int, b: int): (r: int)
    ensures r <= a && r <= b && (r == a || r == b)
  {
    if a < b then a else b
  }

  /** Python's `int(x)` on a float: truncation toward zero. */
  function Trunc(x: real): (n: int)
    ensures 0.0 <= x ==> n as real <= x < n as real + 1.0
    ensures x < 0.0 ==> n as real - 1.0 < x <= n as real
  {
    if 0.0 <= x then x.Floor else -((-x).Floor)
  }

  /** Truncating a value that lies between two integers stays between them. */
  lemma TruncBetween(x: real, lo: int, hi: int)
    requires lo as real <= x <= hi as real
    ensures lo <= Trunc(x) <= hi
  {
  }

  /** `sqrt` behaves as the nonnegative square root on nonnegative arguments. */
  ghost predicate IsSqrt(sqrt: real -> real)
  {
    forall x :: 0.0 <= x ==> 0.0 <= sqrt(x) && sqrt(x) * sqrt(x) == x
  }

  /**
   * `arctan2(y, x)` for a nonnegative `y` and a positive `x` is an angle in
   * the first quadrant.
   */
  ghost predicate IsArcTan2(arctan2: (real, real) -> real)
  {
    forall y, x :: 0.0 <= y && 0.0 < x ==> 0.0 <= arctan2(y, x) <= HalfPiAbove
  }

  /** The numeric library the pipeline calls into (numpy's sqrt and arctan2). */
  datatype Numerics = Numerics(sqrt: real -> real, arctan2: (real, real) -> real)

  ghost predicate Sound(num: Numerics)
  {
    IsSqrt(num.sqrt) && IsArcTan2(num.arctan2)
  }

  lemma ProductPositive(a: real, b: real)
    requires 0.0 < a && 0.0 < b
    ensures 0.0 < a * b
  {
  }

  /** Squaring is strictly increasing on the nonnegative reals. */
  lemma SquareStrictlyIncreasing(r: real, s: real)
    requires 0.0 <= r && 0.0 <= s
    ensures r < s ==> r * r < s * s
  {
    if r < s {
      ProductPositive(s - r, s + r);
    }
  }

  /** For nonnegative reals, comparing the squares compares the values. */
  lemma SquareLessIff(r: real, s: real)
    requires 0.0 <= r && 0.0 <= s
    ensures r < s <==> r * r < s * s
  {
    SquareStrictlyIncreasing(r, s);
    SquareStrictlyIncreasing(s, r);
  }

  /** Two nonnegative reals with the same square are equal. */
  lemma SquareInjective(r: real, s: real)
    requires 0.0 <= r && 0.0 <= s && r * r == s * s
    ensures r == s
  {
    SquareStrictlyIncreasing(r, s);
    SquareStrictlyIncreasing(s, r);
  }

  lemma SqrtZero(num: Numerics)
    requires Sound(num)
    ensures num.sqrt(0.0) == 0.0
  {
    var r := num.sqrt(0.0);
    assert r * r == 0.0;
    SquareInjective(r, 0.0);
  }

  /** sqrt(k*k*x) == k*sqrt(x) for a nonnegative factor k. */
  lemma SqrtScale(num: Numerics, k: real, x: real)
    requires Sound(num) && 0.0 <= k && 0.0 <= x
    ensures num.sqrt(k * k * x) == k * num.sqrt(x)
  {
    var r := num.sqrt(x);
    assert r * r == x;
    assert 0.0 <= k * k * x;
    var s := num.sqrt(k * k * x);
    assert s * s == k * k * x;
    assert (k * r) * (k * r) == k * k * (r * r);
    SquareInjective(s, k * r);
  }

  /** A square-root comparison is the comparison of squares. */
  lemma SqrtLessIff(num: Numerics, x: real, t: real)
    requires Sound(num) && 0.0 <= x && 0.0 < t
    ensures num.sqrt(x) < t <==> x < t * t
  {
    var r := num.sqrt(x);
    assert r * r == x && 0.0 <= r;
    SquareLessIff(r, t);
  }
}
