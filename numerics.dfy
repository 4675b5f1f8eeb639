/** Numbers as the engine uses them: JavaScript doubles are modelled as reals,
    Math.random() as a tape of draws in [0, 1), and the transcendental
    functions (Math.sin, Math.cos, Math.sqrt, Math.pow) as uninterpreted
    function values supplied by the caller. */
module Numerics {

  /** Math.PI, as the real number its double stands for. */
  const PI: real := 3.141592653589793
  const PI_2: real := PI * 2.0
  const PI_HALF: real := PI * 0.5

  /** A value Math.random() can return. */
  type Unit = r: real | 0.0 <= r < 1.0 witness 0.0

  /** The sequence of values successive Math.random() calls return, and how many
      of them have been consumed. */
  datatype Random = Random(tape: nat -> Unit, pos: nat) {
    /** The value the next Math.random() call returns. */
    function Peek(): Unit { tape(pos) }
    /** The tape after one Math.random() call. */
    function Skip(): Random { Random(tape, pos + 1) }
  }

  /** Math.sin, Math.cos, Math.sqrt and Math.pow. */
  datatype MathLib = MathLib(sin: real -> real, cos: real -> real, sqrt: real -> real, pow: (real, real) -> real) {

    /** What the ring geometry of a burst relies on: cos(0) = 1, cos does not
        increase on [0, PI/2] and stays non-negative there, and the square root of
        a positive number is positive. Real trigonometry satisfies all of it. */
    ghost predicate Sane() {
      cos(0.0) == 1.0 &&
      (forall a: real, b: real {:trigger cos(a), cos(b)} :: 0.0 <= a <= b <= PI_HALF ==> 0.0 <= cos(b) <= cos(a)) &&
      (forall v: real {:trigger sqrt(v)} :: v > 0.0 ==> sqrt(v) > 0.0)
    }

    /** Math.pow(d, e) grows with d for a fixed positive exponent e. */
    ghost predicate PowIncreasing(e: real) {
      forall a: real, b: real {:trigger pow(a, e), pow(b, e)} :: 0.0 <= a < b ==> pow(a, e) < pow(b, e)
    }
  }

  /** The number of iterations of `for (let i = 0; i < bound; i++)`: the least
      natural number that is not below the bound. */
  function LoopCount(bound: real): (n: nat)
    ensures (n as real) >= bound
    ensures n == 0 || ((n - 1) as real) < bound
    ensures n == 0 <==> bound <= 0.0
  {
    if bound <= 0.0 then 0
    else
      var f := bound.Floor;
      if f as real == bound then f else f + 1
  }

  /** The number of iterations of `for (let i = 0; i <= bound; i++)`: the least
      natural number above the bound. */
  function InclusiveLoopCount(bound: real): (n: nat)
    ensures (n as real) > bound
    ensures n == 0 || ((n - 1) as real) <= bound
  {
    if bound < 0.0 then 0 else bound.Floor + 1
  }

  /** Math.max(a, b) on numbers that are not NaN. */
  function Max(a: real, b: real): (m: real)
    ensures m >= a && m >= b && (m == a || m == b)
  {
    if a >= b then a else b
  }

  /** Division by a positive number shifts by one when the dividend drops by the divisor. */
  lemma DivShift(a: real, f: real)
    requires f > 0.0
    ensures (a - f) / f == a / f - 1.0
  {
    assert (a - f) / f * f == a - f;
    assert (a / f - 1.0) * f == a / f * f - f;
    CancelPositive((a - f) / f, a / f - 1.0, f);
  }

  lemma MulNonNegative(a: real, b: real)
    requires a >= 0.0 && b >= 0.0
    ensures a * b >= 0.0
  {
  }

  lemma MulPositive(a: real, b: real)
    requires a > 0.0 && b > 0.0
    ensures a * b > 0.0
  {
  }

  lemma CancelPositive(x: real, y: real, f: real)
    requires f > 0.0 && x * f == y * f
    ensures x == y
  {
  }

  /** A draw scaled by a positive width lies in [0, width). */
  lemma ScaledDraw(u: Unit, w: real)
    requires w > 0.0
    ensures 0.0 <= u * w < w
  {
    MulNonNegative(u, w);
    assert w - u * w == (1.0 - u) * w;
    MulPositive(1.0 - u, w);
  }

  /** The same, as implications. */
  lemma DrawBounds(u: Unit, w: real)
    ensures w >= 0.0 ==> 0.0 <= u * w <= w
    ensures w > 0.0 ==> u * w < w
  {
    if w > 0.0 {
      ScaledDraw(u, w);
    }
  }

  lemma ProductSign(a: real, b: real)
    ensures a >= 0.0 && b >= 0.0 ==> a * b >= 0.0
  {
    if a >= 0.0 && b >= 0.0 {
      MulNonNegative(a, b);
    }
  }

  lemma MulMonotone(a: real, b: real, w: real)
    requires a <= b && w >= 0.0
    ensures a * w <= b * w
  {
    MulNonNegative(b - a, w);
    assert b * w - a * w == (b - a) * w;
  }

  lemma MulAssoc(a: real, b: real, c: real)
    ensures a * b * c == a * (b * c)
  {
  }
}
