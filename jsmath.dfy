/** JavaScript numbers and the Math object, as far as the calculator relies on them.

    A number is either finite (an exact real; rounding is not modelled) or not
    (NaN, +Infinity and -Infinity are one case, because the code only ever asks
    Number.isFinite). Math.PI is the shortest decimal that reads back as its double, taken as an exact real.
    The transcendental functions are not defined here: they arrive as fields of a
    MathLib value, and the laws the proofs need are collected in Sound. */
module JsMath {

  datatype Num = Finite(r: real) | NonFinite

  /** Math.PI */
  const PI: real := 3.141592653589793

  /** `x / y` on finite operands: division by zero gives Infinity or NaN. */
  function Div(x: real, y: real): (q: Num)
    ensures q.Finite? <==> y != 0.0
    ensures q.Finite? ==> q.r * y == x
  {
    if y == 0.0 then NonFinite else Finite(x / y)
  }

  /** The value of a number the code has already found finite; a non-finite number has none and 0.0 stands
      in for it, so arithmetic on values stays total. */
  function Value(x: Num): real {
    if x.Finite? then x.r else 0.0
  }

  datatype MathLib = MathLib(
    sqrt: real -> real,
    sin: real -> real,
    cos: real -> real,
    tan: real -> real,
    atan2: (real, real) -> real,
    acos: real -> real,
    asin: real -> real)

  /** The laws of Math.sqrt, Math.sin and Math.cos that the proofs use (exact, ignoring rounding). Each law is
      stated at a point, so that a proof instantiates it only where it names that point (SqrtLaw, SqrtStrict,
      TrigLaw below). */
  ghost predicate Sound(m: MathLib) {
    && (forall x :: SqrtAt(m, x))
    && (forall x, y :: SqrtOrderAt(m, x, y))
    && (forall x :: TrigAt(m, x))
  }

  /** √x is a non-negative number, positive when x is, whose square is x. */
  ghost predicate SqrtAt(m: MathLib, x: real) {
    0.0 <= x ==> 0.0 <= m.sqrt(x) && (0.0 < x ==> 0.0 < m.sqrt(x)) && m.sqrt(x) * m.sqrt(x) == x
  }

  /** √ is strictly increasing on the non-negative numbers. */
  ghost predicate SqrtOrderAt(m: MathLib, x: real, y: real) {
    0.0 <= x < y ==> m.sqrt(x) < m.sqrt(y)
  }

  /** sin²x + cos²x = 1. */
  ghost predicate TrigAt(m: MathLib, x: real) {
    m.sin(x) * m.sin(x) + m.cos(x) * m.cos(x) == 1.0
  }

  lemma TrigLaw(m: MathLib, x: real)
    requires Sound(m)
    ensures m.sin(x) * m.sin(x) + m.cos(x) * m.cos(x) == 1.0
  {
    assert TrigAt(m, x);
  }

  /** The square root of a square is the non-negative base. */
  lemma SqrtOfSquare(m: MathLib, y: real, x: real)
    requires Sound(m) && 0.0 <= y && x == y * y
    ensures m.sqrt(x) == y
  {
    assert SqrtAt(m, x);
    var s := m.sqrt(x);
    assert 0.0 <= s && s * s == y * y;
    assert (s - y) * (s + y) == 0.0;
    ZeroProduct(s - y, s + y);
  }

  lemma ZeroProduct(p: real, q: real)
    requires p * q == 0.0
    ensures p == 0.0 || q == 0.0
  {
    if p != 0.0 {
      assert q == (p * q) / p;
    }
  }

  /** The square of a non-zero number is positive. */
  lemma SquarePositive(x: real)
    requires x != 0.0
    ensures x * x > 0.0
  {
  }

  /** The difference of the squares of 0 < b < c is positive. */
  lemma SquareGap(b: real, c: real)
    requires 0.0 < b < c
    ensures c * c - b * b > 0.0
  {
  }

  /** A sum of two squares is non-negative. */
  lemma SumOfSquaresNonNegative(x: real, y: real)
    ensures 0.0 <= x * x + y * y
  {
  }

  /** With two non-zero legs, each squared leg is below the sum of the squares. */
  lemma SquaresBelowSum(a: real, b: real)
    requires a != 0.0 && b != 0.0
    ensures a * a < a * a + b * b && b * b < a * a + b * b
  {
  }

  /** The hypotenuse √(a² + b²) of two positive legs is longer than either leg. */
  lemma HypotenuseLonger(m: MathLib, a: real, b: real)
    requires Sound(m) && 0.0 < a && 0.0 < b
    ensures a < m.sqrt(a * a + b * b) && b < m.sqrt(a * a + b * b)
  {
    SquarePositive(a);
    SquarePositive(b);
    SquaresBelowSum(a, b);
    assert SqrtOrderAt(m, a * a, a * a + b * b);
    assert SqrtOrderAt(m, b * b, a * a + b * b);
    SqrtOfSquare(m, a, a * a);
    SqrtOfSquare(m, b, b * b);
  }
}
