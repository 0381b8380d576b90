/**
 * Real arithmetic used by the error-propagation formulas. Doubles are read as
 * mathematical reals; the <cmath> functions the core calls (std::sqrt, std::pow,
 * std::log) are parameters of the model, constrained only as far as the core
 * relies on them.
 */
module RealMath {

  /** x squared, the form in which every formula combines standard deviations. */
  function Sq(x: real): (r: real)
    ensures 0.0 <= r
  {
    x * x
  }

  /** std::abs on doubles. */
  function Abs(x: real): (r: real)
    ensures 0.0 <= r && Sq(r) == Sq(x)
    ensures r == x || r == -x
  {
    if x < 0.0 then -x else x
  }

  /**
   * The three <cmath> functions the core calls. `Valid` says that `sqrt` is the
   * non-negative square root on non-negative arguments and that `pow` with
   * exponent 2 squares its base; nothing is assumed about `log` or about `pow`
   * with any other exponent.
   */
  datatype Libm = Libm(sqrt: real -> real, pow: (real, real) -> real, log: real -> real)
  {
    ghost predicate Valid() {
      && (forall x :: 0.0 <= x ==> 0.0 <= sqrt(x) && Sq(sqrt(x)) == x)
      && (forall x :: pow(x, 2.0) == Sq(x))
    }
  }

  /** The non-negative square root is unique. */
  lemma SqrtUnique(r1: real, r2: real)
    requires 0.0 <= r1 && 0.0 <= r2
    requires Sq(r1) == Sq(r2)
    ensures r1 == r2
  {
    if r1 != r2 {
      SquareIncreasing(if r1 < r2 then r1 else r2, if r1 < r2 then r2 else r1);
    }
  }

  /** Squaring is strictly increasing on the non-negative reals. */
  lemma SquareIncreasing(lo: real, hi: real)
    requires 0.0 <= lo < hi
    ensures Sq(lo) < Sq(hi)
  {
    var a, b := lo * lo, lo * hi;
    assert a <= b;
    assert b < hi * hi;
    assert Sq(lo) == a && Sq(hi) == hi * hi;
  }

  /** A non-zero real has a positive square. */
  lemma SqPositive(y: real)
    requires y != 0.0
    ensures 0.0 < Sq(y)
  {
    if y < 0.0 {
      SquareIncreasing(0.0, -y);
    } else {
      SquareIncreasing(0.0, y);
    }
  }

  lemma SqProduct(x: real, y: real)
    ensures Sq(x * y) == Sq(x) * Sq(y)
  {
  }

  lemma SqQuotient(x: real, y: real)
    requires y != 0.0
    ensures Sq(x / y) * Sq(y) == Sq(x)
  {
    var q := x / y;
    assert q * y == x;
  }

  /** A non-zero factor cancels from both sides of an equation. */
  lemma Cancel(a: real, b: real, c: real)
    requires c != 0.0 && a * c == b * c
    ensures a == b
  {
    assert a == a * c / c;
    assert b == b * c / c;
  }

  /** The square of p·q / d² times d² is (p/d)²·q². */
  lemma SqOverSquare(p: real, q: real, d: real)
    requires d != 0.0
    ensures 0.0 < Sq(d)
    ensures Sq(p * q / Sq(d)) * Sq(d) == Sq(p / d) * Sq(q)
  {
    SqPositive(d);
    var s := p * q / Sq(d);
    SqQuotient(p * q, Sq(d));
    SqProduct(p, q);
    SqQuotient(p, d);
    var c := Sq(d);
    assert Sq(s) * (c * c) == Sq(p) * Sq(q);
    assert (Sq(s) * c) * c == (Sq(p / d) * Sq(q)) * c;
    Cancel(Sq(s) * c, Sq(p / d) * Sq(q), c);
  }

  /** Dividing |p| or p by the same d gives the same square. */
  lemma SqAbsQuotient(p: real, d: real)
    requires d != 0.0
    ensures Sq(Abs(p) / d) == Sq(p / d)
  {
    SqPositive(d);
    SqQuotient(Abs(p), d);
    SqQuotient(p, d);
    Cancel(Sq(Abs(p) / d), Sq(p / d), Sq(d));
  }
}
