/**
 * udouble: an uncertain double, nominal value plus standard deviation. The
 * arithmetic operators combine standard deviations by first-order propagation
 * for independent operands; the comparisons look at the nominal values only.
 */
module UDoubles {
  import opened Failures
  import opened RealMath
  import opened Measurements

  // ---------------------------------------------------------------------------
  // Arithmetic operators. Each builds its result through the checked
  // two-argument constructor `Make`, exactly as the operators do.
  // ---------------------------------------------------------------------------

  /** lhs + rhs: nominals add, variances add. */
  function Add(a: Measurement, b: Measurement, m: Libm): (r: Result<Measurement>)
    requires m.Valid()
    ensures r.Success? && r.value.Valid()
    ensures r.value.nominal == a.nominal + b.nominal
    ensures Sq(r.value.stddev) == Sq(a.stddev) + Sq(b.stddev)
  {
    Make(a.nominal + b.nominal, m.sqrt(Sq(a.stddev) + Sq(b.stddev)))
  }

  /** lhs - rhs: nominals subtract, variances still add. */
  function Sub(a: Measurement, b: Measurement, m: Libm): (r: Result<Measurement>)
    requires m.Valid()
    ensures r.Success? && r.value.Valid()
    ensures r.value.nominal == a.nominal - b.nominal
    ensures Sq(r.value.stddev) == Sq(a.stddev) + Sq(b.stddev)
  {
    Make(a.nominal - b.nominal, m.sqrt(Sq(a.stddev) + Sq(b.stddev)))
  }

  /** lhs * rhs: σ² = B²·σ_A² + A²·σ_B². */
  function Mul(a: Measurement, b: Measurement, m: Libm): (r: Result<Measurement>)
    requires m.Valid()
    ensures r.Success? && r.value.Valid()
    ensures r.value.nominal == a.nominal * b.nominal
    ensures Sq(r.value.stddev) == Sq(b.nominal) * Sq(a.stddev) + Sq(a.nominal) * Sq(b.stddev)
  {
    Make(a.nominal * b.nominal,
         m.sqrt(Sq(b.nominal) * Sq(a.stddev) + Sq(a.nominal) * Sq(b.stddev)))
  }

  /**
   * udouble * double: nominal scaled by k, spread scaled by |k|. It throws only
   * when the constructor sees a negative spread, which a valid operand never gives.
   */
  function MulScalar(a: Measurement, k: real): (r: Result<Measurement>)
    ensures r.Failure? <==> k != 0.0 && a.stddev < 0.0
    ensures r.Failure? ==> r.error == InvalidArgument
    ensures r.Success? ==> r.value.Valid() && r.value.nominal == a.nominal * k
    ensures r.Success? ==> Sq(r.value.stddev) == Sq(k) * Sq(a.stddev)
  {
    Make(a.nominal * k, a.stddev * Abs(k))
  }

  /** double * udouble, the mirror of `MulScalar`. */
  function ScalarMul(k: real, a: Measurement): (r: Result<Measurement>)
    ensures r.Failure? <==> k != 0.0 && a.stddev < 0.0
    ensures r.Failure? ==> r.error == InvalidArgument
    ensures r.Success? ==> r.value.Valid() && r.value.nominal == k * a.nominal
    ensures r.Success? ==> Sq(r.value.stddev) == Sq(k) * Sq(a.stddev)
  {
    Make(k * a.nominal, Abs(k) * a.stddev)
  }

  /**
   * lhs / rhs: a runtime error when the divisor's nominal is zero; otherwise
   * σ = sqrt(σ_A² + (A/B)²·σ_B²) / |B|.
   */
  function Div(a: Measurement, b: Measurement, m: Libm): (r: Result<Measurement>)
    requires m.Valid()
    ensures r.Failure? <==> b.nominal == 0.0
    ensures r.Failure? ==> r.error == RuntimeError
    ensures r.Success? ==> r.value.Valid() && r.value.nominal == a.nominal / b.nominal
    ensures r.Success? ==>
      Sq(r.value.stddev) * Sq(b.nominal) == Sq(a.stddev) + Sq(a.nominal / b.nominal) * Sq(b.stddev)
  {
    if b.nominal == 0.0 then Failure(RuntimeError)
    else
      var ratio := a.nominal / b.nominal;
      var root := m.sqrt(Sq(a.stddev) + Sq(ratio) * Sq(b.stddev));
      SqQuotient(root, Abs(b.nominal));
      Make(ratio, root / Abs(b.nominal))
  }

  /**
   * udouble / double: a runtime error when k is zero; otherwise nominal / k and
   * spread / |k| (the constructor rejects a negative spread).
   */
  function DivScalar(a: Measurement, k: real): (r: Result<Measurement>)
    ensures r.Failure? <==> k == 0.0 || a.stddev < 0.0
    ensures k == 0.0 ==> r == Failure(RuntimeError)
    ensures k != 0.0 && a.stddev < 0.0 ==> r == Failure(InvalidArgument)
    ensures r.Success? ==> r.value.Valid() && r.value.nominal == a.nominal / k
    ensures r.Success? ==> Sq(r.value.stddev) * Sq(k) == Sq(a.stddev)
  {
    if k == 0.0 then Failure(RuntimeError)
    else
      SqQuotient(a.stddev, Abs(k));
      Make(a.nominal / k, a.stddev / Abs(k))
  }

  /**
   * double / udouble: a runtime error when the divisor's nominal is zero;
   * otherwise k / B with spread |k|·σ_B / B².
   */
  function ScalarDiv(k: real, b: Measurement): (r: Result<Measurement>)
    ensures r.Failure? <==> b.nominal == 0.0 || (k != 0.0 && b.stddev < 0.0)
    ensures b.nominal == 0.0 ==> r == Failure(RuntimeError)
    ensures b.nominal != 0.0 && k != 0.0 && b.stddev < 0.0 ==> r == Failure(InvalidArgument)
    ensures r.Success? ==> r.value.Valid() && r.value.nominal == k / b.nominal
    ensures r.Success? ==> Sq(r.value.stddev) * Sq(b.nominal) == Sq(k / b.nominal) * Sq(b.stddev)
  {
    if b.nominal == 0.0 then Failure(RuntimeError)
    else
      SqOverSquare(Abs(k), b.stddev, b.nominal);
      SqAbsQuotient(k, b.nominal);
      Make(k / b.nominal, Abs(k) * b.stddev / Sq(b.nominal))
  }

  /**
   * pow(base, exp): a runtime error unless the base's nominal is positive;
   * otherwise nominal base^exp and σ = |base^exp| · sqrt((exp/base·σ_base)² + (ln base·σ_exp)²).
   */
  function Pow(base: Measurement, exp: Measurement, m: Libm): (r: Result<Measurement>)
    requires m.Valid()
    ensures r.Failure? <==> base.nominal <= 0.0
    ensures r.Failure? ==> r.error == RuntimeError
    ensures r.Success? ==> r.value.Valid() && r.value.nominal == m.pow(base.nominal, exp.nominal)
    ensures r.Success? ==>
      Sq(r.value.stddev) == Sq(m.pow(base.nominal, exp.nominal)) *
        (Sq(exp.nominal / base.nominal * base.stddev) + Sq(m.log(base.nominal) * exp.stddev))
  {
    if base.nominal <= 0.0 then Failure(RuntimeError)
    else
      var p := m.pow(base.nominal, exp.nominal);
      var root := m.sqrt(m.pow(exp.nominal / base.nominal * base.stddev, 2.0)
                         + m.pow(m.log(base.nominal) * exp.stddev, 2.0));
      SqProduct(Abs(p), root);
      Make(p, Abs(p) * root)
  }

  // ---------------------------------------------------------------------------
  // Comparisons: nominal values only.
  // ---------------------------------------------------------------------------

  /** `a < b`: strict, so never true of a value and itself, and asymmetric. */
  predicate Less(a: Measurement, b: Measurement): (r: bool)
    ensures r ==> a != b
    ensures r ==> !(b.nominal < a.nominal)
  {
    a.nominal < b.nominal
  }

  /** `a > b` is `b < a`. */
  predicate Greater(a: Measurement, b: Measurement): (r: bool)
    ensures r <==> Less(b, a)
  {
    a.nominal > b.nominal
  }

  /** `a <= b` is the negation of `a > b`: the nominals are totally ordered. */
  predicate LessEq(a: Measurement, b: Measurement): (r: bool)
    ensures r <==> !Greater(a, b)
  {
    a.nominal <= b.nominal
  }

  /** `a >= b` is `b <= a`, and the negation of `a < b`. */
  predicate GreaterEq(a: Measurement, b: Measurement): (r: bool)
    ensures r <==> LessEq(b, a)
    ensures r <==> !Less(a, b)
  {
    a.nominal >= b.nominal
  }

  /** `a == b` holds exactly when both `a <= b` and `a >= b`; it is reflexive. */
  predicate Equal(a: Measurement, b: Measurement): (r: bool)
    ensures r <==> LessEq(a, b) && GreaterEq(a, b)
    ensures a == b ==> r
  {
    a.nominal == b.nominal
  }

  /** `a != b` is the negation of `a == b`: one side is strictly smaller. */
  predicate NotEqual(a: Measurement, b: Measurement): (r: bool)
    ensures r <==> !Equal(a, b)
    ensures r <==> Less(a, b) || Greater(a, b)
  {
    a.nominal != b.nominal
  }

  // ---------------------------------------------------------------------------
  // Properties relating the operators to each other.
  // ---------------------------------------------------------------------------

  /** Two results with the same nominal and non-negative spreads of equal square are equal. */
  lemma SameMeasurement(x: Measurement, y: Measurement)
    requires x.Valid() && y.Valid()
    requires x.nominal == y.nominal && Sq(x.stddev) == Sq(y.stddev)
    ensures x == y
  {
    SqrtUnique(x.stddev, y.stddev);
  }

  /** Two results with the same nominal whose spreads satisfy the same equation σ²·c = t, c > 0, are equal. */
  lemma SameScaledMeasurement(x: Measurement, y: Measurement, c: real, t: real)
    requires x.Valid() && y.Valid() && x.nominal == y.nominal
    requires 0.0 < c && Sq(x.stddev) * c == t && Sq(y.stddev) * c == t
    ensures x == y
  {
    Cancel(Sq(x.stddev), Sq(y.stddev), c);
    SameMeasurement(x, y);
  }

  /** Subtraction propagates the spread exactly as addition does. */
  lemma SubSpreadIsAddSpread(a: Measurement, b: Measurement, m: Libm)
    requires m.Valid()
    ensures Sub(a, b, m).value.stddev == Add(a, b, m).value.stddev
  {
    SqrtUnique(Sub(a, b, m).value.stddev, Add(a, b, m).value.stddev);
  }

  /** Scaling by k from the left and from the right give the same value. */
  lemma ScalingCommutes(a: Measurement, k: real)
    ensures MulScalar(a, k) == ScalarMul(k, a)
  {
  }

  /** udouble * double is udouble * udouble with an exact (zero-spread) right operand. */
  lemma MulScalarIsExactMul(a: Measurement, k: real, m: Libm)
    requires m.Valid() && a.Valid()
    ensures MulScalar(a, k) == Mul(a, Measurement(k, 0.0), m)
  {
    var lhs, rhs := MulScalar(a, k), Mul(a, Measurement(k, 0.0), m);
    assert Sq(0.0) == 0.0;
    SameMeasurement(lhs.value, rhs.value);
  }

  /** udouble / double is udouble / udouble with an exact divisor. */
  lemma DivScalarIsExactDiv(a: Measurement, k: real, m: Libm)
    requires m.Valid() && a.Valid()
    ensures DivScalar(a, k) == Div(a, Measurement(k, 0.0), m)
  {
    if k != 0.0 {
      var lhs, rhs := DivScalar(a, k).value, Div(a, Measurement(k, 0.0), m).value;
      assert Sq(rhs.stddev) * Sq(k) == Sq(a.stddev) by {
        assert Sq(0.0) == 0.0;
      }
      SqPositive(k);
      SameScaledMeasurement(lhs, rhs, Sq(k), Sq(a.stddev));
    }
  }

  /** double / udouble is udouble / udouble with an exact dividend. */
  lemma ScalarDivIsExactDiv(k: real, b: Measurement, m: Libm)
    requires m.Valid() && b.Valid()
    ensures ScalarDiv(k, b) == Div(Measurement(k, 0.0), b, m)
  {
    if b.nominal != 0.0 {
      var lhs, rhs := ScalarDiv(k, b).value, Div(Measurement(k, 0.0), b, m).value;
      var t := Sq(k / b.nominal) * Sq(b.stddev);
      assert Sq(rhs.stddev) * Sq(b.nominal) == t by {
        assert Sq(0.0) == 0.0;
      }
      SqPositive(b.nominal);
      SameScaledMeasurement(lhs, rhs, Sq(b.nominal), t);
    }
  }

  /** Multiplication is symmetric in its operands. */
  lemma MulCommutes(a: Measurement, b: Measurement, m: Libm)
    requires m.Valid()
    ensures Mul(a, b, m) == Mul(b, a, m)
  {
    SameMeasurement(Mul(a, b, m).value, Mul(b, a, m).value);
  }

  /**
   * Operands are treated as independent: x - x keeps a spread of sqrt(2)·σ
   * instead of cancelling to zero, and x + x gets sqrt(2)·σ rather than 2·σ.
   */
  lemma SelfDifferenceDoesNotCancel(x: Measurement, m: Libm)
    requires m.Valid() && 0.0 < x.stddev
    ensures Sub(x, x, m).value.nominal == 0.0
    ensures 0.0 < Sub(x, x, m).value.stddev
    ensures Sq(Sub(x, x, m).value.stddev) == 2.0 * Sq(x.stddev)
    ensures Sq(Add(x, x, m).value.stddev) != Sq(2.0 * x.stddev)
  {
    SqPositive(x.stddev);
    SqProduct(2.0, x.stddev);
  }

  /** The figures of the library's own unit tests, stated exactly over the reals. */
  lemma UnitTestFigures(m: Libm)
    requires m.Valid()
    ensures var a, b := Measurement(1.0, 0.1), Measurement(2.0, 0.2);
      && Add(a, b, m).value.nominal == 3.0 && Sq(Add(a, b, m).value.stddev) == 0.05
      && Sub(a, b, m).value.nominal == -1.0 && Sq(Sub(a, b, m).value.stddev) == 0.05
      && Mul(a, b, m).value.nominal == 2.0 && Sq(Mul(a, b, m).value.stddev) == 0.08
      && Div(a, b, m).value.nominal == 0.5 && Sq(Div(a, b, m).value.stddev) == 0.005
  {
    var a, b := Measurement(1.0, 0.1), Measurement(2.0, 0.2);
    var q := Div(a, b, m).value;
    assert Sq(q.stddev) * 4.0 == 0.02;
  }

  // ---------------------------------------------------------------------------
  // Properties of the comparisons.
  // ---------------------------------------------------------------------------

  /** The comparisons read the nominal values and nothing else. */
  lemma ComparisonsIgnoreStddev(a: Measurement, b: Measurement, a': Measurement, b': Measurement)
    requires a.nominal == a'.nominal && b.nominal == b'.nominal
    ensures Equal(a, b) == Equal(a', b') && NotEqual(a, b) == NotEqual(a', b')
    ensures Less(a, b) == Less(a', b') && Greater(a, b) == Greater(a', b')
    ensures LessEq(a, b) == LessEq(a', b') && GreaterEq(a, b) == GreaterEq(a', b')
  {
  }

  /** The six comparisons are the total order of the nominal values. */
  lemma ComparisonsAreConsistent(a: Measurement, b: Measurement)
    ensures NotEqual(a, b) <==> !Equal(a, b)
    ensures Greater(a, b) <==> Less(b, a)
    ensures LessEq(a, b) <==> Less(a, b) || Equal(a, b)
    ensures GreaterEq(a, b) <==> !Less(a, b)
    ensures Less(a, b) || Equal(a, b) || Greater(a, b)
    ensures !(Less(a, b) && Greater(a, b))
  {
  }

  /** Two values with the same nominal compare equal even when their spreads differ. */
  lemma EqualIsNotIdentity()
    ensures var a, b := Measurement(1.0, 0.1), Measurement(1.0, 0.2);
      Equal(a, b) && a != b
  {
  }

  // ---------------------------------------------------------------------------
  // The udouble object: two fields, setters and compound assignments.
  // ---------------------------------------------------------------------------

  class UDouble {
    var nominal: real
    var stddev: real

    /** The class invariant every constructor and mutator keeps. */
    ghost predicate Valid()
      reads this
    {
      Value().Valid()
    }

    /** The current (nominal_, stddev_) pair. */
    function Value(): Measurement
      reads this
    {
      Measurement(nominal, stddev)
    }

    /** nominal_value(): the first half of the stored pair. */
    function NominalValue(): (r: real)
      reads this
      ensures Value() == Measurement(r, stddev)
    {
      nominal
    }

    /** stddev(): never negative while the class invariant holds. */
    function Stddev(): (r: real)
      reads this
      ensures Valid() <==> 0.0 <= r
      ensures Value() == Measurement(nominal, r)
    {
      stddev
    }

    /** The default constructor: 0 ± 0. */
    constructor ()
      ensures Valid()
      ensures NominalValue() == 0.0 && Stddev() == 0.0
    {
      nominal, stddev := 0.0, 0.0;
    }

    /** A copy of a value, as when an operator's result is stored. */
    constructor Of(v: Measurement)
      requires v.Valid()
      ensures Valid() && Value() == v
    {
      nominal, stddev := v.nominal, v.stddev;
    }

    /**
     * The two-argument constructor: invalid_argument for a negative standard
     * deviation; otherwise the getters return exactly the given values.
     */
    static method Create(nominal: real, stddev: real) returns (r: Result<UDouble>)
      ensures r.Failure? <==> stddev < 0.0
      ensures r.Failure? ==> r.error == InvalidArgument
      ensures r.Success? ==> fresh(r.value) && r.value.Valid()
      ensures r.Success? ==> r.value.NominalValue() == nominal && r.value.Stddev() == stddev
    {
      var made := Make(nominal, stddev);
      if made.Failure? {
        return Failure(made.error);
      }
      var u := new UDouble.Of(made.value);
      r := Success(u);
    }

    /** Changes the nominal value only. */
    method SetNominalValue(value: real)
      requires Valid()
      modifies this
      ensures Valid()
      ensures nominal == value && stddev == old(stddev)
    {
      nominal := value;
    }

    /** Rejects a negative value and changes nothing; otherwise changes the spread only. */
    method SetStddev(value: real) returns (r: Outcome)
      requires Valid()
      modifies this
      ensures Valid()
      ensures r.Fail? <==> value < 0.0
      ensures r.Fail? ==> r.error == InvalidArgument && Value() == old(Value())
      ensures r.Pass? ==> nominal == old(nominal) && stddev == value
    {
      if value < 0.0 {
        return Fail(InvalidArgument);
      }
      stddev := value;
      r := Pass;
    }

    /** `*this = *this + rhs` (rhs may be this object itself). */
    method AddAssign(rhs: UDouble, m: Libm)
      requires m.Valid() && Valid() && rhs.Valid()
      modifies this
      ensures Valid()
      ensures Value() == Add(old(Value()), old(rhs.Value()), m).value
    {
      var sum := Add(Value(), rhs.Value(), m);
      nominal, stddev := sum.value.nominal, sum.value.stddev;
    }

    /** `*this = *this - rhs`. */
    method SubAssign(rhs: UDouble, m: Libm)
      requires m.Valid() && Valid() && rhs.Valid()
      modifies this
      ensures Valid()
      ensures Value() == Sub(old(Value()), old(rhs.Value()), m).value
    {
      var difference := Sub(Value(), rhs.Value(), m);
      nominal, stddev := difference.value.nominal, difference.value.stddev;
    }

    /** `*this = *this * rhs`. */
    method MulAssign(rhs: UDouble, m: Libm)
      requires m.Valid() && Valid() && rhs.Valid()
      modifies this
      ensures Valid()
      ensures Value() == Mul(old(Value()), old(rhs.Value()), m).value
    {
      var product := Mul(Value(), rhs.Value(), m);
      nominal, stddev := product.value.nominal, product.value.stddev;
    }

    /** `*this = *this / rhs`: on division by zero the error is passed on and nothing changes. */
    method DivAssign(rhs: UDouble, m: Libm) returns (r: Outcome)
      requires m.Valid() && Valid() && rhs.Valid()
      modifies this
      ensures Valid()
      ensures var q := Div(old(Value()), old(rhs.Value()), m);
        if q.Success? then r == Pass && Value() == q.value
        else r == Fail(q.error) && Value() == old(Value())
    {
      var q := Div(Value(), rhs.Value(), m);
      if q.Failure? {
        return Fail(q.error);
      }
      nominal, stddev := q.value.nominal, q.value.stddev;
      r := Pass;
    }

    /** `*this = *this * k` for a double k. */
    method MulAssignScalar(k: real)
      requires Valid()
      modifies this
      ensures Valid()
      ensures Value() == MulScalar(old(Value()), k).value
    {
      var product := MulScalar(Value(), k);
      nominal, stddev := product.value.nominal, product.value.stddev;
    }

    /** `*this = *this / k` for a double k: a zero k is passed on as an error and changes nothing. */
    method DivAssignScalar(k: real) returns (r: Outcome)
      requires Valid()
      modifies this
      ensures Valid()
      ensures var q := DivScalar(old(Value()), k);
        if q.Success? then r == Pass && Value() == q.value
        else r == Fail(q.error) && Value() == old(Value())
    {
      var q := DivScalar(Value(), k);
      if q.Failure? {
        return Fail(q.error);
      }
      nominal, stddev := q.value.nominal, q.value.stddev;
      r := Pass;
    }
  }
}
