/**
 * ufloat: the second uncertain number type, with the same representation and
 * setters as udouble and its own formulas for the four arithmetic operators.
 */
module UFloats {
  import opened Failures
  import opened RealMath
  import opened Measurements
  import UDoubles

  /** lhs + rhs: nominals add, variances add. */
  function Add(a: Measurement, b: Measurement, m: Libm): (r: Result<Measurement>)
    requires m.Valid()
    ensures r.Success? && r.value.Valid()
    ensures r.value.nominal == a.nominal + b.nominal
    ensures Sq(r.value.stddev) == Sq(a.stddev) + Sq(b.stddev)
  {
    Make(a.nominal + b.nominal, m.sqrt(Sq(a.stddev) + Sq(b.stddev)))
  }

  /** lhs - rhs: nominals subtract, variances still add. */
  function Sub(a: Measurement, b: Measurement, m: Libm): (r: Result<Measurement>)
    requires m.Valid()
    ensures r.Success? && r.value.Valid()
    ensures r.value.nominal == a.nominal - b.nominal
    ensures Sq(r.value.stddev) == Sq(a.stddev) + Sq(b.stddev)
  {
    Make(a.nominal - b.nominal, m.sqrt(Sq(a.stddev) + Sq(b.stddev)))
  }

  /** lhs * rhs: σ² = (y·σ_x)² + (x·σ_y)². */
  function Mul(a: Measurement, b: Measurement, m: Libm): (r: Result<Measurement>)
    requires m.Valid()
    ensures r.Success? && r.value.Valid()
    ensures r.value.nominal == a.nominal * b.nominal
    ensures Sq(r.value.stddev) == Sq(b.nominal * a.stddev) + Sq(a.nominal * b.stddev)
  {
    Make(a.nominal * b.nominal, m.sqrt(Sq(b.nominal * a.stddev) + Sq(a.nominal * b.stddev)))
  }

  /**
   * lhs / rhs: a runtime error when the divisor's nominal is zero; otherwise
   * σ² = (σ_x / y)² + (x·σ_y / y²)².
   */
  function Div(a: Measurement, b: Measurement, m: Libm): (r: Result<Measurement>)
    requires m.Valid()
    ensures r.Failure? <==> b.nominal == 0.0
    ensures r.Failure? ==> r.error == RuntimeError
    ensures r.Success? ==> r.value.Valid() && r.value.nominal == a.nominal / b.nominal
    ensures r.Success? ==>
      && 0.0 < Sq(b.nominal)
      && Sq(r.value.stddev) == Sq(a.stddev / b.nominal) + Sq(a.nominal * b.stddev / Sq(b.nominal))
  {
    if b.nominal == 0.0 then Failure(RuntimeError)
    else
      SqPositive(b.nominal);
      Make(a.nominal / b.nominal,
           m.sqrt(Sq(a.stddev / b.nominal) + Sq(a.nominal * b.stddev / Sq(b.nominal))))
  }

  // ---------------------------------------------------------------------------
  // ufloat and udouble compute the same values.
  // ---------------------------------------------------------------------------

  lemma AddMatchesUDouble(a: Measurement, b: Measurement, m: Libm)
    requires m.Valid()
    ensures Add(a, b, m) == UDoubles.Add(a, b, m)
  {
  }

  lemma SubMatchesUDouble(a: Measurement, b: Measurement, m: Libm)
    requires m.Valid()
    ensures Sub(a, b, m) == UDoubles.Sub(a, b, m)
  {
  }

  /** (y·σ_x)² + (x·σ_y)² is y²·σ_x² + x²·σ_y²: both products agree. */
  lemma MulMatchesUDouble(a: Measurement, b: Measurement, m: Libm)
    requires m.Valid()
    ensures Mul(a, b, m) == UDoubles.Mul(a, b, m)
  {
    SqProduct(b.nominal, a.stddev);
    SqProduct(a.nominal, b.stddev);
    UDoubles.SameMeasurement(Mul(a, b, m).value, UDoubles.Mul(a, b, m).value);
  }

  /** Both quotient formulas give the same spread, and both reject a zero divisor. */
  lemma DivMatchesUDouble(a: Measurement, b: Measurement, m: Libm)
    requires m.Valid()
    ensures Div(a, b, m) == UDoubles.Div(a, b, m)
  {
    if b.nominal != 0.0 {
      var f, d := Div(a, b, m).value, UDoubles.Div(a, b, m).value;
      var t := Sq(a.stddev) + Sq(a.nominal / b.nominal) * Sq(b.stddev);
      assert Sq(f.stddev) * Sq(b.nominal) == t by {
        SqQuotient(a.stddev, b.nominal);
        SqOverSquare(a.nominal, b.stddev, b.nominal);
      }
      SqPositive(b.nominal);
      UDoubles.SameScaledMeasurement(f, d, Sq(b.nominal), t);
    }
  }

  /** Multiplication is symmetric: swapping the operands changes neither nominal nor spread. */
  lemma MulCommutes(a: Measurement, b: Measurement, m: Libm)
    requires m.Valid()
    ensures Mul(a, b, m) == Mul(b, a, m)
  {
    UDoubles.SameMeasurement(Mul(a, b, m).value, Mul(b, a, m).value);
  }

  /** The figures of the library's own ufloat unit tests, stated exactly over the reals. */
  lemma UnitTestFigures(m: Libm)
    requires m.Valid()
    ensures var a, b := Measurement(1.0, 0.1), Measurement(2.0, 0.2);
      && Add(a, b, m).value.nominal == 3.0 && Sq(Add(a, b, m).value.stddev) == 0.05
      && Mul(a, b, m).value.nominal == 2.0 && Sq(Mul(a, b, m).value.stddev) == 0.08
  {
  }

  // ---------------------------------------------------------------------------
  // The ufloat object: two fields and their setters.
  // ---------------------------------------------------------------------------

  class UFloat {
    var nominal: real
    var stddev: real

    /** The class invariant every constructor and setter keeps. */
    ghost predicate Valid()
      reads this
    {
      Value().Valid()
    }

    /** The current (nominal_, stddev_) pair. */
    function Value(): Measurement
      reads this
    {
      Measurement(nominal, stddev)
    }

    /** nominal_value(): the first half of the stored pair. */
    function NominalValue(): (r: real)
      reads this
      ensures Value() == Measurement(r, stddev)
    {
      nominal
    }

    /** stddev(): never negative while the class invariant holds. */
    function Stddev(): (r: real)
      reads this
      ensures Valid() <==> 0.0 <= r
      ensures Value() == Measurement(nominal, r)
    {
      stddev
    }

    /** The default constructor: 0 ± 0. */
    constructor ()
      ensures Valid()
      ensures NominalValue() == 0.0 && Stddev() == 0.0
    {
      nominal, stddev := 0.0, 0.0;
    }

    /** A copy of a value, as when an operator's result is stored. */
    constructor Of(v: Measurement)
      requires v.Valid()
      ensures Valid() && Value() == v
    {
      nominal, stddev := v.nominal, v.stddev;
    }

    /**
     * The two-argument constructor: invalid_argument for a negative standard
     * deviation; otherwise both fields hold exactly the given values.
     */
    static method Create(nominal: real, stddev: real) returns (r: Result<UFloat>)
      ensures r.Failure? <==> stddev < 0.0
      ensures r.Failure? ==> r.error == InvalidArgument
      ensures r.Success? ==> fresh(r.value) && r.value.Valid()
      ensures r.Success? ==> r.value.NominalValue() == nominal && r.value.Stddev() == stddev
    {
      var made := Make(nominal, stddev);
      if made.Failure? {
        return Failure(made.error);
      }
      var u := new UFloat.Of(made.value);
      r := Success(u);
    }

    /** Changes the nominal value only. */
    method SetNominalValue(value: real)
      requires Valid()
      modifies this
      ensures Valid()
      ensures nominal == value && stddev == old(stddev)
    {
      nominal := value;
    }

    /** Rejects a negative value and changes nothing; otherwise changes the spread only. */
    method SetStddev(value: real) returns (r: Outcome)
      requires Valid()
      modifies this
      ensures Valid()
      ensures r.Fail? <==> value < 0.0
      ensures r.Fail? ==> r.error == InvalidArgument && Value() == old(Value())
      ensures r.Pass? ==> nominal == old(nominal) && stddev == value
    {
      if value < 0.0 {
        return Fail(InvalidArgument);
      }
      stddev := value;
      r := Pass;
    }
  }
}
