/**
 * The value carried by both uncertain number types: a nominal value and a
 * standard deviation. udouble and ufloat share this representation and the
 * checked two-argument constructor.
 */
module Measurements {
  import opened Failures

  /** (nominal_, stddev_) of a udouble or ufloat. */
  datatype Measurement = Measurement(nominal: real, stddev: real)
  {
    /** The invariant every constructed value keeps: the spread is not negative. */
    predicate Valid() {
      0.0 <= stddev
    }
  }

  /**
   * The two-argument constructor: rejects a negative standard deviation with
   * invalid_argument, and otherwise keeps both values exactly as given.
   */
  function Make(nominal: real, stddev: real): (r: Result<Measurement>)
    ensures r.Failure? <==> stddev < 0.0
    ensures r.Failure? ==> r.error == InvalidArgument
    ensures r.Success? ==> r.value.Valid()
    ensures r.Success? ==> r.value.nominal == nominal && r.value.stddev == stddev
  {
    if stddev < 0.0 then Failure(InvalidArgument) else Success(Measurement(nominal, stddev))
  }
}
