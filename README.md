# Uncertain numbers with first-order error propagation — a Dafny model

This project models the core of a C++ library for numbers that carry a
measurement uncertainty ("nominal ± standard deviation"):

- the **atomic-variable registry** (`VariableRegistry`): a table from variable
  id to the standard deviation the variable was registered with, plus the
  counter that mints ids (starting at 1, with 0 reserved);
- the two **uncertain value types** `udouble` and `ufloat`: a nominal value and
  a standard deviation, a constructor and setter that reject a negative
  standard deviation, first-order error-propagation operators (`+ - * /`,
  scalar overloads and `pow` for `udouble`), division-by-zero and pow-base
  guards, compound assignments defined through the binary operators, and
  comparisons that look at the nominal values only.

Doubles are read as mathematical reals. The `<cmath>` functions the operators
call (`std::sqrt`, `std::pow`, `std::log`) are not part of this model; they are
a parameter `m: RealMath.Libm` of every operator that uses them, and
`Libm.Valid()` requires only what the formulas rely on: `sqrt` returns the
non-negative square root of a non-negative argument, and `pow(x, 2)` is `x*x`.
Because the non-negative square root is unique (`RealMath.SqrtUnique`), the
results of `+ - * /` and their scalar forms are the same for every valid `m`.
`pow` is different: its result is stated in terms of `m.pow` and `m.log`,
which `Libm.Valid()` does not pin down at other arguments, so two valid `m`
may give different powers. Contracts state standard deviations through their
squares ("σ ≥ 0 and σ² = …").

Exceptions become values: `Failures.Result` / `Failures.Outcome`, with
`InvalidArgument` for `std::invalid_argument` and `RuntimeError` for
`std::runtime_error`. The shared `(nominal_, stddev_)` pair is
`Measurements.Measurement`; the operators are functions on it, and the C++
classes are Dafny classes (`UDoubles.UDouble`, `UFloats.UFloat`) with the two
fields, whose setters and compound assignments are methods that update them.

Files: `failures.dfy`, `real_math.dfy`, `measurement.dfy`,
`variable_registry.dfy`, `udouble.dfy`, `ufloat.dfy`.

## Where the code and its own documentation differ

The header comments of `include/uncertainties/variable_registry.hpp` (lines
7-10 and 27-31) describe derivative tracking: atomic values get an id in the
registry, and derived values keep partial derivatives with respect to those
ids, so that correlations are accounted for. The correlation tests
(`tests/test_correlation.cpp:18-32`) expect `x - x` to have zero spread and
`x + x` to have spread 2σ. The `udouble` and `ufloat` code modelled here does
not do that (`src/udouble.cpp:8-23`): it holds a plain standard deviation,
never touches the registry, and combines operands in quadrature as if they
were independent. The model follows the code;
`UDoubles.SelfDifferenceDoesNotCancel` proves that `x - x` keeps a spread of
√2·σ and that `x + x` has √2·σ rather than 2σ. `register_variable`
(`variable_registry.hpp:49-54`) performs no sign check, and
`Registry.RegisterVariable` stores whatever it is given. The compound
assignments and comparisons are defined in `src/udouble.cpp` but not declared
in `include/uncertainties/udouble.hpp`; their bodies are modelled as written.

## Model

| member | source | states |
|---|---|---|
| `VariableRegistry.IdsCount` | include/uncertainties/variable_registry.hpp:96 | with the counter starting at 1 and 0 reserved, exactly next−1 ids lie below the counter value next |
| `VariableRegistry.DenseTableBounds` | include/uncertainties/variable_registry.hpp:84-98 | when the table's keys are the ids handed out so far, every key lies in [1, next_id_), neither 0 nor the counter value is a key, and the table has next_id_−1 entries |
| `VariableRegistry.RegisterKeepsDense` | include/uncertainties/variable_registry.hpp:49-54 | storing at the counter value never overwrites an entry, keeps the keys exactly the handed-out ids, and grows the table by exactly one |
| `VariableRegistry.Registry.constructor` | include/uncertainties/variable_registry.hpp:94-98 | a new registry has an empty table and the counter at 1 |
| `VariableRegistry.Registry.RegisterVariable` | include/uncertainties/variable_registry.hpp:49-54 | returns the pre-call counter value (≥ 1, not yet a key), advances the counter by one, stores the given standard deviation without any sign check, leaves every other entry unchanged, and grows the table by one; the key invariant is kept |
| `VariableRegistry.Registry.GetStddev` | include/uncertainties/variable_registry.hpp:62-69 | returns the stored standard deviation for a known id and a runtime error for an unknown id, changing nothing |
| `VariableRegistry.Registry.Clear` | include/uncertainties/variable_registry.hpp:74-78 | empties the table and resets the counter to 1 |
| `VariableRegistry.Registry.Size` | include/uncertainties/variable_registry.hpp:84-87 | returns the number of entries, which under the invariant is the number of ids handed out since the last clear |
| `VariableRegistry.FirstIdIsOne` | include/uncertainties/variable_registry.hpp:94-96 | on a fresh registry the first id handed out is 1, so id 0 is never handed out |
| `VariableRegistry.RegisterTwiceThenLookUp` | include/uncertainties/variable_registry.hpp:49-69 | successive registrations return strictly increasing ids, and each id looks up to the standard deviation registered with it |
| `VariableRegistry.ClearRestartsIds` | include/uncertainties/variable_registry.hpp:74-87 | after a clear the size is 0 and the next registration returns id 1 again |
| `Measurements.Make` | include/uncertainties/udouble.hpp:17-23 | the checked two-argument constructor shared by both types: invalid_argument exactly when the standard deviation is negative, otherwise both values kept exactly and the result satisfies stddev ≥ 0 |
| `UDoubles.UDouble.NominalValue` | include/uncertainties/udouble.hpp:26 | `nominal_value()` returns the first half of the stored pair |
| `UDoubles.UDouble.Stddev` | include/uncertainties/udouble.hpp:27 | `stddev()` returns the second half of the stored pair, and it is non-negative exactly when the class invariant holds |
| `UDoubles.UDouble.constructor` | include/uncertainties/udouble.hpp:16 | the default udouble is 0 ± 0 |
| `UDoubles.UDouble.Create` | include/uncertainties/udouble.hpp:17-27 | throws invalid_argument iff stddev < 0; otherwise the getters return exactly the given nominal and stddev |
| `UDoubles.UDouble.SetNominalValue` | include/uncertainties/udouble.hpp:30 | changes the nominal only; the stddev and the invariant stddev ≥ 0 are kept |
| `UDoubles.UDouble.SetStddev` | include/uncertainties/udouble.hpp:31-36 | a negative value throws invalid_argument and leaves the object unchanged; otherwise only the stddev changes |
| `UDoubles.Add` | src/udouble.cpp:8-14 | never throws; nominal a+b; stddev σ ≥ 0 with σ² = σa² + σb² |
| `UDoubles.Sub` | src/udouble.cpp:17-23 | never throws; nominal a−b; σ ≥ 0 with σ² = σa² + σb² |
| `UDoubles.SubSpreadIsAddSpread` | src/udouble.cpp:17-23 | a − b has exactly the same stddev as a + b |
| `UDoubles.SelfDifferenceDoesNotCancel` | src/udouble.cpp:8-23 | for σ > 0, x − x has nominal 0 and a positive stddev with σ² = 2σx² (no cancellation), and x + x has stddev √2·σx, not 2σx |
| `UDoubles.Mul` | src/udouble.cpp:26-36 | never throws; nominal a·b; σ ≥ 0 with σ² = b²σa² + a²σb² |
| `UDoubles.MulCommutes` | src/udouble.cpp:26-36 | a * b and b * a give the same nominal and stddev |
| `UDoubles.MulScalar` | src/udouble.cpp:38-41 | nominal n·k and σ² = k²σa²; throws (invalid_argument from the constructor) only when k ≠ 0 and the operand's stddev is negative |
| `UDoubles.ScalarMul` | src/udouble.cpp:43-46 | nominal k·n and σ² = k²σa²; same failure condition as the right-hand scalar product |
| `UDoubles.ScalingCommutes` | src/udouble.cpp:38-46 | multiplying by a scalar on the left or on the right gives the same result |
| `UDoubles.MulScalarIsExactMul` | src/udouble.cpp:26-41 | for a valid operand, udouble * k equals udouble * (k ± 0), i.e. σ = σa·abs(k) |
| `UDoubles.Div` | src/udouble.cpp:49-62 | runtime error exactly when the divisor's nominal is 0; otherwise nominal a/b and σ ≥ 0 with σ²·b² = σa² + (a/b)²·σb² |
| `UDoubles.DivScalar` | src/udouble.cpp:64-70 | runtime error when k = 0, invalid_argument when the operand's stddev is negative; otherwise nominal n/k and σ²·k² = σa² |
| `UDoubles.DivScalarIsExactDiv` | src/udouble.cpp:49-70 | for a valid operand, udouble / k equals udouble / (k ± 0), including the zero-divisor error |
| `UDoubles.ScalarDiv` | src/udouble.cpp:72-78 | runtime error when the divisor's nominal is 0, invalid_argument when k ≠ 0 and its stddev is negative; otherwise nominal k/b and σ²·b² = (k/b)²·σb² |
| `UDoubles.ScalarDivIsExactDiv` | src/udouble.cpp:49-78 | for a valid divisor, k / udouble equals (k ± 0) / udouble, including the zero-divisor error |
| `UDoubles.Pow` | src/udouble.cpp:81-90 | runtime error exactly when the base's nominal is ≤ 0; otherwise nominal pow(b, e) and σ ≥ 0 with σ² = pow(b, e)²·((e/b·σb)² + (ln b·σe)²) |
| `UDoubles.UnitTestFigures` | tests/test_udouble.cpp:4-42 | (1 ± 0.1) with (2 ± 0.2): sum 3 with σ² = 0.05, difference −1 with σ² = 0.05, product 2 with σ² = 0.08, quotient 0.5 with σ² = 0.005 |
| `UDoubles.UDouble.AddAssign` | src/udouble.cpp:93-97 | the object becomes old value + rhs (rhs read before the update, so `x += x` is covered) |
| `UDoubles.UDouble.SubAssign` | src/udouble.cpp:99-103 | the object becomes old value − rhs |
| `UDoubles.UDouble.MulAssign` | src/udouble.cpp:105-109 | the object becomes old value * rhs |
| `UDoubles.UDouble.DivAssign` | src/udouble.cpp:111-115 | when old value / rhs throws, the same error is reported and the object is unchanged; otherwise the object becomes the quotient |
| `UDoubles.UDouble.MulAssignScalar` | src/udouble.cpp:117-121 | the object becomes old value * k |
| `UDoubles.UDouble.DivAssignScalar` | src/udouble.cpp:123-127 | when old value / k throws, the error is reported and the object is unchanged; otherwise it becomes the quotient |
| `UDoubles.Equal` | src/udouble.cpp:130-133 | `==` holds exactly when both `<=` and `>=` hold, and every value equals itself |
| `UDoubles.NotEqual` | src/udouble.cpp:135-138 | `!=` is the negation of `==`, and holds exactly when one side is strictly smaller |
| `UDoubles.Less` | src/udouble.cpp:140-143 | `<` is strict: never true of a value and itself, and never true in both directions |
| `UDoubles.Greater` | src/udouble.cpp:145-148 | `a > b` is `b < a` |
| `UDoubles.LessEq` | src/udouble.cpp:150-153 | `<=` is the negation of `>`, so any two values are ordered one way or the other |
| `UDoubles.GreaterEq` | src/udouble.cpp:155-158 | `a >= b` is `b <= a`, and the negation of `a < b` |
| `UDoubles.ComparisonsIgnoreStddev` | src/udouble.cpp:130-158 | all six comparisons give the same answer for operands with the same nominals, whatever their stddevs |
| `UDoubles.ComparisonsAreConsistent` | src/udouble.cpp:130-158 | != is the negation of ==, > is < flipped, <= is < or ==, >= is not <, and exactly the trichotomy of the nominals holds |
| `UDoubles.EqualIsNotIdentity` | src/udouble.cpp:130-133 | 1 ± 0.1 and 1 ± 0.2 compare == although they are different values |
| `UFloats.UFloat.NominalValue` | include/uncertainties/ufloat.hpp:23 | `nominal_value()` returns the first half of the stored pair |
| `UFloats.UFloat.Stddev` | include/uncertainties/ufloat.hpp:24 | `stddev()` returns the second half of the stored pair, and it is non-negative exactly when the class invariant holds |
| `UFloats.UFloat.constructor` | include/uncertainties/ufloat.hpp:13 | the default ufloat is 0 ± 0 |
| `UFloats.UFloat.Create` | include/uncertainties/ufloat.hpp:14-24 | throws invalid_argument iff stddev < 0; otherwise stores both values as given |
| `UFloats.UFloat.SetNominalValue` | include/uncertainties/ufloat.hpp:27 | changes the nominal only |
| `UFloats.UFloat.SetStddev` | include/uncertainties/ufloat.hpp:28-33 | a negative value throws and leaves the object unchanged; otherwise only the stddev changes |
| `UFloats.Add` | src/ufloat.cpp:8-14 | never throws; nominal a+b; σ ≥ 0 with σ² = σa² + σb² |
| `UFloats.Sub` | src/ufloat.cpp:17-23 | never throws; nominal a−b; σ ≥ 0 with σ² = σa² + σb² |
| `UFloats.Mul` | src/ufloat.cpp:26-36 | never throws; nominal a·b; σ ≥ 0 with σ² = (b·σa)² + (a·σb)² |
| `UFloats.MulCommutes` | src/ufloat.cpp:26-36 | nominal and stddev of a * b are symmetric in the operands |
| `UFloats.Div` | src/ufloat.cpp:39-53 | runtime error exactly when the divisor's nominal is 0; otherwise nominal a/b and σ ≥ 0 with σ² = (σa/b)² + (a·σb/b²)² |
| `UFloats.AddMatchesUDouble` | src/ufloat.cpp:8-14 | ufloat + gives the same result as udouble + |
| `UFloats.SubMatchesUDouble` | src/ufloat.cpp:17-23 | ufloat − gives the same result as udouble − |
| `UFloats.MulMatchesUDouble` | src/ufloat.cpp:26-36 | ufloat's (b·σa)² + (a·σb)² and udouble's b²σa² + a²σb² give the same product |
| `UFloats.DivMatchesUDouble` | src/ufloat.cpp:39-53 | ufloat's and udouble's quotient formulas give the same result, including the zero-divisor error |
| `UFloats.UnitTestFigures` | tests/test_ufloat.cpp:4-22 | (1 ± 0.1) with (2 ± 0.2): sum 3 with σ² = 0.05, product 2 with σ² = 0.08 |

## Left out

- `std::sqrt`, `std::pow`, `std::log`: not part of this model; they are the parameter `m: Libm`, of which only the square-root property and `pow(x, 2) = x²` are assumed. Nothing is proved about `pow` or `log` at other arguments.
- IEEE-754 doubles: rounding, overflow, NaN and infinities are not modelled; all arithmetic is on reals. In particular the guards `== 0.0` and `<= 0.0` are exact real comparisons.
- `VariableRegistry.Registry.RegisterVariable`: the counter is an unbounded natural number; the source's 64-bit counter would wrap to 0 after 2^64 − 1 registrations, and the model does not capture that wrap-around.
- The registry's thread safety (atomic `fetch_add`, `shared_mutex`) and the singleton accessor `instance()`: one sequential registry object is modelled instead.
- `operator<<` printing in both headers: output formatting, not modelled.
- The analytic function library (`src/umath.cpp`, `include/uncertainties/umath.hpp`) and the Eigen interoperability header are not part of this model: they wrap transcendental floating-point functions and a third-party library.
- The derivative-map and correlation behaviour described in the registry's header comments and the correlation tests (`num_variables`, `is_atomic`, `independent_copy`) is not implemented by the code modelled here and is not modelled.
