# MathFunctions in Dafny

This project models the core of MathFunctions, a small C++ library for building real functions
of one variable as expression trees and evaluating them at a point. The model covers:

- A `MathFunction` is a handle on one root operation.
- An operation is one of these variants:
  - the binary arithmetic operator (`SimpleOperator`: add, subtract, multiply, divide, power), whose operands are functions or constants;
  - a `Polynomial` given by its coefficient list;
  - a `CompositeFunction` (outer applied to inner);
  - a `TrigFunction` (sin, cos, tan, cot, sec, csc);
  - a `LogFunction` (log to a base, or ln).
- `MathOperationFactory` builds an operation from an operator kind and the operands supplied.
- Every function and every `Point` derives from `MathBase`. `MathBase` compares values within a tolerance (epsilon) and holds the angle mode (degrees or radians).
- `MathBase` uses either the object's own `MathSetting` or the process-wide static defaults.

Evaluation returns a `TMathResult` status. It writes y only on success.

## How the model is built

- **Numbers.** `double` is modelled as `real`.
- **The C maths library.** The functions `sin`, `cos`, `tan`, `log`, `log10`, `pow` and `sqrt`, and the value that a division by exactly zero produces, are fields of a `CMath.Numerics` record. Evaluation takes this record as a parameter. Lemmas hold for every such record unless they say what they assume of it, as `CMath.ExactIntegerPowers` does.
- **The static globals.** `MathBase::m_Epsilon` and `MathBase::m_IsDegrees` become a `Setting` value that evaluation takes as a parameter. The mutable holder is the class `MathBase.Globals`.
- **Tolerance tests.** `IsEqual`, `IsLessOrEqual` and `IsGreaterOrEqual` are pure functions of the object's own setting and the globals (module `Tolerance`). `MathBase.MathBase` is the class that owns the `MathSetting` pointer.
- **The expression tree.** It is two mutually recursive datatypes, `Operations.Node` and `Operations.FunctionRef`. A `FunctionRef` is the value of an operand `MathFunction`: its operation, with that operation's setting. `Operations.EvalNode` and `Operations.EvalRef` are the reference evaluation.
- **The `double *y` out-parameter.** `Operations.Outcome(status, y)` models it. On `Undefined` the incoming y is returned untouched.
- **The evaluation code itself.** Each variant's `CalculateY` is an imperative method in its own module (`PolynomialFunction`, `SimpleOperator`, `CompositeFunction`, `TrigFunction`, `LogFunction`), written with the source's loop, branches and early returns. Each is proved equal to the reference evaluation. `MathFunction.CalculateNode` is the virtual dispatch.
- **Composite evaluation.** `CompositeFunction::CalculateY` tests `m_Outside && status`. `TMathResult` codes are -1 and 1, so that test is true even when the inner function failed. The outer function then runs on the intermediate value 0.0. The model keeps this behaviour. `CompositeFunction.FailureStillRunsOuter` states it, and `CompositeFunction.InnerFailureMasked` gives an input where a failing inner function still yields `Success`. The header describes the pair only as `m_Outside( m_inside )` (CompositeFunction.h:104), like f(g(x)); the model follows what `CalculateY` does when g fails.
- **A setting created on demand.** `MathBase::SetEpsilon` on an object without a setting creates one with the default `MathSetting()` constructor, which leaves `m_IsDegrees` uninitialised (MathBase.cpp:106-108, MathSetting.cpp:21-23). `MathBase::SetAngleMode` leaves the epsilon uninitialised in the same way. So after `MathFunction::SetEpsilon` on a fresh function, its trig operations read an indeterminate angle mode instead of the global one. The model keeps this: `MathSetting.MathSetting.Unset` promises nothing about its fields, and `MathBase.MathBase.SetEpsilon` promises nothing about the angle mode of a setting it creates.
- **`MathFunction(TOperatorType)`.** This constructor leaves `m_MathSetting` NULL through the implicit `MathBase()` constructor, and the model does the same.
- **`MathFunction` and `Point`.** These are classes. Their `MathBase` part is a `const base` field. A `MathFunction` also records the setting object that its operation shares (`opSetting`), because `MathFunction::SetEpsilon` and `SetAngleMode` hand the function's own setting to the operation.

## Model

| member | source | states |
|---|---|---|
| MathDefs.Code | MathDefs.h:38-42 | a result code is never zero, and it is positive exactly for MATH_SUCCESS |
| MathDefs.Ordinal | MathDefs.h:44-61 | every operator kind has a position among the fifteen enumerators, and the kind stored there is that kind |
| MathDefs.OrdinalIsBijective | MathDefs.h:44-61 | distinct operator kinds have distinct positions, and every position 0..14 belongs to exactly one kind |
| MathDefs.ConstantRelations | MathDefs.h:13-36 | PI_OVER_180 and ONE_EIGHTY_OVER_PI are reciprocal, TWO_PI is twice PI, and the two angle modes differ |
| MathDefs.PiOver2AsWritten | MathDefs.h:15 | PI_OVER_2 as defined equals four right angles and is not PI/2 |
| MathDefs.HalfPiIsRightAngle | MathDefs.h:15-16 | the corrected constant doubled is PI, and it equals 90 degrees converted with PI_OVER_180 |
| CMath.Quotient | SimpleOperator.cpp:125-130 | when the divisor is non-zero the quotient times the divisor gives back the dividend |
| MathSetting.MathSetting.constructor | MathSetting.cpp:31-37 | a setting built from an epsilon and an angle mode holds exactly those two values |
| MathSetting.MathSetting.Unset | MathSetting.cpp:21-23 | the default setting promises nothing about its epsilon or angle mode, as the C++ default constructor leaves both uninitialised |
| MathSetting.MathSetting.GetEpsilon | MathSetting.h:51-53 | reads the stored epsilon; what it returns after a write is stated by `MathSetting.MathSetting.SetEpsilon` |
| MathSetting.MathSetting.GetAngleMode | MathSetting.h:68-70 | reads the stored angle mode; what it returns after a write is stated by `MathSetting.MathSetting.SetAngleMode` |
| MathSetting.MathSetting.SetEpsilon | MathSetting.h:43-45 | the epsilon becomes the new value and the angle mode is unchanged |
| MathSetting.MathSetting.SetAngleMode | MathSetting.h:60-62 | the angle mode becomes the new value and the epsilon is unchanged |
| Tolerance.IsEqualMeaning | MathBase.cpp:182-199 | with the default epsilon, two values are equal iff they are strictly closer than the effective epsilon; with a zero epsilon iff they are identical; with a negative epsilon never |
| Tolerance.ExplicitEpsilonWins | MathBase.cpp:188-194 | a non-zero epsilon argument overrides both the object's own setting and the globals |
| Tolerance.OwnSettingWins | MathBase.cpp:88-129 | an object's own setting decides its epsilon and angle mode whatever the globals are |
| Tolerance.IsEqualSymmetric | MathBase.cpp:182-199 | tolerance equality does not depend on the order of its two arguments |
| Tolerance.IsLessOrEqualMeaning | MathBase.cpp:259-268 | x is "less or equal" to v iff x lies below v plus the effective epsilon; the epsilon argument is ignored |
| Tolerance.IsGreaterOrEqualMeaning | MathBase.cpp:239-248 | x is "greater or equal" to v iff x lies above v minus the effective epsilon; the epsilon argument is ignored |
| Tolerance.ComparisonsMirror | MathBase.cpp:239-268 | IsGreaterOrEqual(x, v) is IsLessOrEqual(v, x) |
| Tolerance.AngleConversionsInverse | MathBase.h:106-117 | degree and radian conversions undo each other, and 180 degrees is PI |
| Tolerance.QuadraticRoot | MathBase.cpp:224-225 | a value given by the quadratic formula with an exact square root of the discriminant solves the equation |
| Tolerance.QuadraticEquation | MathBase.cpp:212-227 | with a zero leading coefficient the result is 0 and the roots are untouched; otherwise the result is 1, the roots are (-b ± sqrt(D))/2a, and each solves the equation when sqrt is exact |
| Tolerance.EffectiveEpsilon | MathBase.cpp:88-96 | the object's own epsilon when it has a setting, otherwise the global one; stated for all globals by `Tolerance.OwnSettingWins` |
| Tolerance.EffectiveAngleMode | MathBase.cpp:121-129 | the object's own angle mode when it has a setting, otherwise the global one; stated by `Tolerance.OwnSettingWins` |
| Tolerance.IsEqual | MathBase.cpp:182-199 | a value equals itself iff the tolerance in force is not negative, and distinct values are equal only when strictly closer than that tolerance; the full meaning is `Tolerance.IsEqualMeaning` |
| Tolerance.IsLessOrEqual | MathBase.cpp:259-268 | x ≤ v is accepted whenever the tolerance is not negative, and an accepted x lies at or below v or above it by less than the effective epsilon |
| Tolerance.IsGreaterOrEqual | MathBase.cpp:239-248 | x ≥ v is accepted whenever the tolerance is not negative, and an accepted x lies at or above v or below it by less than the effective epsilon |
| Tolerance.DegreesToRadians | MathBase.h:106-108 | converting the result back gives the degrees again, and 180 degrees is PI |
| Tolerance.RadiansToDegrees | MathBase.h:115-117 | the result scaled by PI_OVER_180 gives back the radians |
| MathBase.Globals.constructor | MathBase.cpp:10-11 | the statics start at epsilon 1e-7 and angles in degrees |
| MathBase.Globals.GetGlobalEpsilon | MathBase.cpp:17-21 | the global epsilon is the one every evaluation without its own setting compares with; MathBase.Globals.SetGlobalEpsilon states how it changes |
| MathBase.Globals.SetGlobalEpsilon | MathBase.cpp:27-31 | the global epsilon becomes the new value and the global angle mode is unchanged |
| MathBase.Globals.GetGlobalAngleMode | MathBase.cpp:38-42 | the global angle mode is the one every evaluation without its own setting uses; MathBase.Globals.SetGlobalAngleMode states how it changes |
| MathBase.Globals.SetGlobalAngleMode | MathBase.cpp:49-54 | the global angle mode becomes the new value and the global epsilon is unchanged |
| MathBase.MathBase.constructor | MathBase.cpp:63-66 | a default object has no setting of its own |
| MathBase.MathBase.WithSetting | MathBase.cpp:71-75 | the object uses the setting it is given |
| MathBase.MathBase.GetEpsilon | MathBase.cpp:88-96 | the epsilon of the object's own setting when it has one, otherwise the global epsilon |
| MathBase.MathBase.GetAngleMode | MathBase.cpp:121-129 | the angle mode of the object's own setting when it has one, otherwise the global angle mode |
| MathBase.MathBase.IsEqual | MathBase.cpp:182-199 | a value equals itself iff the object's tolerance is not negative, and distinct values are equal only when strictly closer than that tolerance |
| MathBase.MathBase.SetEpsilon | MathBase.cpp:102-114 | afterwards the object has a setting whose epsilon is the new value, and its epsilon is that value whatever the globals are; an existing setting is updated in place, keeping its angle mode; otherwise a new one is created |
| MathBase.MathBase.SetAngleMode | MathBase.cpp:136-148 | afterwards the object's angle mode is the new value whatever the globals are; an existing setting is updated in place, keeping its epsilon; otherwise a new one is created |
| MathBase.MathBase.SetMathSetting | MathBase.cpp:154-159 | the object now uses the given setting |
| MathBase.MathBase.ClearSetting | MathBase.cpp:165-171 | the object drops its setting and falls back to the globals for epsilon and angle mode |
| Operations.EvalRef | MathFunction.cpp:375-383 | evaluating a function leaves y untouched whenever the result is MATH_UNDEFINED |
| Operations.EvalNode | MathOperation.h:57-59 | evaluating an operation leaves y untouched whenever the result is MATH_UNDEFINED |
| Operations.Operand | SimpleOperator.cpp:88-108 | an operand that fails to evaluate contributes the initial value 0 |
| Operations.EvalBinary | SimpleOperator.cpp:78-144 | the reference evaluation of an operator node; a failure leaves y untouched; its results are stated by the `SimpleOperator` lemmas |
| Operations.ApplyOperator | SimpleOperator.cpp:114-137 | the switch on the operator fails only for a division, and then leaves y untouched |
| Operations.PolySum | Polynomial.cpp:48-67 | the sum over the first i coefficients is 0 when they are all zero; its value is stated by `PolynomialFunction.MatchesPowerSeries` |
| Operations.EvalComposite | CompositeFunction.cpp:59-73 | the reference evaluation of a composite; a failure leaves y untouched; its results are stated by the `CompositeFunction` lemmas |
| Operations.TrigValue | TrigFunction.cpp:43-94 | only cot, sec and csc can fail, and a failure leaves y untouched |
| Operations.LogValue | LogFunction.cpp:44-82 | a success means x and the base are not negative, and positive when the tolerance is not negative; a failure leaves y untouched |
| Operations.SetOperatorType | MathOperation.h:40-42 | the node gets the new kind, keeps its setting, and stays well-formed |
| Operations.SetOperatorTypeOnlyChangesKind | MathOperation.h:40-50 | setting the operator type changes only the kind, and setting it back restores the operation |
| PolynomialFunction.SetCoefficients | Polynomial.h:54-57 | after replacing the coefficients the polynomial evaluates with the new list and keeps its kind and setting |
| PolynomialFunction.CalculateY | Polynomial.cpp:48-67 | the loop over coefficients computes the reference evaluation of the polynomial |
| PolynomialFunction.SkippingZerosIsHarmless | Polynomial.cpp:55-64 | skipping zero coefficients gives the same sum as adding every term |
| PolynomialFunction.MatchesPowerSeries | Polynomial.h:78-85 | when pow is exact on whole exponents, the result is the sum of c[i]·x^i |
| PolynomialFunction.PrefixSumStable | Polynomial.cpp:55-64 | appending coefficients does not change the sum of the terms before them |
| PolynomialFunction.TrailingZerosIgnored | Polynomial.h:78-85 | a trailing zero coefficient does not change the value |
| PolynomialFunction.LowOrderTerms | Polynomial.h:78-85 | the empty polynomial is 0, the first coefficient is the constant term, and the second multiplies x |
| PolynomialFunction.AlwaysSucceeds | Polynomial.cpp:48-67 | a polynomial always succeeds, and its value depends on neither the setting, the globals nor the incoming y |
| SimpleOperator.Default | SimpleOperator.cpp:11-18 | a default operator is an addition with no operands, and it evaluates to 0 successfully |
| SimpleOperator.FunctionFunction | SimpleOperator.cpp:24-31 | the left and right operands are the two functions' values at x |
| SimpleOperator.FunctionConstant | SimpleOperator.cpp:37-46 | the left operand is the function's value at x and the right operand is the constant |
| SimpleOperator.ConstantFunction | SimpleOperator.cpp:52-62 | the left operand is the constant and the right operand is the function's value at x |
| SimpleOperator.CalculateY | SimpleOperator.cpp:78-144 | the imperative evaluation equals the reference evaluation of the operator node |
| SimpleOperator.LeftFailureShortCircuits | SimpleOperator.cpp:102-109 | when the left operand fails, the result is MATH_UNDEFINED with y untouched, whatever the right operand is |
| SimpleOperator.LeftFunctionTakesPrecedence | SimpleOperator.h:112-117 | when the left operand is a function, the left constant is never consulted, whatever the right side is |
| SimpleOperator.RightFunctionTakesPrecedence | SimpleOperator.h:112-117 | when the right operand is a function, the right constant is never consulted, whatever the left side is |
| SimpleOperator.ArithmeticResults | SimpleOperator.cpp:114-137 | with both operands defined, add, subtract, multiply and power give l+r, l-r, l·r and pow(l, r); other kinds give 0 |
| SimpleOperator.DivisionGuard | SimpleOperator.cpp:125-130 | division is undefined exactly when the divisor is tolerance-equal to zero; a successful result times a non-zero divisor is the dividend; with a non-negative tolerance every success has a non-zero divisor |
| SimpleOperator.UndefinedCauses | SimpleOperator.cpp:102-137 | an operator is undefined only when an operand is undefined or when it divides by a tolerance-zero divisor |
| CompositeFunction.Default | CompositeFunction.cpp:12-16 | a default composite has neither function, and so it cannot be evaluated |
| CompositeFunction.NewComposite | CompositeFunction.cpp:23-29 | the outer and inner functions are the ones supplied, present or not |
| CompositeFunction.GetOutsideFunction | CompositeFunction.h:72-74 | the outside function; what it returns after construction or replacement is stated by `CompositeFunction.NewComposite` and `CompositeFunction.SetFunctions` |
| CompositeFunction.GetInsideFunction | CompositeFunction.h:80-82 | the inside function, stated in the same way |
| CompositeFunction.SetFunctions | CompositeFunction.cpp:43-52 | a supplied function replaces the current one, and an absent argument keeps the current one |
| CompositeFunction.CalculateY | CompositeFunction.cpp:59-73 | the imperative evaluation equals the reference evaluation of the composite |
| CompositeFunction.SuccessComposes | CompositeFunction.cpp:67-70 | when the inner function succeeds, the composite is the outer function at the inner value |
| CompositeFunction.FailureStillRunsOuter | CompositeFunction.cpp:67-70 | when the inner function fails, the outer function still runs, at 0 |
| CompositeFunction.NoOuterReturnsInnerStatus | CompositeFunction.cpp:67-72 | without an outer function the inner status is returned and y is not written |
| CompositeFunction.InnerFailureMasked | CompositeFunction.cpp:59-73 | the constant 5 composed with log10 at x = -1 succeeds with 5, although log10 is undefined there |
| TrigFunction.NewTrig | TrigFunction.cpp:26-29 | a new trig function of a trigonometric kind has that kind and no setting |
| TrigFunction.CalculateY | TrigFunction.cpp:43-94 | the imperative evaluation equals the reference evaluation of the trig node |
| TrigFunction.AngleFollowsMode | TrigFunction.cpp:50-54 | in degree mode x is converted to radians; in radian mode it is used as given |
| TrigFunction.DirectFunctionsSucceed | TrigFunction.cpp:58-66 | sin, cos and tan always succeed with the library value at the angle |
| TrigFunction.ReciprocalFunctions | TrigFunction.cpp:67-87 | cot, sec and csc are undefined exactly when tan, cos or sin is tolerance-zero; a successful result times a non-zero denominator is 1; with a non-negative tolerance every success has a non-zero denominator |
| TrigFunction.OtherKindsYieldZero | TrigFunction.cpp:56-94 | a trig node of a non-trigonometric kind succeeds with 0 |
| LogFunction.Default | LogFunction.cpp:11-15 | a default log has a zero base, so it is undefined at every x when the epsilon is not negative |
| LogFunction.NewLog | LogFunction.cpp:21-30 | ln is given base e whatever base is passed; log keeps the base passed |
| LogFunction.CalculateY | LogFunction.cpp:44-82 | the imperative evaluation equals the reference evaluation of the log node |
| LogFunction.DomainCheck | LogFunction.cpp:52-53 | a log is undefined exactly when x or the base is tolerance-less-or-equal to zero |
| LogFunction.RejectsNearZero | LogFunction.cpp:52 | every x below the effective epsilon, including small positive x, is rejected with y untouched |
| LogFunction.LnIgnoresBase | LogFunction.cpp:59-65 | a successful ln is the natural logarithm of x |
| LogFunction.LogToBase | LogFunction.cpp:66-78 | a successful log is log10(x) for base 10, and otherwise log10(x) divided by log10(base) |
| LogFunction.LnConstructionIgnoresBase | LogFunction.cpp:26-29 | two ln functions built with different bases evaluate identically |
| MathOperationFactory.CreateMathOperation | MathOperationFactory.cpp:25-81 | a built operation has the requested kind and no setting; nothing is built iff an arithmetic kind gets neither two functions nor a function and a constant |
| MathOperationFactory.Build | MathOperationFactory.cpp:36-78 | the switch builds every non-arithmetic kind: a polynomial for POLYNOMIAL, a trig node for a trigonometric kind, a log node for LOG and LN and a composite for COMPOSITE, always without a setting |
| MathOperationFactory.GetLhs | SimpleOperator.h:65-67 | only an operator or a composite has a left function (CompositeFunction.h:56-58 answers its outside function) |
| MathOperationFactory.GetRhs | SimpleOperator.h:73-75 | only an operator or a composite has a right function (CompositeFunction.h:64-66 answers its inside function) |
| MathOperationFactory.GetLeftConstant | LogFunction.h:54-56 | a logarithm answers its base, and otherwise only an operator can answer a left constant (SimpleOperator.h:81-83) |
| MathOperationFactory.GetRightConstant | SimpleOperator.h:89-91 | only an operator has a right constant |
| MathOperationFactory.GetCoefficients | Polynomial.h:63-65 | exactly the polynomials have a coefficient list |
| MathOperationFactory.Rebuild | MathFunction.cpp:353-366 | a rebuilt operation has the original kind and no setting, and every non-arithmetic kind is always rebuilt |
| MathOperationFactory.RebuildRestoresNode | MathFunction.cpp:353-366 | rebuilding an operation from its kind and accessors gives back the same operation |
| MathOperationFactory.ArithmeticOperands | MathOperationFactory.cpp:38-51 | an arithmetic operation is built from two functions, or a function and a right constant, or a left constant and a function, in that order of preference, and its operands evaluate to them |
| MathOperationFactory.CompositeAlwaysBuilt | MathOperationFactory.cpp:55-57 | a composite is always built, with the left operand as outer and the right as inner, present or not |
| MathOperationFactory.TrigIgnoresOperands | MathOperationFactory.cpp:58-65 | a trig kind is built the same whatever operands are passed |
| MathOperationFactory.LogBase | MathOperationFactory.cpp:67-77 | ln gets base e; log gets the left constant as base, or 10 when there is none |
| MathOperationFactory.PolynomialCopiesCoefficients | MathOperationFactory.cpp:52-54 | a polynomial is built from exactly the coefficients given |
| Point.Point.constructor | Point.cpp:20-24 | a new point is at the origin and uses the given setting |
| Point.Point.At | Point.cpp:33-39 | a point built from coordinates holds them |
| Point.Point.Copy | Point.cpp:47-52 | a copied point holds the other point's coordinates |
| Point.Point.SetX | Point.h:71-73 | x becomes the new value and y is unchanged |
| Point.Point.SetY | Point.h:79-81 | y becomes the new value and x is unchanged |
| Point.Point.Set | Point.h:89-94 | the point becomes the given coordinates shifted by the offset point |
| Point.Point.SetCoordinates | Point.h:89-94 | with no offset the point takes the given coordinates |
| Point.Point.SetFrom | Point.h:100-102 | the point takes the other point's coordinates |
| Point.Point.GetX | Point.h:55-57 | reads x; what it returns after a write is stated by `Point.Point.SetX` and the other setters |
| Point.Point.GetY | Point.h:63-65 | reads y; what it returns after a write is stated by `Point.Point.SetY` and the other setters |
| Point.Point.Equals | Point.cpp:58-63 | a point equals itself, and a distinct point with the same coordinates is equal iff the left point's tolerance is not negative |
| Point.Point.NotEquals | Point.cpp:69-73 | a point is never unequal to itself; the negation of `Equals` is stated by `Point.EqualityUsesLeftTolerance` |
| Point.Point.DistanceOrthogonal | Point.cpp:226-232 | the orthogonal distance is non-negative and zero exactly between equal coordinates |
| Point.Point.DistanceOrthogonalTo | Point.cpp:241-248 | the same for the overload taking coordinates |
| Point.Point.Assign | Point.cpp:79-86 | assignment copies the coordinates and keeps the point's own setting |
| Point.Point.AddAssign | Point.cpp:93-99 | each coordinate grows by the other point's coordinate |
| Point.Point.Plus | Point.cpp:101-107 | the sum is a new point with summed coordinates |
| Point.Point.SubAssign | Point.cpp:115-121 | each coordinate shrinks by the other point's coordinate |
| Point.Point.Minus | Point.cpp:123-129 | the difference is a new point with subtracted coordinates |
| Point.Point.Negate | Point.cpp:136-143 | the negation is a new point with both coordinates negated |
| Point.Point.TimesAssign | Point.cpp:150-157 | both coordinates are scaled, and the returned point holds the coordinates before scaling |
| Point.Point.Times | Point.cpp:159-165 | the product is a new point with scaled coordinates |
| Point.Point.DivAssign | Point.cpp:172-179 | both coordinates are divided, with no zero guard, and the returned point holds the coordinates before division |
| Point.Point.Over | Point.cpp:181-187 | the quotient is a new point with divided coordinates, with no zero guard |
| Point.OrthogonalDistanceIsMetric | Point.cpp:226-248 | the orthogonal (Manhattan) distance is non-negative, zero only between equal coordinates, symmetric and obeys the triangle inequality; the coordinate overload agrees with the point overload |
| Point.EqualityUsesLeftTolerance | Point.cpp:58-73 | two distinct points are equal iff both coordinates are within the left point's epsilon when it is positive, iff the coordinates are identical when it is zero, and never when it is negative; != is the negation of == |
| Point.SelfEqualityShortcut | Point.cpp:58-63 | a point always equals itself, while a distinct point with the same coordinates is equal only when the epsilon is not negative |
| MathFunction.CalculateNode | MathOperation.h:57-59 | dispatching to the variant's CalculateY computes the reference evaluation of any operation |
| MathFunction.WithSetting | MathBase.cpp:154-159 | giving an operation a setting sets its setting, keeps its kind and keeps it well-formed |
| MathFunction.WithSettingOnlyChangesSetting | MathBase.cpp:154-159 | giving an operation a setting changes nothing else: restoring the old setting gives the operation back, and giving the same setting twice changes nothing |
| MathFunction.MathFunction.constructor | MathFunction.cpp:18-22 | a default function has no operation and no setting |
| MathFunction.MathFunction.OfKind | MathFunction.cpp:28-32 | the operation is what the factory builds from the kind alone |
| MathFunction.MathFunction.OfFunctions | MathFunction.cpp:38-44 | the operation is what the factory builds from the kind and the two operand functions |
| MathFunction.MathFunction.LeftConstant | MathFunction.cpp:50-57 | the operation is what the factory builds from the kind, a left constant and a right function |
| MathFunction.MathFunction.RightConstant | MathFunction.cpp:64-71 | the operation is what the factory builds from the kind, a left function and a right constant |
| MathFunction.MathFunction.OfCoefficients | MathFunction.cpp:78-84 | the operation is what the factory builds from the kind and the coefficients |
| MathFunction.MathFunction.Copy | MathFunction.cpp:90-101 | the copy rebuilds the operation through the factory; when the other function has a setting, the copy gets a new setting with the same values, which its operation shares; otherwise neither the copy nor its operation has a setting |
| MathFunction.MathFunction.SetEpsilon | MathFunction.cpp:118-131 | the function's epsilon becomes the new value; a newly created setting is handed to the operation, which then sees the new epsilon |
| MathFunction.MathFunction.SetAngleMode | MathFunction.cpp:138-152 | the function's angle mode becomes the new value; a newly created setting is handed to the operation, which then sees the new mode |
| MathFunction.MathFunction.Assign | MathFunction.cpp:159-175 | self-assignment changes nothing; otherwise the operation is rebuilt from the other function's; when the other function has a setting, its values are copied into this function's setting (created if absent), which the new operation then shares; otherwise this function keeps its own setting with its values unchanged and the new operation has none |
| MathFunction.MathFunction.Combine | MathFunction.cpp:183-291 | f op g is a new function whose operation applies the operator to f and g |
| MathFunction.MathFunction.CombineConstant | MathFunction.cpp:196-304 | f op c is a new function whose operation applies the operator to f and the constant |
| MathFunction.MathFunction.Apply | MathFunction.cpp:312-317 | f(g) is a new function whose operation is the composite with f outside and g inside |
| MathFunction.MathFunction.CalculateY | MathFunction.cpp:375-383 | evaluating a function runs its operation, and a function without an operation is undefined |
| MathFunction.MathFunction.CalculatePoint | MathFunction.cpp:392-408 | a null point or a missing operation gives MATH_UNDEFINED; otherwise the status is the function's at the point's x, x is unchanged, y is written only on success and then holds the function's value |
| MathFunction.OutcomeIgnoresOldY | MathFunction.cpp:392-408 | the status never depends on the incoming y, and neither does the value of an operation that always writes y |
| MathFunction.LeafIgnoresOldY | SimpleOperator.cpp:78-144 | a non-composite operation's status and successful value do not depend on the incoming y |
| MathFunction.NoOperationIsUndefined | MathFunction.cpp:375-383 | a function with no operation is undefined and leaves y untouched |
| MathFunction.ArithmeticKindAloneIsUndefined | MathFunction.cpp:28-32 | a function made from an arithmetic kind alone gets no operation and is undefined everywhere |
| MathFunction.CombineEvaluates | MathFunction.cpp:183-291 | f op g is undefined when f or g is, and otherwise applies the operator to their values |
| MathFunction.CombineConstantEvaluates | MathFunction.cpp:196-304 | f op c is undefined when f is, and otherwise applies the operator to f's value and c |
| MathFunction.ApplyEvaluates | MathFunction.cpp:312-317 | f(g) is f at g's value when g succeeds, and f at 0 when g fails |
| MathFunction.SquareOfSine | MathFunction.cpp:312-317 | x² applied to sin gives sin² of the angle when pow is exact on whole exponents |

## Left out

- Console output (`PrintObject` and the stream operators): output to a console has no effect on values.
- `Point::Distance` and the point rotations: these compute with `sqrt`, `sin` and `cos` on doubles, outside the evaluation core. Only the orthogonal distance is modelled.
- The diagonal-angle constants `MATH_SIN_45` to `MATH_COS_315` (MathDefs.h:20-30): no operation of the core reads them.
- `GetOperatorClass` and the other type queries: they only report which variant a node is, which the datatype constructor already shows.
- Memory management: destructors, the operation leaked by `MathFunction::operator=`, and dangling operand pointers are not modelled.
- Operand aliasing: an operand `MathFunction` is captured as a value (`FunctionRef`) when an operation is built. A later change to the operand object, such as a new epsilon or an assignment, is not seen by operations built from it, whereas in the C++ code they would see it through the raw pointer.
- Floating point: NaN, infinities and rounding are not modelled, and the library functions are uninterpreted fields of `CMath.Numerics`. Division by exactly zero (`Point::operator/` has no guard) yields an unspecified value.
- Uninitialised state becomes a precondition or an unspecified value. A composite with no inner function reads an uninitialised status, so evaluation requires `WellFormed`. A default `MathSetting` (`MathSetting.MathSetting.Unset`) has unspecified fields. A polynomial with no coefficient list is excluded by the factory's requirement that `Polynomial` be given coefficients.
- `MathFunction.MathFunction.Copy` and `MathFunction.MathFunction.Assign` require the source function to have an operation, because the C++ code dereferences it without a check.
- Every variant constructor leaves `m_Operator` unset except `SimpleOperator()` (SimpleOperator.cpp:11-18), `SimpleOperator(type, constant, function)` (SimpleOperator.cpp:52-62) and `LogFunction()` (LogFunction.cpp:11-15): among them the `Polynomial` constructors (Polynomial.cpp:21-33), the `CompositeFunction` constructors (CompositeFunction.cpp:12-29), both `TrigFunction` constructors (TrigFunction.cpp:18-20, 26-29; the second also ignores its argument) and the function-function and function-constant `SimpleOperator` constructors (SimpleOperator.cpp:24-31, 37-46). The factory stamps the kind on every operation it builds (MathOperationFactory.cpp:79). The model's node constructors all take or stamp a kind, including `CompositeFunction.Default`, which stamps `Composite` where the C++ default constructor leaves the kind unset; so the two agree for every operation the factory builds, and the unset kind of an operation built outside the factory is not modelled.
- Operand accessors: the accessors `GetLhs`, `GetRhs`, `GetLeftConstant`, `GetRightConstant` and `GetCoefficients` that `MathFunction` calls when copying are declared by the variants, not by the base `MathOperation` interface. A variant without one is modelled as answering "absent".
- MathFunction.MathFunction.CalculatePoint: y is not pinned on success when the tree has a composite with no outer function, because the C++ code then writes a y it never initialised.
- The `MathFunction` operator sugar (`+ - * / ^` with a function or a constant) is one method per form with the operator kind as a parameter: `Combine`, `CombineConstant` and `Apply`.
- Each variant's `CalculateY` evaluates sub-functions through the reference evaluation `Operations.EvalRef` rather than by calling the methods recursively. The methods are proved equal to that evaluation, so this is a presentation choice, not a gap in behaviour.
- Thread safety of the static globals: the statics are a value passed to evaluation.

## Findings

| source | as written | input that shows it | evidently intended | confidence | as-written member | corrected member |
|---|---|---|---|---|---|---|
| MathDefs.h:15 | `PI_OVER_2` is defined as 2π | the constant itself: 2π differs from π/2 | π/2, a right angle | not executed; no code in the core uses the constant | MathDefs.PiOver2AsWritten | MathDefs.HalfPiIsRightAngle |
