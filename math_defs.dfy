/**
 * Numerical constants, angle-mode flags and the two enumerations shared by
 * every math class: the status of an evaluation and the operator kinds.
 */
module MathDefs {

  const Pi: real := 3.141592653589793
  const TwoPi: real := 2.0 * Pi
  /** Named for pi/2 but defined as 2*pi; kept as written. */
  const PiOver2: real := TwoPi
  const PiOver180: real := Pi / 180.0
  const OneEightyOverPi: real := 180.0 / Pi
  const E: real := 2.718281828459045
  /** pi/2 as the name of PiOver2 promises: the corrected value, used only by the lemmas that exhibit the discrepancy. */
  const HalfPi: real := Pi / 2.0

  /** The two angle modes: degrees is `true`, radians is `false`. */
  const AnglesInDegrees: bool := true
  const AnglesInRadians: bool := false

  /** Status of an evaluation. */
  datatype MathResult = Undefined | Success

  /**
   * The integer each status carries (-1 and 1). Both are non-zero, so a
   * status tested as a boolean is always true.
   */
  function Code(r: MathResult): (c: int)
    ensures c != 0
    ensures c > 0 <==> r == Success
  {
    match r
    case Undefined => -1
    case Success => 1
  }

  /** The closed set of operator kinds. */
  datatype OperatorType =
    | Add | Subtract | Multiply | Divide | Power
    | Polynomial | Composite
    | Sin | Cos | Tan | Cot | Sec | Csc
    | Log | Ln

  /** The operator kinds in declaration order; `Add` is 0. */
  const Enumerators: seq<OperatorType> :=
    [Add, Subtract, Multiply, Divide, Power, Polynomial, Composite,
     Sin, Cos, Tan, Cot, Sec, Csc, Log, Ln]

  /** The integer value of an operator kind: its position in the declaration. */
  function Ordinal(k: OperatorType): (i: nat)
    ensures i < |Enumerators| == 15
    ensures Enumerators[i] == k
  {
    match k
    case Add => 0
    case Subtract => 1
    case Multiply => 2
    case Divide => 3
    case Power => 4
    case Polynomial => 5
    case Composite => 6
    case Sin => 7
    case Cos => 8
    case Tan => 9
    case Cot => 10
    case Sec => 11
    case Csc => 12
    case Log => 13
    case Ln => 14
  }

  /** No two operator kinds share a value, and every value 0..14 is taken. */
  lemma OrdinalIsBijective(k1: OperatorType, k2: OperatorType, i: int)
    ensures Ordinal(k1) == Ordinal(k2) ==> k1 == k2
    ensures 0 <= i < 15 ==> Ordinal(Enumerators[i]) == i
  {
    if 0 <= i < 15 {
      var k := Enumerators[i];
      match k
      case Add =>
      case Subtract =>
      case Multiply =>
      case Divide =>
      case Power =>
      case Polynomial =>
      case Composite =>
      case Sin =>
      case Cos =>
      case Tan =>
      case Cot =>
      case Sec =>
      case Csc =>
      case Log =>
      case Ln =>
    }
  }

  predicate IsArithmetic(k: OperatorType)
  {
    k == Add || k == Subtract || k == Multiply || k == Divide || k == Power
  }

  predicate IsTrigonometric(k: OperatorType)
  {
    k == Sin || k == Cos || k == Tan || k == Cot || k == Sec || k == Csc
  }

  /** The degree factors are reciprocal and 2*pi is twice pi. */
  lemma ConstantRelations()
    ensures PiOver180 * OneEightyOverPi == 1.0
    ensures TwoPi == 2.0 * Pi
    ensures AnglesInDegrees != AnglesInRadians
  {
  }

  /** As written, the constant named for pi/2 is 2*pi, four times too large. */
  lemma PiOver2AsWritten()
    ensures PiOver2 == 4.0 * HalfPi
    ensures PiOver2 != Pi / 2.0
  {
  }

  /** The corrected constant: twice it is pi, and it is a right angle in the model's degree factor. */
  lemma HalfPiIsRightAngle()
    ensures 2.0 * HalfPi == Pi
    ensures HalfPi == 90.0 * PiOver180
  {
  }
}
