/** The six trigonometric functions, in the node's effective angle mode. */
module TrigFunction {
  import opened Optional
  import opened MathDefs
  import opened CMath
  import MS = MathSetting
  import opened Tolerance
  import opened Operations

  /**
   * TrigFunction(oper): the argument is not stored; the factory stamps the
   * kind afterwards, which is the `kind` given here.
   */
  function NewTrig(kind: OperatorType): (n: Node)
    requires IsTrigonometric(kind)
    ensures n.Trig? && n.kind == kind && n.setting.None?
  {
    Trig(kind, None)
  }

  /**
   * TrigFunction::CalculateY: converts the argument to radians in degree
   * mode, applies the function, and for the reciprocal ones checks the
   * denominator against zero up to tolerance.
   */
  method CalculateY(n: Node, m: Numerics, g: MS.Setting, x: real, y: real) returns (status: MathResult, yOut: real)
    requires n.Trig?
    ensures Outcome(status, yOut) == EvalNode(n, m, g, x, y)
  {
    var angle := x;
    if EffectiveAngleMode(n.setting, g) == AnglesInDegrees {
      angle := DegreesToRadians(x);
    }
    var result := 0.0;
    status := Success;
    match n.kind {
      case Sin => result := m.sin(angle);
      case Cos => result := m.cos(angle);
      case Tan => result := m.tan(angle);
      case Cot =>
        result := m.tan(angle);
        if !IsEqual(n.setting, g, result, 0.0, 0.0) {
          result := Quotient(1.0, result, m);
        } else {
          status := Undefined;
        }
      case Sec =>
        result := m.cos(angle);
        if !IsEqual(n.setting, g, result, 0.0, 0.0) {
          result := Quotient(1.0, result, m);
        } else {
          status := Undefined;
        }
      case Csc =>
        result := m.sin(angle);
        if !IsEqual(n.setting, g, result, 0.0, 0.0) {
          result := Quotient(1.0, result, m);
        } else {
          status := Undefined;
        }
      case _ =>
    }
    yOut := if status == Success then result else y;
  }

  /** The angle is converted from degrees exactly when the effective mode is degrees. */
  lemma AngleFollowsMode(setting: Option<MS.Setting>, g: MS.Setting, x: real)
    ensures EffectiveAngleMode(setting, g) == AnglesInDegrees ==> Angle(setting, g, x) == x * Pi / 180.0
    ensures EffectiveAngleMode(setting, g) == AnglesInRadians ==> Angle(setting, g, x) == x
  {
  }

  /** SIN, COS and TAN always succeed with the plain function of the angle. */
  lemma DirectFunctionsSucceed(n: Node, m: Numerics, g: MS.Setting, x: real, y: real)
    requires n.Trig?
    ensures var a := Angle(n.setting, g, x);
      && (n.kind == Sin ==> EvalNode(n, m, g, x, y) == Outcome(Success, m.sin(a)))
      && (n.kind == Cos ==> EvalNode(n, m, g, x, y) == Outcome(Success, m.cos(a)))
      && (n.kind == Tan ==> EvalNode(n, m, g, x, y) == Outcome(Success, m.tan(a)))
  {
  }

  /** The denominator of each reciprocal function: tan for COT, cos for SEC, sin for CSC. */
  function Denominator(kind: OperatorType, m: Numerics, angle: real): real
    requires kind == Cot || kind == Sec || kind == Csc
  {
    if kind == Cot then m.tan(angle) else if kind == Sec then m.cos(angle) else m.sin(angle)
  }

  /**
   * COT, SEC and CSC are UNDEFINED exactly when their denominator is zero
   * up to tolerance. A success with a non-zero denominator is its
   * reciprocal; with a non-negative tolerance a success always has a
   * non-zero denominator.
   */
  lemma ReciprocalFunctions(n: Node, m: Numerics, g: MS.Setting, x: real, y: real)
    requires n.Trig? && (n.kind == Cot || n.kind == Sec || n.kind == Csc)
    ensures var d := Denominator(n.kind, m, Angle(n.setting, g, x));
      && (EvalNode(n, m, g, x, y).status == Undefined <==> IsEqual(n.setting, g, d, 0.0, 0.0))
      && (EvalNode(n, m, g, x, y).status == Success && d != 0.0 ==> EvalNode(n, m, g, x, y).y * d == 1.0)
      && (EvalNode(n, m, g, x, y).status == Success && EffectiveEpsilon(n.setting, g) >= 0.0 ==> d != 0.0)
  {
    var d := Denominator(n.kind, m, Angle(n.setting, g, x));
    IsEqualMeaning(n.setting, g, d, 0.0);
  }

  /** A kind outside the six has no case and yields 0. */
  lemma OtherKindsYieldZero(n: Node, m: Numerics, g: MS.Setting, x: real, y: real)
    requires n.Trig? && !IsTrigonometric(n.kind)
    ensures EvalNode(n, m, g, x, y) == Outcome(Success, 0.0)
  {
  }
}
