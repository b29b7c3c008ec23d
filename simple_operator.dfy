/**
 * A binary arithmetic operator whose operands are each a function or a
 * constant. A function operand takes precedence over a constant on the
 * same side; with neither, the operand is 0.
 */
module SimpleOperator {
  import opened Optional
  import opened MathDefs
  import opened CMath
  import MS = MathSetting
  import opened Tolerance
  import opened Operations

  /** The default constructor: an addition with no operands, which evaluates to 0. */
  function Default(): (n: Node)
    ensures n.Binary? && n.kind == Add && WellFormed(n)
    ensures forall m, g, x, y :: EvalNode(n, m, g, x, y) == Outcome(Success, 0.0)
  {
    Binary(Add, None, None, None, None, None)
  }

  /** Two function operands: each side evaluates its function; the constants are left unset. */
  function FunctionFunction(kind: OperatorType, lhs: FunctionRef, rhs: FunctionRef): (n: Node)
    ensures n.Binary? && n.kind == kind && n.setting.None?
    ensures n.lhs == Some(lhs) && n.rhs == Some(rhs)
    ensures WellFormedRef(lhs) && WellFormedRef(rhs) ==> WellFormed(n)
    ensures WellFormedRef(lhs) ==> forall m, g, x :: Operand(n.lhs, n.leftConstant, m, g, x) == EvalRef(lhs, m, g, x, 0.0)
    ensures WellFormedRef(rhs) ==> forall m, g, x :: Operand(n.rhs, n.rightConstant, m, g, x) == EvalRef(rhs, m, g, x, 0.0)
  {
    Binary(kind, None, Some(lhs), Some(rhs), None, None)
  }

  /** A function on the left and a constant on the right; the opposite slots are null. */
  function FunctionConstant(kind: OperatorType, lhs: FunctionRef, rightConstant: real): (n: Node)
    ensures n.Binary? && n.kind == kind && n.setting.None?
    ensures n.lhs == Some(lhs) && n.rhs.None? && n.leftConstant.None? && n.rightConstant == Some(rightConstant)
    ensures WellFormedRef(lhs) ==> WellFormed(n)
    ensures WellFormedRef(lhs) ==> forall m, g, x :: Operand(n.lhs, n.leftConstant, m, g, x) == EvalRef(lhs, m, g, x, 0.0)
    ensures forall m, g, x :: Operand(n.rhs, n.rightConstant, m, g, x) == Outcome(Success, rightConstant)
  {
    Binary(kind, None, Some(lhs), None, None, Some(rightConstant))
  }

  /** A constant on the left and a function on the right; the opposite slots are null. */
  function ConstantFunction(kind: OperatorType, leftConstant: real, rhs: FunctionRef): (n: Node)
    ensures n.Binary? && n.kind == kind && n.setting.None?
    ensures n.lhs.None? && n.rhs == Some(rhs) && n.leftConstant == Some(leftConstant) && n.rightConstant.None?
    ensures WellFormedRef(rhs) ==> WellFormed(n)
    ensures forall m, g, x :: Operand(n.lhs, n.leftConstant, m, g, x) == Outcome(Success, leftConstant)
    ensures WellFormedRef(rhs) ==> forall m, g, x :: Operand(n.rhs, n.rightConstant, m, g, x) == EvalRef(rhs, m, g, x, 0.0)
  {
    Binary(kind, None, None, Some(rhs), Some(leftConstant), None)
  }

  /**
   * SimpleOperator::CalculateY: resolves the left operand, then the right
   * one only if the left succeeded, then applies the operator; the
   * out-pointer is written only on success. Operand functions are evaluated
   * by the reference evaluation.
   */
  method CalculateY(n: Node, m: Numerics, g: MS.Setting, x: real, y: real) returns (status: MathResult, yOut: real)
    requires n.Binary? && WellFormed(n)
    ensures Outcome(status, yOut) == EvalNode(n, m, g, x, y)
  {
    assert EvalNode(n, m, g, x, y) == EvalBinary(n, m, g, x, y);
    status := Success;
    var left, right := 0.0, 0.0;
    if n.lhs.Some? {
      var o := EvalRef(n.lhs.value, m, g, x, left);
      status, left := o.status, o.y;
    } else if n.leftConstant.Some? {
      left := n.leftConstant.value;
    }
    assert Outcome(status, left) == Operand(n.lhs, n.leftConstant, m, g, x);
    if status == Success {
      if n.rhs.Some? {
        var o := EvalRef(n.rhs.value, m, g, x, right);
        status, right := o.status, o.y;
      } else if n.rightConstant.Some? {
        right := n.rightConstant.value;
      }
      assert Outcome(status, right) == Operand(n.rhs, n.rightConstant, m, g, x);
    }
    if status != Success {
      return status, y;
    }
    assert EvalBinary(n, m, g, x, y) == ApplyOperator(n.kind, n.setting, m, g, left, right, y);
    var result := 0.0;
    match n.kind {
      case Add => result := left + right;
      case Subtract => result := left - right;
      case Multiply => result := left * right;
      case Divide =>
        if !IsEqual(n.setting, g, right, 0.0, 0.0) {
          result := Quotient(left, right, m);
        } else {
          status := Undefined;
        }
      case Power => result := m.pow(left, right);
      case _ =>
    }
    yOut := if status == Success then result else y;
  }

  /** A failing left function makes the whole operator fail before the right side is looked at. */
  lemma LeftFailureShortCircuits(n: Node, rhs: Option<FunctionRef>, rightConstant: Option<real>,
                                 m: Numerics, g: MS.Setting, x: real, y: real)
    requires n.Binary? && WellFormed(n)
    requires rhs.Some? ==> WellFormedRef(rhs.value)
    requires Operand(n.lhs, n.leftConstant, m, g, x).status == Undefined
    ensures EvalNode(n, m, g, x, y) == Outcome(Undefined, y)
    ensures EvalNode(n, m, g, x, y) == EvalNode(Binary(n.kind, n.setting, n.lhs, rhs, n.leftConstant, rightConstant), m, g, x, y)
  {
  }

  /** A left function is used whatever the left constant is: the constant is never consulted. */
  lemma LeftFunctionTakesPrecedence(n: Node, leftConstant: Option<real>, m: Numerics, g: MS.Setting, x: real, y: real)
    requires n.Binary? && WellFormed(n) && n.lhs.Some?
    ensures EvalNode(n, m, g, x, y) == EvalNode(Binary(n.kind, n.setting, n.lhs, n.rhs, leftConstant, n.rightConstant), m, g, x, y)
  {
    var n' := Binary(n.kind, n.setting, n.lhs, n.rhs, leftConstant, n.rightConstant);
    assert Operand(n.lhs, n.leftConstant, m, g, x) == Operand(n'.lhs, n'.leftConstant, m, g, x);
  }

  /** A right function is used whatever the right constant is: the constant is never consulted. */
  lemma RightFunctionTakesPrecedence(n: Node, rightConstant: Option<real>, m: Numerics, g: MS.Setting, x: real, y: real)
    requires n.Binary? && WellFormed(n) && n.rhs.Some?
    ensures EvalNode(n, m, g, x, y) == EvalNode(Binary(n.kind, n.setting, n.lhs, n.rhs, n.leftConstant, rightConstant), m, g, x, y)
  {
    var n' := Binary(n.kind, n.setting, n.lhs, n.rhs, n.leftConstant, rightConstant);
    assert Operand(n.rhs, n.rightConstant, m, g, x) == Operand(n'.rhs, n'.rightConstant, m, g, x);
  }

  /**
   * With both operands resolved to `l` and `r`: ADD, SUBTRACT, MULTIPLY and
   * POWER always succeed with l+r, l-r, l*r and pow(l, r); any non-arithmetic
   * kind succeeds with 0.
   */
  lemma ArithmeticResults(n: Node, m: Numerics, g: MS.Setting, x: real, y: real)
    requires n.Binary? && WellFormed(n)
    requires Operand(n.lhs, n.leftConstant, m, g, x).status == Success
    requires Operand(n.rhs, n.rightConstant, m, g, x).status == Success
    ensures var l, r := Operand(n.lhs, n.leftConstant, m, g, x).y, Operand(n.rhs, n.rightConstant, m, g, x).y;
      && (n.kind == Add ==> EvalNode(n, m, g, x, y) == Outcome(Success, l + r))
      && (n.kind == Subtract ==> EvalNode(n, m, g, x, y) == Outcome(Success, l - r))
      && (n.kind == Multiply ==> EvalNode(n, m, g, x, y) == Outcome(Success, l * r))
      && (n.kind == Power ==> EvalNode(n, m, g, x, y) == Outcome(Success, m.pow(l, r)))
      && (!IsArithmetic(n.kind) ==> EvalNode(n, m, g, x, y) == Outcome(Success, 0.0))
  {
  }

  /**
   * DIVIDE is UNDEFINED exactly when the divisor is zero up to tolerance.
   * A successful result times a non-zero divisor gives back the dividend;
   * with a non-negative tolerance a success always has a non-zero divisor,
   * while a negative tolerance disables the guard.
   */
  lemma DivisionGuard(n: Node, m: Numerics, g: MS.Setting, x: real, y: real)
    requires n.Binary? && WellFormed(n) && n.kind == Divide
    requires Operand(n.lhs, n.leftConstant, m, g, x).status == Success
    requires Operand(n.rhs, n.rightConstant, m, g, x).status == Success
    ensures var l, r := Operand(n.lhs, n.leftConstant, m, g, x).y, Operand(n.rhs, n.rightConstant, m, g, x).y;
      && (EvalNode(n, m, g, x, y).status == Undefined <==> IsEqual(n.setting, g, r, 0.0, 0.0))
      && (EvalNode(n, m, g, x, y).status == Success && r != 0.0 ==> EvalNode(n, m, g, x, y).y * r == l)
      && (EvalNode(n, m, g, x, y).status == Success && EffectiveEpsilon(n.setting, g) >= 0.0 ==> r != 0.0)
  {
    var r := Operand(n.rhs, n.rightConstant, m, g, x).y;
    IsEqualMeaning(n.setting, g, r, 0.0);
  }

  /**
   * An operator is UNDEFINED only because an operand function failed or a
   * division met a zero divisor; in particular POWER never fails by itself.
   */
  lemma UndefinedCauses(n: Node, m: Numerics, g: MS.Setting, x: real, y: real)
    requires n.Binary? && WellFormed(n)
    requires EvalNode(n, m, g, x, y).status == Undefined
    ensures || Operand(n.lhs, n.leftConstant, m, g, x).status == Undefined
            || Operand(n.rhs, n.rightConstant, m, g, x).status == Undefined
            || (n.kind == Divide && IsEqual(n.setting, g, Operand(n.rhs, n.rightConstant, m, g, x).y, 0.0, 0.0))
  {
  }
}
