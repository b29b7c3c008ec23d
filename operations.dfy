/**
 * The expression tree and its reference evaluation.
 *
 * A `Node` is one concrete MathOperation (the variant says which class, the
 * `kind` is its stamped operator type, `setting` the value of its optional
 * MathSetting). A `FunctionRef` is a MathFunction used as an operand: its
 * operation, possibly absent. Evaluation takes the maths library `m`, the
 * process-wide statics `g`, the abscissa `x` and `y`, the value behind the
 * out-pointer before the call; the outcome's `y` is that value afterwards.
 */
module Operations {
  import opened Optional
  import opened MathDefs
  import opened CMath
  import MS = MathSetting
  import opened Tolerance

  datatype Node =
    | Binary(kind: OperatorType, setting: Option<MS.Setting>,
             lhs: Option<FunctionRef>, rhs: Option<FunctionRef>,
             leftConstant: Option<real>, rightConstant: Option<real>)
    | Poly(kind: OperatorType, setting: Option<MS.Setting>, coefficients: seq<real>)
    | Composed(kind: OperatorType, setting: Option<MS.Setting>,
               outside: Option<FunctionRef>, inside: Option<FunctionRef>)
    | Trig(kind: OperatorType, setting: Option<MS.Setting>)
    | Logarithm(kind: OperatorType, setting: Option<MS.Setting>, base: real)

  datatype FunctionRef = FunctionRef(operation: Option<Node>)

  /** Returned status and the value left behind the out-pointer. */
  datatype Outcome = Outcome(status: MathResult, y: real)

  /**
   * Every composite in the tree has an inside function: a composite without
   * one returns a status that was never initialised.
   */
  predicate WellFormed(n: Node)
    decreases n, 1
  {
    match n
    case Binary(_, _, lhs, rhs, _, _) =>
      && (lhs.Some? ==> WellFormedRef(lhs.value))
      && (rhs.Some? ==> WellFormedRef(rhs.value))
    case Composed(_, _, outside, inside) =>
      && inside.Some? && WellFormedRef(inside.value)
      && (outside.Some? ==> WellFormedRef(outside.value))
    case _ => true
  }

  predicate WellFormedRef(f: FunctionRef)
    decreases f, 0
  {
    f.operation.Some? ==> WellFormed(f.operation.value)
  }

  /**
   * MathFunction::CalculateY: UNDEFINED when there is no operation,
   * otherwise whatever the operation returns. On failure the out-pointer
   * is never written.
   */
  function EvalRef(f: FunctionRef, m: Numerics, g: MS.Setting, x: real, y: real): (r: Outcome)
    requires WellFormedRef(f)
    ensures r.status == Undefined ==> r.y == y
    decreases f, 2
  {
    if f.operation.None? then Outcome(Undefined, y) else EvalNode(f.operation.value, m, g, x, y)
  }

  /** The virtual CalculateY of a concrete operation. */
  function EvalNode(n: Node, m: Numerics, g: MS.Setting, x: real, y: real): (r: Outcome)
    requires WellFormed(n)
    ensures r.status == Undefined ==> r.y == y
    decreases n, 1
  {
    match n
    case Binary(_, _, _, _, _, _) => EvalBinary(n, m, g, x, y)
    case Poly(_, _, c) => Outcome(Success, PolySum(c, m, x, |c|))
    case Composed(_, _, _, _) => EvalComposite(n, m, g, x, y)
    case Trig(kind, setting) => TrigValue(kind, setting, m, g, x, y)
    case Logarithm(kind, setting, base) => LogValue(kind, setting, base, m, g, x, y)
  }

  /**
   * The value of one operand of a SimpleOperator: the function's result
   * (computed into a local that starts at 0) when there is a function,
   * else the constant, else 0.
   */
  function Operand(slot: Option<FunctionRef>, constant: Option<real>, m: Numerics, g: MS.Setting, x: real): (r: Outcome)
    requires slot.Some? ==> WellFormedRef(slot.value)
    ensures r.status == Undefined ==> r.y == 0.0
    decreases slot, 2
  {
    if slot.Some? then EvalRef(slot.value, m, g, x, 0.0)
    else if constant.Some? then Outcome(Success, constant.value)
    else Outcome(Success, 0.0)
  }

  /** SimpleOperator::CalculateY: the right operand is only evaluated when the left succeeded. */
  function EvalBinary(n: Node, m: Numerics, g: MS.Setting, x: real, y: real): (r: Outcome)
    requires n.Binary? && WellFormed(n)
    ensures r.status == Undefined ==> r.y == y
    decreases n, 0
  {
    var left := Operand(n.lhs, n.leftConstant, m, g, x);
    if left.status != Success then Outcome(left.status, y)
    else
      var right := Operand(n.rhs, n.rightConstant, m, g, x);
      if right.status != Success then Outcome(right.status, y)
      else ApplyOperator(n.kind, n.setting, m, g, left.y, right.y, y)
  }

  /**
   * The switch on the operator: division is UNDEFINED when the divisor is
   * zero up to tolerance; a kind with no case leaves the result at 0.
   */
  function ApplyOperator(kind: OperatorType, setting: Option<MS.Setting>, m: Numerics, g: MS.Setting,
                         left: real, right: real, y: real): (r: Outcome)
    ensures r.status == Undefined ==> kind == Divide && r.y == y
  {
    match kind
    case Add => Outcome(Success, left + right)
    case Subtract => Outcome(Success, left - right)
    case Multiply => Outcome(Success, left * right)
    case Divide =>
      if !IsEqual(setting, g, right, 0.0, 0.0) then Outcome(Success, Quotient(left, right, m))
      else Outcome(Undefined, y)
    case Power => Outcome(Success, m.pow(left, right))
    case _ => Outcome(Success, 0.0)
  }

  /** The power of x used for coefficient `i`: 1 and x directly, pow otherwise. */
  function PowerOf(m: Numerics, x: real, i: nat): real
  {
    if i == 0 then 1.0 else if i == 1 then x else m.pow(x, i as real)
  }

  /** What coefficient `i` adds to the sum: nothing when it is zero. */
  function Term(c: seq<real>, m: Numerics, x: real, i: nat): real
    requires i < |c|
  {
    if c[i] == 0.0 then 0.0 else c[i] * PowerOf(m, x, i)
  }

  /** The polynomial's value over its first `i` coefficients. */
  function PolySum(c: seq<real>, m: Numerics, x: real, i: nat): (r: real)
    requires i <= |c|
    ensures (forall j | 0 <= j < i :: c[j] == 0.0) ==> r == 0.0
  {
    if i == 0 then 0.0 else PolySum(c, m, x, i - 1) + Term(c, m, x, i - 1)
  }

  /**
   * CompositeFunction::CalculateY: the inside function is evaluated into a
   * local that starts at 0; the outside function runs whenever it exists,
   * because every status tests true; without one the inside status is
   * returned and the out-pointer is left alone.
   */
  function EvalComposite(n: Node, m: Numerics, g: MS.Setting, x: real, y: real): (r: Outcome)
    requires n.Composed? && WellFormed(n)
    ensures r.status == Undefined ==> r.y == y
    decreases n, 0
  {
    var inner := EvalRef(n.inside.value, m, g, x, 0.0);
    if n.outside.Some? && Code(inner.status) != 0 then EvalRef(n.outside.value, m, g, inner.y, y)
    else Outcome(inner.status, y)
  }

  /** The angle a trigonometric function works on, in radians. */
  function Angle(setting: Option<MS.Setting>, g: MS.Setting, x: real): real
  {
    if EffectiveAngleMode(setting, g) == AnglesInDegrees then DegreesToRadians(x) else x
  }

  /** 1/v, or UNDEFINED when v is zero up to tolerance. */
  function Reciprocal(v: real, setting: Option<MS.Setting>, m: Numerics, g: MS.Setting, y: real): Outcome
  {
    if !IsEqual(setting, g, v, 0.0, 0.0) then Outcome(Success, Quotient(1.0, v, m)) else Outcome(Undefined, y)
  }

  /** TrigFunction::CalculateY; a kind with no case leaves the result at 0. */
  function TrigValue(kind: OperatorType, setting: Option<MS.Setting>, m: Numerics, g: MS.Setting,
                     x: real, y: real): (r: Outcome)
    ensures r.status == Undefined ==> (kind == Cot || kind == Sec || kind == Csc) && r.y == y
  {
    var angle := Angle(setting, g, x);
    match kind
    case Sin => Outcome(Success, m.sin(angle))
    case Cos => Outcome(Success, m.cos(angle))
    case Tan => Outcome(Success, m.tan(angle))
    case Cot => Reciprocal(m.tan(angle), setting, m, g, y)
    case Sec => Reciprocal(m.cos(angle), setting, m, g, y)
    case Csc => Reciprocal(m.sin(angle), setting, m, g, y)
    case _ => Outcome(Success, 0.0)
  }

  /**
   * LogFunction::CalculateY: UNDEFINED for x or base not above zero (up to
   * tolerance); natural log for LN, otherwise log10 rescaled to the base
   * unless the base is exactly 10.
   */
  function LogValue(kind: OperatorType, setting: Option<MS.Setting>, base: real, m: Numerics, g: MS.Setting,
                    x: real, y: real): (r: Outcome)
    ensures r.status == Undefined ==> r.y == y
    ensures r.status == Success ==> x >= 0.0 && base >= 0.0
    ensures r.status == Success && EffectiveEpsilon(setting, g) >= 0.0 ==> x > 0.0 && base > 0.0
  {
    if IsLessOrEqual(setting, g, x, 0.0, 0.0) then Outcome(Undefined, y)
    else if IsLessOrEqual(setting, g, base, 0.0, 0.0) then Outcome(Undefined, y)
    else if kind == Ln then Outcome(Success, m.log(x))
    else if base != 10.0 then Outcome(Success, Quotient(m.log10(x), m.log10(base), m))
    else Outcome(Success, m.log10(x))
  }

  /** MathOperation::SetOperatorType: stamps the kind on a node. */
  function SetOperatorType(n: Node, kind: OperatorType): (r: Node)
    ensures r.kind == kind && r.setting == n.setting
    ensures WellFormed(n) ==> WellFormed(r)
  {
    match n
    case Binary(_, s, lhs, rhs, lc, rc) => Binary(kind, s, lhs, rhs, lc, rc)
    case Poly(_, s, c) => Poly(kind, s, c)
    case Composed(_, s, outside, inside) => Composed(kind, s, outside, inside)
    case Trig(_, s) => Trig(kind, s)
    case Logarithm(_, s, base) => Logarithm(kind, s, base)
  }

  /** Stamping sets the kind and changes nothing else: restoring the old kind gives the node back. */
  lemma SetOperatorTypeOnlyChangesKind(n: Node, kind: OperatorType)
    ensures SetOperatorType(n, kind).kind == kind
    ensures SetOperatorType(n, kind).setting == n.setting
    ensures SetOperatorType(SetOperatorType(n, kind), n.kind) == n
  {
  }
}
