/**
 * Builds the concrete operation for an operator kind from whichever
 * operands are supplied, or nothing when an arithmetic kind lacks usable
 * operands. Also the accessors a copy reads back from an operation.
 */
module MathOperationFactory {
  import opened Optional
  import opened MathDefs
  import opened CMath
  import MS = MathSetting
  import opened Operations
  import SimpleOperator
  import CompositeFunction
  import TrigFunction
  import LogFunction

  /** The node the switch builds, before the kind is stamped on it. */
  function Build(kind: OperatorType, lhs: Option<FunctionRef>, rhs: Option<FunctionRef>,
                 leftConstant: Option<real>, rightConstant: Option<real>, coefficients: Option<seq<real>>): (r: Option<Node>)
    requires kind == Polynomial ==> coefficients.Some?
    ensures r.Some? ==> r.value.setting.None?
    ensures IsTrigonometric(kind) ==> r.Some? && r.value.Trig?
    ensures kind == Composite ==> r.Some? && r.value.Composed?
    ensures kind == Polynomial ==> r.Some? && r.value.Poly?
    ensures kind == Log || kind == Ln ==> r.Some? && r.value.Logarithm?
    ensures !IsArithmetic(kind) ==> r.Some?
  {
    match kind
    case Polynomial => Some(Poly(Polynomial, None, coefficients.value))
    case Composite => Some(CompositeFunction.NewComposite(lhs, rhs))
    case Sin => Some(TrigFunction.NewTrig(kind))
    case Cos => Some(TrigFunction.NewTrig(kind))
    case Tan => Some(TrigFunction.NewTrig(kind))
    case Cot => Some(TrigFunction.NewTrig(kind))
    case Sec => Some(TrigFunction.NewTrig(kind))
    case Csc => Some(TrigFunction.NewTrig(kind))
    case Log => Some(LogFunction.NewLog(kind, if leftConstant.Some? then leftConstant.value else LogFunction.DefaultBase))
    case Ln => Some(LogFunction.NewLog(kind, if leftConstant.Some? then leftConstant.value else LogFunction.DefaultBase))
    case _ =>
      if lhs.Some? && rhs.Some? then Some(SimpleOperator.FunctionFunction(kind, lhs.value, rhs.value))
      else if lhs.Some? && rightConstant.Some? then Some(SimpleOperator.FunctionConstant(kind, lhs.value, rightConstant.value))
      else if rhs.Some? && leftConstant.Some? then Some(SimpleOperator.ConstantFunction(kind, leftConstant.value, rhs.value))
      else None
  }

  /**
   * MathOperationFactory::CreateMathOperation. A polynomial needs a
   * coefficient list. Every node built carries the requested kind and no
   * setting; nothing is built only for an arithmetic kind with neither
   * two functions, nor a left function and right constant, nor a right
   * function and left constant.
   */
  function CreateMathOperation(kind: OperatorType, lhs: Option<FunctionRef>, rhs: Option<FunctionRef>,
                               leftConstant: Option<real>, rightConstant: Option<real>,
                               coefficients: Option<seq<real>>): (r: Option<Node>)
    requires kind == Polynomial ==> coefficients.Some?
    ensures r.Some? ==> r.value.kind == kind && r.value.setting.None?
    ensures r.None? <==>
      && IsArithmetic(kind)
      && !(lhs.Some? && rhs.Some?)
      && !(lhs.Some? && rightConstant.Some?)
      && !(rhs.Some? && leftConstant.Some?)
  {
    var built := Build(kind, lhs, rhs, leftConstant, rightConstant, coefficients);
    if built.Some? then Some(SetOperatorType(built.value, kind)) else None
  }

  /** The left function: a binary operator's left operand or a composite's outside function. */
  function GetLhs(n: Node): (r: Option<FunctionRef>)
    ensures r.Some? ==> n.Binary? || n.Composed?
  {
    match n
    case Binary(_, _, lhs, _, _, _) => lhs
    case Composed(_, _, outside, _) => outside
    case _ => None
  }

  /** The right function: a binary operator's right operand or a composite's inside function. */
  function GetRhs(n: Node): (r: Option<FunctionRef>)
    ensures r.Some? ==> n.Binary? || n.Composed?
  {
    match n
    case Binary(_, _, _, rhs, _, _) => rhs
    case Composed(_, _, _, inside) => inside
    case _ => None
  }

  /** The left constant: a binary operator's, or a logarithm's base. */
  function GetLeftConstant(n: Node): (r: Option<real>)
    ensures r.Some? ==> n.Binary? || n.Logarithm?
    ensures n.Logarithm? ==> r == Some(n.base)
  {
    match n
    case Binary(_, _, _, _, lc, _) => lc
    case Logarithm(_, _, base) => Some(base)
    case _ => None
  }

  /** The right constant: only a binary operator has one. */
  function GetRightConstant(n: Node): (r: Option<real>)
    ensures r.Some? ==> n.Binary?
  {
    match n
    case Binary(_, _, _, _, _, rc) => rc
    case _ => None
  }

  /** The coefficient list: only a polynomial has one. */
  function GetCoefficients(n: Node): (r: Option<seq<real>>)
    ensures r.Some? <==> n.Poly?
  {
    match n
    case Poly(_, _, c) => Some(c)
    case _ => None
  }

  /** A node whose kind is POLYNOMIAL must be a polynomial, or rebuilding it would need absent coefficients. */
  predicate CanRebuild(n: Node)
  {
    n.kind == Polynomial ==> n.Poly?
  }

  /** MathFunction::CreateMathOperation(MathOperation*): rebuild through the factory from the node's own parts. */
  function Rebuild(n: Node): (r: Option<Node>)
    requires CanRebuild(n)
    ensures r.Some? ==> r.value.kind == n.kind && r.value.setting.None?
    ensures !IsArithmetic(n.kind) ==> r.Some?
  {
    CreateMathOperation(n.kind, GetLhs(n), GetRhs(n), GetLeftConstant(n), GetRightConstant(n), GetCoefficients(n))
  }

  /** Rebuilding any node the factory made gives back the same node, so a copy evaluates like the original. */
  lemma RebuildRestoresNode(kind: OperatorType, lhs: Option<FunctionRef>, rhs: Option<FunctionRef>,
                            leftConstant: Option<real>, rightConstant: Option<real>, coefficients: Option<seq<real>>)
    requires kind == Polynomial ==> coefficients.Some?
    requires CreateMathOperation(kind, lhs, rhs, leftConstant, rightConstant, coefficients).Some?
    ensures var n := CreateMathOperation(kind, lhs, rhs, leftConstant, rightConstant, coefficients).value;
      CanRebuild(n) && Rebuild(n) == Some(n)
  {
  }

  /**
   * For an arithmetic kind each side takes the function when one is
   * supplied and otherwise the constant; two functions win over any
   * constants.
   */
  lemma ArithmeticOperands(kind: OperatorType, lhs: Option<FunctionRef>, rhs: Option<FunctionRef>,
                           leftConstant: Option<real>, rightConstant: Option<real>,
                           m: Numerics, g: MS.Setting, x: real)
    requires IsArithmetic(kind)
    requires lhs.Some? ==> WellFormedRef(lhs.value)
    requires rhs.Some? ==> WellFormedRef(rhs.value)
    requires CreateMathOperation(kind, lhs, rhs, leftConstant, rightConstant, None).Some?
    ensures var n := CreateMathOperation(kind, lhs, rhs, leftConstant, rightConstant, None).value;
      && n.Binary? && WellFormed(n)
      && (lhs.Some? ==> Operand(n.lhs, n.leftConstant, m, g, x) == EvalRef(lhs.value, m, g, x, 0.0))
      && (lhs.None? ==> Operand(n.lhs, n.leftConstant, m, g, x) == Outcome(Success, leftConstant.value))
      && (lhs.Some? && rhs.Some? ==> Operand(n.rhs, n.rightConstant, m, g, x) == EvalRef(rhs.value, m, g, x, 0.0))
      && (lhs.Some? && rhs.None? ==> Operand(n.rhs, n.rightConstant, m, g, x) == Outcome(Success, rightConstant.value))
      && (lhs.None? ==> Operand(n.rhs, n.rightConstant, m, g, x) == EvalRef(rhs.value, m, g, x, 0.0))
  {
  }

  /** COMPOSITE is always built, with outer = lhs and inner = rhs, even when either is absent. */
  lemma CompositeAlwaysBuilt(lhs: Option<FunctionRef>, rhs: Option<FunctionRef>,
                             leftConstant: Option<real>, rightConstant: Option<real>, coefficients: Option<seq<real>>)
    ensures var r := CreateMathOperation(Composite, lhs, rhs, leftConstant, rightConstant, coefficients);
      && r.Some? && r.value.Composed?
      && CompositeFunction.GetOutsideFunction(r.value) == lhs
      && CompositeFunction.GetInsideFunction(r.value) == rhs
  {
  }

  /** The trigonometric kinds are built from the kind alone: every operand argument is ignored. */
  lemma TrigIgnoresOperands(kind: OperatorType, lhs: Option<FunctionRef>, rhs: Option<FunctionRef>,
                            leftConstant: Option<real>, rightConstant: Option<real>, coefficients: Option<seq<real>>)
    requires IsTrigonometric(kind)
    ensures var r := CreateMathOperation(kind, lhs, rhs, leftConstant, rightConstant, coefficients);
      r.Some? && r.value.Trig? && r == CreateMathOperation(kind, None, None, None, None, None)
  {
  }

  /** LOG and LN take the left constant as base when supplied, else 10; LN then forces e. */
  lemma LogBase(kind: OperatorType, lhs: Option<FunctionRef>, rhs: Option<FunctionRef>,
                leftConstant: Option<real>, rightConstant: Option<real>, coefficients: Option<seq<real>>)
    requires kind == Log || kind == Ln
    ensures var r := CreateMathOperation(kind, lhs, rhs, leftConstant, rightConstant, coefficients);
      && r.Some? && r.value.Logarithm?
      && (kind == Ln ==> r.value.base == E)
      && (kind == Log && leftConstant.Some? ==> r.value.base == leftConstant.value)
      && (kind == Log && leftConstant.None? ==> r.value.base == 10.0)
  {
  }

  /** POLYNOMIAL copies the supplied coefficients. */
  lemma PolynomialCopiesCoefficients(lhs: Option<FunctionRef>, rhs: Option<FunctionRef>,
                                     leftConstant: Option<real>, rightConstant: Option<real>, coefficients: seq<real>)
    ensures CreateMathOperation(Polynomial, lhs, rhs, leftConstant, rightConstant, Some(coefficients))
      == Some(Poly(Polynomial, None, coefficients))
  {
  }
}
