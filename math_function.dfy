/**
 * The user-facing function object: an optional operation built by the
 * factory, its own optional setting, operator sugar that builds new
 * functions, and evaluation at an abscissa or into a point.
 */
module MathFunction {
  import opened Optional
  import opened MathDefs
  import opened CMath
  import MS = MathSetting
  import MB = MathBase
  import opened Tolerance
  import opened Operations
  import F = MathOperationFactory
  import PolynomialFunction
  import SimpleOperator
  import CompositeFunction
  import TrigFunction
  import LogFunction
  import P = Point

  /** The virtual call MathOperation::CalculateY, dispatched on the concrete class. */
  method CalculateNode(n: Node, m: Numerics, g: MS.Setting, x: real, y: real) returns (status: MathResult, yOut: real)
    requires WellFormed(n)
    ensures Outcome(status, yOut) == EvalNode(n, m, g, x, y)
  {
    match n {
      case Binary(_, _, _, _, _, _) => status, yOut := SimpleOperator.CalculateY(n, m, g, x, y);
      case Poly(_, _, _) => status, yOut := PolynomialFunction.CalculateY(n, m, g, x, y);
      case Composed(_, _, _, _) => status, yOut := CompositeFunction.CalculateY(n, m, g, x, y);
      case Trig(_, _) => status, yOut := TrigFunction.CalculateY(n, m, g, x, y);
      case Logarithm(_, _, _) => status, yOut := LogFunction.CalculateY(n, m, g, x, y);
    }
  }

  /** The node as it reads its setting pointer: `s` is that setting's current value. */
  function WithSetting(n: Node, s: Option<MS.Setting>): (r: Node)
    ensures r.setting == s && r.kind == n.kind
    ensures WellFormed(n) ==> WellFormed(r)
  {
    match n
    case Binary(k, _, lhs, rhs, lc, rc) => Binary(k, s, lhs, rhs, lc, rc)
    case Poly(k, _, c) => Poly(k, s, c)
    case Composed(k, _, outside, inside) => Composed(k, s, outside, inside)
    case Trig(k, _) => Trig(k, s)
    case Logarithm(k, _, base) => Logarithm(k, s, base)
  }

  /**
   * Handing a node a setting changes nothing but its setting: the variant,
   * operands, constants, coefficients and base are kept, so restoring the
   * old setting gives the node back.
   */
  lemma WithSettingOnlyChangesSetting(n: Node, s: Option<MS.Setting>)
    ensures WithSetting(n, s).setting == s
    ensures WithSetting(WithSetting(n, s), n.setting) == n
    ensures WithSetting(n, s) == WithSetting(WithSetting(n, s), s)
  {
  }

  class MathFunction {
    /** The inherited MathBase part: the function's own setting pointer. */
    const base: MB.MathBase
    /** The operation the factory built, if any. */
    var operation: Option<Node>
    /** The operation's setting pointer, possibly shared with `base`. */
    var opSetting: MS.MathSetting?

    /** The operation as evaluation sees it, reading its setting pointer now. */
    function Operation(): Option<Node>
      reads this, opSetting
    {
      if operation.None? then None else Some(WithSetting(operation.value, MS.Snapshot(opSetting)))
    }

    /** This function as an operand of another. */
    function Value(): FunctionRef
      reads this, opSetting
    {
      FunctionRef(Operation())
    }

    /** The default constructor: no operation and no setting. */
    constructor ()
      ensures operation.None? && opSetting == null
      ensures fresh(base) && base.setting == null
    {
      base := new MB.MathBase();
      operation := None;
      opSetting := null;
    }

    /** MathFunction(type): the factory with no operands. */
    constructor OfKind(kind: OperatorType)
      requires kind != Polynomial
      ensures operation == F.CreateMathOperation(kind, None, None, None, None, None)
      ensures opSetting == null && fresh(base) && base.setting == null
    {
      base := new MB.MathBase();
      operation := F.CreateMathOperation(kind, None, None, None, None, None);
      opSetting := null;
    }

    /** MathFunction(type, lhs, rhs): the factory with two function operands, either possibly null. */
    constructor OfFunctions(kind: OperatorType, lhs: MathFunction?, rhs: MathFunction?)
      requires kind != Polynomial
      ensures operation == F.CreateMathOperation(kind, RefOf(lhs), RefOf(rhs), None, None, None)
      ensures opSetting == null && fresh(base) && base.setting == null
    {
      base := new MB.MathBase();
      operation := F.CreateMathOperation(kind, RefOf(lhs), RefOf(rhs), None, None, None);
      opSetting := null;
    }

    /** MathFunction(type, leftConstant, rhs). */
    constructor LeftConstant(kind: OperatorType, leftConstant: real, rhs: MathFunction?)
      requires kind != Polynomial
      ensures operation == F.CreateMathOperation(kind, None, RefOf(rhs), Some(leftConstant), None, None)
      ensures opSetting == null && fresh(base) && base.setting == null
    {
      base := new MB.MathBase();
      operation := F.CreateMathOperation(kind, None, RefOf(rhs), Some(leftConstant), None, None);
      opSetting := null;
    }

    /** MathFunction(type, lhs, rightConstant). */
    constructor RightConstant(kind: OperatorType, lhs: MathFunction?, rightConstant: real)
      requires kind != Polynomial
      ensures operation == F.CreateMathOperation(kind, RefOf(lhs), None, None, Some(rightConstant), None)
      ensures opSetting == null && fresh(base) && base.setting == null
    {
      base := new MB.MathBase();
      operation := F.CreateMathOperation(kind, RefOf(lhs), None, None, Some(rightConstant), None);
      opSetting := null;
    }

    /** MathFunction(type, coefficients). */
    constructor OfCoefficients(kind: OperatorType, coefficients: seq<real>)
      ensures operation == F.CreateMathOperation(kind, None, None, None, None, Some(coefficients))
      ensures opSetting == null && fresh(base) && base.setting == null
    {
      base := new MB.MathBase();
      operation := F.CreateMathOperation(kind, None, None, None, None, Some(coefficients));
      opSetting := null;
    }

    /**
     * The copy constructor: rebuilds the operation through the factory and,
     * when the original has a setting, gives the copy a new setting with the
     * same values, shared with the rebuilt operation.
     */
    constructor Copy(f: MathFunction)
      requires f.operation.Some? && F.CanRebuild(f.operation.value)
      requires f.base.setting != null ==> F.Rebuild(f.operation.value).Some?
      ensures operation == F.Rebuild(f.operation.value)
      ensures fresh(base)
      ensures f.base.setting == null ==> base.setting == null && opSetting == null
      ensures f.base.setting != null ==>
        && fresh(base.setting) && opSetting == base.setting
        && base.setting.Value() == f.base.setting.Value()
    {
      base := new MB.MathBase();
      operation := F.Rebuild(f.operation.value);
      opSetting := null;
      new;
      if f.base.setting != null {
        base.SetEpsilon(f.base.setting.GetEpsilon());
        base.SetAngleMode(f.base.setting.GetAngleMode());
        opSetting := base.setting;
      }
    }

    /**
     * Without a setting of its own the function gets a new one and hands
     * that same setting to its operation, so the operation reads the new
     * epsilon; with one, the shared setting is written in place.
     */
    method SetEpsilon(epsilon: real)
      modifies this, base, base.setting
      ensures base.setting != null && base.setting.epsilon == epsilon
      ensures operation == old(operation)
      ensures old(base.setting) != null ==>
        base.setting == old(base.setting) && base.setting.isDegrees == old(base.setting.isDegrees) && opSetting == old(opSetting)
      ensures old(base.setting) == null ==>
        fresh(base.setting) && opSetting == (if operation.Some? then base.setting else old(opSetting))
      ensures operation.Some? && opSetting == base.setting ==> Operation().value.setting.value.epsilon == epsilon
    {
      var setChild := base.setting == null;
      base.SetEpsilon(epsilon);
      if setChild && operation.Some? {
        opSetting := base.setting;
      }
    }

    /** As SetEpsilon, for the angle mode. */
    method SetAngleMode(isDegrees: bool)
      modifies this, base, base.setting
      ensures base.setting != null && base.setting.isDegrees == isDegrees
      ensures operation == old(operation)
      ensures old(base.setting) != null ==>
        base.setting == old(base.setting) && base.setting.epsilon == old(base.setting.epsilon) && opSetting == old(opSetting)
      ensures old(base.setting) == null ==>
        fresh(base.setting) && opSetting == (if operation.Some? then base.setting else old(opSetting))
      ensures operation.Some? && opSetting == base.setting ==> Operation().value.setting.value.isDegrees == isDegrees
    {
      var setChild := base.setting == null;
      base.SetAngleMode(isDegrees);
      if setChild && operation.Some? {
        opSetting := base.setting;
      }
    }

    /**
     * operator=: a no-op on self-assignment; otherwise rebuilds the
     * operation from the right-hand side's and, when that side has a
     * setting, copies its values into this function's setting (created if
     * needed) and shares it with the new operation.
     */
    method Assign(rhs: MathFunction)
      requires rhs != this ==> rhs.operation.Some? && F.CanRebuild(rhs.operation.value)
      requires rhs != this && rhs.base.setting != null ==> F.Rebuild(rhs.operation.value).Some?
      modifies this, base, base.setting
      ensures rhs == this ==> operation == old(operation) && opSetting == old(opSetting) && base.setting == old(base.setting)
      ensures rhs != this ==> operation == F.Rebuild(old(rhs.operation.value))
      ensures rhs != this && old(rhs.base.setting) == null ==> opSetting == null && base.setting == old(base.setting)
      ensures rhs != this && old(rhs.base.setting) != null ==>
        && base.setting != null && opSetting == base.setting
        && base.setting.Value() == old(rhs.base.setting.Value())
        && (old(base.setting) != null ==> base.setting == old(base.setting))
        && (old(base.setting) == null ==> fresh(base.setting))
      ensures (rhs == this || old(rhs.base.setting) == null) && old(base.setting) != null ==>
        base.setting != null && base.setting.Value() == old(base.setting.Value())
    {
      if rhs == this {
        return;
      }
      operation := F.Rebuild(rhs.operation.value);
      opSetting := null;
      if rhs.base.setting != null {
        base.SetEpsilon(rhs.base.setting.GetEpsilon());
        base.SetAngleMode(rhs.base.setting.GetAngleMode());
        opSetting := base.setting;
      }
    }

    /**
     * `this op rhs` for + - * / ^: a new function whose operation applies
     * `kind` to this function on the left and `rhs` on the right.
     */
    method Combine(kind: OperatorType, rhs: MathFunction) returns (r: MathFunction)
      requires IsArithmetic(kind)
      ensures fresh(r) && r.opSetting == null && r.base.setting == null
      ensures r.operation == Some(SimpleOperator.FunctionFunction(kind, Value(), rhs.Value()))
    {
      r := new MathFunction.OfFunctions(kind, this, rhs);
    }

    /** `this op value` for + - * / ^: the constant becomes the right operand. */
    method CombineConstant(kind: OperatorType, value: real) returns (r: MathFunction)
      requires IsArithmetic(kind)
      ensures fresh(r) && r.opSetting == null && r.base.setting == null
      ensures r.operation == Some(SimpleOperator.FunctionConstant(kind, Value(), value))
    {
      r := new MathFunction.RightConstant(kind, this, value);
    }

    /** `this(inside)`: a composite with this function outside. */
    method Apply(inside: MathFunction) returns (r: MathFunction)
      ensures fresh(r) && r.opSetting == null && r.base.setting == null
      ensures r.operation == Some(CompositeFunction.NewComposite(Some(Value()), Some(inside.Value())))
    {
      r := new MathFunction.OfFunctions(Composite, this, inside);
    }

    /** CalculateY(x, y): UNDEFINED without an operation, otherwise the operation's result. */
    method CalculateY(m: Numerics, g: MS.Setting, x: real, y: real) returns (status: MathResult, yOut: real)
      requires WellFormedRef(Value())
      ensures Outcome(status, yOut) == EvalRef(Value(), m, g, x, y)
    {
      status, yOut := Undefined, y;
      var op := Operation();
      if op.Some? {
        status, yOut := CalculateNode(op.value, m, g, x, y);
      }
    }

    /**
     * CalculateY(pt): evaluates at pt's x into an uninitialised local and
     * stores it as pt's y only on SUCCESS; pt's x never changes.
     */
    method CalculatePoint(pt: P.Point?, m: Numerics, g: MS.Setting) returns (status: MathResult)
      requires WellFormedRef(Value())
      modifies pt
      ensures pt == null || operation.None? ==> status == Undefined
      ensures pt != null ==> pt.x == old(pt.x)
      ensures pt != null ==> status == EvalRef(Value(), m, g, old(pt.x), 0.0).status
      ensures pt != null && status != Success ==> pt.y == old(pt.y)
      ensures pt != null && status == Success && AlwaysWritesRef(Value()) ==>
        pt.y == EvalRef(Value(), m, g, old(pt.x), 0.0).y
    {
      status := Undefined;
      var y: real :| true;
      var op := Operation();
      ghost var v := Value();
      if op.Some? && pt != null {
        var x := pt.GetX();
        assert EvalRef(v, m, g, x, y) == EvalNode(op.value, m, g, x, y);
        OutcomeIgnoresOldY(v, m, g, x, y, 0.0);
        status, y := CalculateNode(op.value, m, g, x, y);
        if status == Success {
          pt.SetY(y);
        }
      }
    }
  }

  /** A possibly-null function pointer as an operand. */
  function RefOf(f: MathFunction?): Option<FunctionRef>
    reads if f != null then {f, f.opSetting} else {}
  {
    if f == null then None else Some(f.Value())
  }

  /** Evaluation certainly writes the out-pointer on success: no composite on the way lacks an outside function. */
  predicate AlwaysWrites(n: Node)
    decreases n, 1
  {
    n.Composed? ==> n.outside.Some? && AlwaysWritesRef(n.outside.value)
  }

  predicate AlwaysWritesRef(f: FunctionRef)
    decreases f, 0
  {
    f.operation.Some? ==> AlwaysWrites(f.operation.value)
  }

  /**
   * The status never depends on the old value behind the out-pointer, and
   * neither does a successful result when every composite on the way has
   * an outside function.
   */
  lemma {:induction false} OutcomeIgnoresOldY(f: FunctionRef, m: Numerics, g: MS.Setting, x: real, y1: real, y2: real)
    requires WellFormedRef(f)
    ensures EvalRef(f, m, g, x, y1).status == EvalRef(f, m, g, x, y2).status
    ensures AlwaysWritesRef(f) && EvalRef(f, m, g, x, y1).status == Success ==>
      EvalRef(f, m, g, x, y1).y == EvalRef(f, m, g, x, y2).y
    decreases f
  {
    if f.operation.Some? {
      var n := f.operation.value;
      assert EvalRef(f, m, g, x, y1) == EvalNode(n, m, g, x, y1);
      assert EvalRef(f, m, g, x, y2) == EvalNode(n, m, g, x, y2);
      if n.Composed? {
        var inner := EvalRef(n.inside.value, m, g, x, 0.0);
        assert EvalNode(n, m, g, x, y1) == EvalComposite(n, m, g, x, y1);
        assert EvalNode(n, m, g, x, y2) == EvalComposite(n, m, g, x, y2);
        if n.outside.Some? {
          assert Code(inner.status) != 0;
          assert AlwaysWritesRef(f) ==> AlwaysWrites(n);
          assert AlwaysWrites(n) ==> AlwaysWritesRef(n.outside.value);
          assert EvalComposite(n, m, g, x, y1) == EvalRef(n.outside.value, m, g, inner.y, y1);
          assert EvalComposite(n, m, g, x, y2) == EvalRef(n.outside.value, m, g, inner.y, y2);
          OutcomeIgnoresOldY(n.outside.value, m, g, inner.y, y1, y2);
        } else {
          assert !AlwaysWrites(n);
        }
      } else {
        LeafIgnoresOldY(n, m, g, x, y1, y2);
      }
    }
  }

  /** OutcomeIgnoresOldY for every node but a composite, none of which passes the old value on. */
  lemma LeafIgnoresOldY(n: Node, m: Numerics, g: MS.Setting, x: real, y1: real, y2: real)
    requires WellFormed(n) && !n.Composed?
    ensures EvalNode(n, m, g, x, y1).status == EvalNode(n, m, g, x, y2).status
    ensures EvalNode(n, m, g, x, y1).status == Success ==> EvalNode(n, m, g, x, y1).y == EvalNode(n, m, g, x, y2).y
  {
    if n.Binary? {
      assert EvalNode(n, m, g, x, y1) == EvalBinary(n, m, g, x, y1);
      assert EvalNode(n, m, g, x, y2) == EvalBinary(n, m, g, x, y2);
      var l := Operand(n.lhs, n.leftConstant, m, g, x);
      var r := Operand(n.rhs, n.rightConstant, m, g, x);
      if l.status == Success && r.status == Success {
        var a1 := ApplyOperator(n.kind, n.setting, m, g, l.y, r.y, y1);
        var a2 := ApplyOperator(n.kind, n.setting, m, g, l.y, r.y, y2);
        assert a1.status == a2.status && (a1.status == Success ==> a1.y == a2.y);
      }
    }
  }

  /** A function without an operation is UNDEFINED and writes nothing. */
  lemma NoOperationIsUndefined(m: Numerics, g: MS.Setting, x: real, y: real)
    ensures EvalRef(FunctionRef(None), m, g, x, y) == Outcome(Undefined, y)
  {
  }

  /** An arithmetic function built from its kind alone has no operation and is always UNDEFINED. */
  lemma ArithmeticKindAloneIsUndefined(kind: OperatorType, m: Numerics, g: MS.Setting, x: real, y: real)
    requires IsArithmetic(kind)
    ensures F.CreateMathOperation(kind, None, None, None, None, None).None?
    ensures EvalRef(FunctionRef(F.CreateMathOperation(kind, None, None, None, None, None)), m, g, x, y) == Outcome(Undefined, y)
  {
  }

  /**
   * `f op h` fails when f fails, else when h fails, and otherwise combines
   * the two values: sum, difference, product, pow, or a quotient that is
   * UNDEFINED for a divisor that is zero up to the global tolerance.
   */
  lemma CombineEvaluates(kind: OperatorType, f: FunctionRef, h: FunctionRef, m: Numerics, g: MS.Setting, x: real, y: real)
    requires IsArithmetic(kind) && WellFormedRef(f) && WellFormedRef(h)
    ensures var r := FunctionRef(Some(SimpleOperator.FunctionFunction(kind, f, h)));
      var a, b := EvalRef(f, m, g, x, 0.0), EvalRef(h, m, g, x, 0.0);
      && WellFormedRef(r)
      && (a.status == Undefined ==> EvalRef(r, m, g, x, y) == Outcome(Undefined, y))
      && (a.status == Success && b.status == Undefined ==> EvalRef(r, m, g, x, y) == Outcome(Undefined, y))
      && (a.status == Success && b.status == Success ==> EvalRef(r, m, g, x, y) == ApplyOperator(kind, None, m, g, a.y, b.y, y))
  {
    var n := SimpleOperator.FunctionFunction(kind, f, h);
    assert EvalRef(FunctionRef(Some(n)), m, g, x, y) == EvalBinary(n, m, g, x, y);
    assert Operand(n.lhs, n.leftConstant, m, g, x) == EvalRef(f, m, g, x, 0.0);
    assert Operand(n.rhs, n.rightConstant, m, g, x) == EvalRef(h, m, g, x, 0.0);
  }

  /** `f op c`: as CombineEvaluates with the constant as an always-successful right operand. */
  lemma CombineConstantEvaluates(kind: OperatorType, f: FunctionRef, c: real, m: Numerics, g: MS.Setting, x: real, y: real)
    requires IsArithmetic(kind) && WellFormedRef(f)
    ensures var r := FunctionRef(Some(SimpleOperator.FunctionConstant(kind, f, c)));
      var a := EvalRef(f, m, g, x, 0.0);
      && WellFormedRef(r)
      && (a.status == Undefined ==> EvalRef(r, m, g, x, y) == Outcome(Undefined, y))
      && (a.status == Success ==> EvalRef(r, m, g, x, y) == ApplyOperator(kind, None, m, g, a.y, c, y))
  {
    var n := SimpleOperator.FunctionConstant(kind, f, c);
    assert EvalRef(FunctionRef(Some(n)), m, g, x, y) == EvalBinary(n, m, g, x, y);
    assert Operand(n.lhs, n.leftConstant, m, g, x) == EvalRef(f, m, g, x, 0.0);
    assert Operand(n.rhs, n.rightConstant, m, g, x) == Outcome(Success, c);
  }

  /** `outer(inner)` evaluates outer at inner's value, or at 0 when inner fails. */
  lemma ApplyEvaluates(outer: FunctionRef, inner: FunctionRef, m: Numerics, g: MS.Setting, x: real, y: real)
    requires WellFormedRef(outer) && WellFormedRef(inner)
    ensures var r := FunctionRef(Some(CompositeFunction.NewComposite(Some(outer), Some(inner))));
      var a := EvalRef(inner, m, g, x, 0.0);
      && WellFormedRef(r)
      && (a.status == Success ==> EvalRef(r, m, g, x, y) == EvalRef(outer, m, g, a.y, y))
      && (a.status == Undefined ==> EvalRef(r, m, g, x, y) == EvalRef(outer, m, g, 0.0, y))
  {
    var n := CompositeFunction.NewComposite(Some(outer), Some(inner));
    assert EvalRef(FunctionRef(Some(n)), m, g, x, y) == EvalComposite(n, m, g, x, y);
  }

  /**
   * The square of the sine: the polynomial [0, 0, 1] applied to sin gives
   * sin(angle)^2 whenever pow is exact on natural exponents.
   */
  lemma SquareOfSine(m: Numerics, g: MS.Setting, x: real, y: real)
    requires ExactIntegerPowers(m)
    ensures var square := FunctionRef(Some(Poly(Polynomial, None, [0.0, 0.0, 1.0])));
      var sine := FunctionRef(Some(Trig(Sin, None)));
      var s := m.sin(Angle(None, g, x));
      EvalRef(FunctionRef(Some(CompositeFunction.NewComposite(Some(square), Some(sine)))), m, g, x, y) == Outcome(Success, s * s)
  {
    var s := m.sin(Angle(None, g, x));
    var c := [0.0, 0.0, 1.0];
    var sine := FunctionRef(Some(Trig(Sin, None)));
    assert EvalRef(sine, m, g, x, 0.0) == Outcome(Success, s);
    PolynomialFunction.MatchesPowerSeries(c, m, s, 3);
    assert Pow(s, 2) == s * s by {
      assert Pow(s, 1) == s * Pow(s, 0);
    }
    assert PolynomialFunction.Series(c, s, 1) == 0.0;
    assert PolynomialFunction.Series(c, s, 2) == 0.0;
    assert PolynomialFunction.Series(c, s, 3) == s * s;
    var square := FunctionRef(Some(Poly(Polynomial, None, c)));
    assert EvalRef(square, m, g, s, y) == Outcome(Success, s * s);
  }
}
