/** f(g(x)): an outside function applied to the value of an inside function. */
module CompositeFunction {
  import opened Optional
  import opened MathDefs
  import opened CMath
  import MS = MathSetting
  import opened Tolerance
  import opened Operations

  /** The default constructor: neither function, so the node cannot be evaluated. */
  function Default(): (n: Node)
    ensures n.Composed? && n.outside.None? && n.inside.None?
    ensures !WellFormed(n)
  {
    Composed(Composite, None, None, None)
  }

  /** Stores outer and inner as given, either possibly absent. */
  function NewComposite(outside: Option<FunctionRef>, inside: Option<FunctionRef>): (n: Node)
    ensures n.Composed? && n.kind == Composite && n.setting.None?
    ensures GetOutsideFunction(n) == outside && GetInsideFunction(n) == inside
  {
    Composed(Composite, None, outside, inside)
  }

  /** GetLhs and GetOutsideFunction. */
  function GetOutsideFunction(n: Node): Option<FunctionRef>
    requires n.Composed?
  {
    n.outside
  }

  /** GetRhs and GetInsideFunction. */
  function GetInsideFunction(n: Node): Option<FunctionRef>
    requires n.Composed?
  {
    n.inside
  }

  /** Replaces each side only when a function is supplied for it; the other side is kept. */
  function SetFunctions(n: Node, outside: Option<FunctionRef>, inside: Option<FunctionRef>): (r: Node)
    requires n.Composed?
    ensures r.Composed? && r.kind == n.kind && r.setting == n.setting
    ensures outside.Some? ==> GetOutsideFunction(r) == outside
    ensures outside.None? ==> GetOutsideFunction(r) == GetOutsideFunction(n)
    ensures inside.Some? ==> GetInsideFunction(r) == inside
    ensures inside.None? ==> GetInsideFunction(r) == GetInsideFunction(n)
  {
    Composed(n.kind, n.setting,
             if outside.Some? then outside else n.outside,
             if inside.Some? then inside else n.inside)
  }

  /**
   * CompositeFunction::CalculateY: evaluates the inside function into a
   * local that starts at 0, then the outside function at that local
   * whenever the status tests true. Sub-functions are evaluated by the
   * reference evaluation.
   */
  method CalculateY(n: Node, m: Numerics, g: MS.Setting, x: real, y: real) returns (status: MathResult, yOut: real)
    requires n.Composed? && WellFormed(n)
    ensures Outcome(status, yOut) == EvalNode(n, m, g, x, y)
  {
    var result := 0.0;
    var inner := EvalRef(n.inside.value, m, g, x, result);
    status, result := inner.status, inner.y;
    yOut := y;
    if n.outside.Some? && Code(status) != 0 {
      var outer := EvalRef(n.outside.value, m, g, result, yOut);
      status, yOut := outer.status, outer.y;
    }
  }

  /** With both functions and a succeeding inside, the result is the outside at the inside's value. */
  lemma SuccessComposes(n: Node, m: Numerics, g: MS.Setting, x: real, y: real)
    requires n.Composed? && WellFormed(n) && n.outside.Some?
    requires EvalRef(n.inside.value, m, g, x, 0.0).status == Success
    ensures EvalNode(n, m, g, x, y) == EvalRef(n.outside.value, m, g, EvalRef(n.inside.value, m, g, x, 0.0).y, y)
  {
  }

  /**
   * A failing inside does not stop the evaluation: the outside function is
   * still called, at 0, and its status is returned.
   */
  lemma FailureStillRunsOuter(n: Node, m: Numerics, g: MS.Setting, x: real, y: real)
    requires n.Composed? && WellFormed(n) && n.outside.Some?
    requires EvalRef(n.inside.value, m, g, x, 0.0).status == Undefined
    ensures EvalNode(n, m, g, x, y) == EvalRef(n.outside.value, m, g, 0.0, y)
  {
  }

  /** Without an outside function the inside status is returned and the out-pointer is never written. */
  lemma NoOuterReturnsInnerStatus(n: Node, m: Numerics, g: MS.Setting, x: real, y: real)
    requires n.Composed? && WellFormed(n) && n.outside.None?
    ensures EvalNode(n, m, g, x, y) == Outcome(EvalRef(n.inside.value, m, g, x, 0.0).status, y)
  {
  }

  /**
   * The masking this causes: the constant polynomial 5 composed with log10
   * succeeds with 5 at x = -1, where log10 itself is UNDEFINED.
   */
  lemma InnerFailureMasked(m: Numerics, y: real)
    ensures var inner := FunctionRef(Some(Logarithm(Log, None, 10.0)));
      var outer := FunctionRef(Some(Poly(Polynomial, None, [5.0])));
      && EvalRef(inner, m, DefaultGlobals, -1.0, 0.0).status == Undefined
      && EvalNode(NewComposite(Some(outer), Some(inner)), m, DefaultGlobals, -1.0, y) == Outcome(Success, 5.0)
  {
    var inner := FunctionRef(Some(Logarithm(Log, None, 10.0)));
    assert IsLessOrEqual(None, DefaultGlobals, -1.0, 0.0, 0.0);
    assert EvalRef(inner, m, DefaultGlobals, -1.0, 0.0).status == Undefined;
    assert PolySum([5.0], m, 0.0, 1) == 5.0;
  }
}
