/** Logarithms: LN, or LOG to a stored base (10 unless given). */
module LogFunction {
  import opened Optional
  import opened MathDefs
  import opened CMath
  import MS = MathSetting
  import opened Tolerance
  import opened Operations

  /** The base a LOG node gets when none is supplied. */
  const DefaultBase: real := 10.0

  /** The default constructor: a LOG node with base 0, which can never succeed. */
  function Default(): (n: Node)
    ensures n.Logarithm? && n.kind == Log && n.base == 0.0 && n.setting.None?
    ensures forall m, g, x, y :: EffectiveEpsilon(n.setting, g) >= 0.0 ==> EvalNode(n, m, g, x, y).status == Undefined
  {
    Logarithm(Log, None, 0.0)
  }

  /**
   * LogFunction(oper, base): stores the base, except that LN forces it to
   * e. The factory stamps `kind` afterwards.
   */
  function NewLog(kind: OperatorType, base: real): (n: Node)
    ensures n.Logarithm? && n.kind == kind && n.setting.None?
    ensures kind == Ln ==> n.base == E
    ensures kind != Ln ==> n.base == base
  {
    Logarithm(kind, None, if kind == Ln then E else base)
  }

  /**
   * LogFunction::CalculateY: rejects x and base not above zero (up to
   * tolerance), then takes the natural or decimal log, rescaling the latter
   * unless the base is exactly 10.
   */
  method CalculateY(n: Node, m: Numerics, g: MS.Setting, x: real, y: real) returns (status: MathResult, yOut: real)
    requires n.Logarithm?
    ensures Outcome(status, yOut) == EvalNode(n, m, g, x, y)
  {
    if IsLessOrEqual(n.setting, g, x, 0.0, 0.0) {
      return Undefined, y;
    }
    if IsLessOrEqual(n.setting, g, n.base, 0.0, 0.0) {
      return Undefined, y;
    }
    var result: real;
    if n.kind == Ln {
      result := m.log(x);
    } else {
      result := m.log10(x);
      if n.base != 10.0 {
        result := Quotient(result, m.log10(n.base), m);
      }
    }
    return Success, result;
  }

  /** UNDEFINED exactly when x or the base is at most zero up to tolerance. */
  lemma DomainCheck(n: Node, m: Numerics, g: MS.Setting, x: real, y: real)
    requires n.Logarithm?
    ensures EvalNode(n, m, g, x, y).status == Undefined <==>
      IsLessOrEqual(n.setting, g, x, 0.0, 0.0) || IsLessOrEqual(n.setting, g, n.base, 0.0, 0.0)
  {
  }

  /** With a positive tolerance e, every x below e is rejected, not only the negative ones. */
  lemma RejectsNearZero(n: Node, m: Numerics, g: MS.Setting, x: real, y: real)
    requires n.Logarithm? && EffectiveEpsilon(n.setting, g) > 0.0
    ensures x < EffectiveEpsilon(n.setting, g) ==> EvalNode(n, m, g, x, y) == Outcome(Undefined, y)
  {
    IsLessOrEqualMeaning(n.setting, g, x, 0.0, 0.0);
  }

  /** A defined LN is log(x), whatever base is stored. */
  lemma LnIgnoresBase(n: Node, m: Numerics, g: MS.Setting, x: real, y: real)
    requires n.Logarithm? && n.kind == Ln
    requires EvalNode(n, m, g, x, y).status == Success
    ensures EvalNode(n, m, g, x, y).y == m.log(x)
  {
  }

  /**
   * A defined LOG is log10(x) when the base is exactly 10 and otherwise the
   * change of base: the result times log10(base) gives log10(x).
   */
  lemma LogToBase(n: Node, m: Numerics, g: MS.Setting, x: real, y: real)
    requires n.Logarithm? && n.kind != Ln
    requires EvalNode(n, m, g, x, y).status == Success
    ensures n.base == 10.0 ==> EvalNode(n, m, g, x, y).y == m.log10(x)
    ensures n.base != 10.0 && m.log10(n.base) != 0.0 ==> EvalNode(n, m, g, x, y).y * m.log10(n.base) == m.log10(x)
  {
  }

  /** An LN node built by the constructor evaluates the same whatever base was passed. */
  lemma LnConstructionIgnoresBase(b1: real, b2: real, m: Numerics, g: MS.Setting, x: real, y: real)
    ensures EvalNode(NewLog(Ln, b1), m, g, x, y) == EvalNode(NewLog(Ln, b2), m, g, x, y)
  {
  }
}
