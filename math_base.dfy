/**
 * The tolerance logic every math object inherits: which epsilon and angle
 * mode apply, approximate comparisons, angle conversion and the quadratic
 * formula. The functions take the object's own setting (if any) and the
 * process-wide statics as values.
 */
module Tolerance {
  import opened Optional
  import opened MathDefs
  import opened CMath
  import MS = MathSetting

  /** The process-wide statics as first initialised: epsilon 1e-7, degrees. */
  const DefaultGlobals: MS.Setting := MS.Setting(0.0000001, AnglesInDegrees)

  function Abs(r: real): real
  {
    if r < 0.0 then -r else r
  }

  /** The object's own epsilon when it has a setting, otherwise the global one. */
  function EffectiveEpsilon(own: Option<MS.Setting>, globals: MS.Setting): real
  {
    if own.Some? then own.value.epsilon else globals.epsilon
  }

  /** The object's own angle mode when it has a setting, otherwise the global one. */
  function EffectiveAngleMode(own: Option<MS.Setting>, globals: MS.Setting): bool
  {
    if own.Some? then own.value.isDegrees else globals.isDegrees
  }

  /**
   * Approximate equality: an explicit non-zero `epsilon` wins over the
   * effective one; a tolerance of exactly zero means exact comparison.
   */
  function IsEqual(own: Option<MS.Setting>, globals: MS.Setting, x: real, v: real, epsilon: real): (r: bool)
    ensures x == v ==> (r <==> (if epsilon != 0.0 then epsilon else EffectiveEpsilon(own, globals)) >= 0.0)
    ensures r && x != v ==> Abs(x - v) < (if epsilon != 0.0 then epsilon else EffectiveEpsilon(own, globals))
  {
    var eps := if epsilon != 0.0 then epsilon else EffectiveEpsilon(own, globals);
    if eps != 0.0 then Abs(x - v) < eps else x == v
  }

  /** `x <= v` up to tolerance; the `epsilon` argument is not used. */
  function IsLessOrEqual(own: Option<MS.Setting>, globals: MS.Setting, x: real, v: real, epsilon: real): (r: bool)
    ensures x <= v && EffectiveEpsilon(own, globals) >= 0.0 ==> r
    ensures r ==> x <= v || x - v < EffectiveEpsilon(own, globals)
  {
    x < v || IsEqual(own, globals, x, v, 0.0)
  }

  /** `x >= v` up to tolerance; the `epsilon` argument is not used. */
  function IsGreaterOrEqual(own: Option<MS.Setting>, globals: MS.Setting, x: real, v: real, epsilon: real): (r: bool)
    ensures x >= v && EffectiveEpsilon(own, globals) >= 0.0 ==> r
    ensures r ==> x >= v || v - x < EffectiveEpsilon(own, globals)
  {
    x > v || IsEqual(own, globals, x, v, 0.0)
  }

  /**
   * With no explicit epsilon, x equals v iff it lies strictly inside the
   * effective tolerance band; a zero tolerance is exact equality and a
   * negative one makes nothing equal.
   */
  lemma IsEqualMeaning(own: Option<MS.Setting>, globals: MS.Setting, x: real, v: real)
    ensures var e := EffectiveEpsilon(own, globals);
      && (e > 0.0 ==> (IsEqual(own, globals, x, v, 0.0) <==> v - e < x < v + e))
      && (e == 0.0 ==> (IsEqual(own, globals, x, v, 0.0) <==> x == v))
      && (e < 0.0 ==> !IsEqual(own, globals, x, v, 0.0))
  {
  }

  /** An explicit non-zero epsilon replaces the effective one, whatever the settings. */
  lemma ExplicitEpsilonWins(own: Option<MS.Setting>, globals: MS.Setting, x: real, v: real, epsilon: real)
    requires epsilon != 0.0
    ensures IsEqual(own, globals, x, v, epsilon) <==> Abs(x - v) < epsilon
  {
  }

  /** An own setting hides the statics; without one the statics decide. */
  lemma OwnSettingWins(s: MS.Setting, g1: MS.Setting, g2: MS.Setting, x: real, v: real)
    ensures IsEqual(Some(s), g1, x, v, 0.0) == IsEqual(Some(s), g2, x, v, 0.0) == IsEqual(None, s, x, v, 0.0)
    ensures EffectiveAngleMode(Some(s), g1) == EffectiveAngleMode(None, s) == s.isDegrees
  {
  }

  lemma IsEqualSymmetric(own: Option<MS.Setting>, globals: MS.Setting, x: real, v: real, epsilon: real)
    ensures IsEqual(own, globals, x, v, epsilon) == IsEqual(own, globals, v, x, epsilon)
  {
  }

  /**
   * IsLessOrEqual is `x < v + e` for a positive effective tolerance `e`,
   * plain `x <= v` for a zero one and strict `x < v` for a negative one;
   * its own epsilon argument never matters.
   */
  lemma IsLessOrEqualMeaning(own: Option<MS.Setting>, globals: MS.Setting, x: real, v: real, epsilon: real)
    ensures var e := EffectiveEpsilon(own, globals);
      && (e > 0.0 ==> (IsLessOrEqual(own, globals, x, v, epsilon) <==> x < v + e))
      && (e == 0.0 ==> (IsLessOrEqual(own, globals, x, v, epsilon) <==> x <= v))
      && (e < 0.0 ==> (IsLessOrEqual(own, globals, x, v, epsilon) <==> x < v))
  {
    IsEqualMeaning(own, globals, x, v);
  }

  /** The mirror image of IsLessOrEqualMeaning. */
  lemma IsGreaterOrEqualMeaning(own: Option<MS.Setting>, globals: MS.Setting, x: real, v: real, epsilon: real)
    ensures var e := EffectiveEpsilon(own, globals);
      && (e > 0.0 ==> (IsGreaterOrEqual(own, globals, x, v, epsilon) <==> x > v - e))
      && (e == 0.0 ==> (IsGreaterOrEqual(own, globals, x, v, epsilon) <==> x >= v))
      && (e < 0.0 ==> (IsGreaterOrEqual(own, globals, x, v, epsilon) <==> x > v))
  {
    IsEqualMeaning(own, globals, x, v);
  }

  /** `x >= v` exactly when `v <= x`, whatever epsilons are passed. */
  lemma ComparisonsMirror(own: Option<MS.Setting>, globals: MS.Setting, x: real, v: real, e1: real, e2: real)
    ensures IsGreaterOrEqual(own, globals, x, v, e1) == IsLessOrEqual(own, globals, v, x, e2)
  {
    IsEqualSymmetric(own, globals, x, v, 0.0);
  }

  /** MathBase::DegreesToRadians: converting back gives the degrees again, and 180 degrees is pi. */
  function DegreesToRadians(degrees: real): (r: real)
    ensures RadiansToDegrees(r) == degrees
    ensures degrees == 180.0 ==> r == Pi
  {
    degrees * PiOver180
  }

  /** MathBase::RadiansToDegrees: the angle that PI_OVER_180 scales back to `radians`. */
  function RadiansToDegrees(radians: real): (d: real)
    ensures d * PiOver180 == radians
  {
    radians / PiOver180
  }

  /** The two conversions are inverse to each other, and 180 degrees is pi radians. */
  lemma AngleConversionsInverse(degrees: real, radians: real)
    ensures RadiansToDegrees(DegreesToRadians(degrees)) == degrees
    ensures DegreesToRadians(RadiansToDegrees(radians)) == radians
    ensures DegreesToRadians(180.0) == Pi
    ensures RadiansToDegrees(Pi) == 180.0
  {
  }

  /** With `2a*x1 == s - b` and `s*s == b*b - 4ac`, x1 solves the equation. */
  lemma QuadraticRoot(a: real, b: real, c: real, s: real, x: real)
    requires a != 0.0
    requires s * s == b * b - 4.0 * a * c
    requires 2.0 * a * x == -b + s || 2.0 * a * x == -b - s
    ensures a * x * x + b * x + c == 0.0
  {
    var t := 2.0 * a * x;
    assert t * t + 2.0 * b * t + 4.0 * a * c == 0.0;
    assert 4.0 * a * (a * x * x + b * x + c) == t * t + 2.0 * b * t + 4.0 * a * c;
  }

  /**
   * Roots of a*x^2 + b*x + c: with `a == 0` nothing is written and 0 is
   * returned; otherwise both roots of the quadratic formula are written and
   * 1 is returned (a negative discriminant is not checked, so `sqrt` is
   * applied to it).
   */
  method QuadraticEquation(a: real, b: real, c: real, x1: real, x2: real, m: Numerics)
    returns (solved: int, root1: real, root2: real)
    ensures a == 0.0 ==> solved == 0 && root1 == x1 && root2 == x2
    ensures a != 0.0 ==> solved == 1
    ensures a != 0.0 ==> var s := m.sqrt(b * b - 4.0 * a * c);
      2.0 * a * root1 == -b + s && 2.0 * a * root2 == -b - s
    ensures a != 0.0 && m.sqrt(b * b - 4.0 * a * c) * m.sqrt(b * b - 4.0 * a * c) == b * b - 4.0 * a * c ==>
      a * root1 * root1 + b * root1 + c == 0.0 && a * root2 * root2 + b * root2 + c == 0.0
  {
    if a == 0.0 {
      return 0, x1, x2;
    }
    var s := m.sqrt(b * b - 4.0 * a * c);
    root1 := (-b + s) / (2.0 * a);
    root2 := (-b - s) / (2.0 * a);
    if s * s == b * b - 4.0 * a * c {
      QuadraticRoot(a, b, c, s, root1);
      QuadraticRoot(a, b, c, s, root2);
    }
    solved := 1;
  }
}

/** The base class of points and functions: an optional, shareable MathSetting. */
module MathBase {
  import opened Optional
  import MS = MathSetting
  import T = Tolerance

  /**
   * The process-wide statics shared by every math object. Evaluation and
   * the tolerance functions receive their current `Value()`.
   */
  class Globals {
    var epsilon: real
    var isDegrees: bool

    /** The statics' initial values: epsilon 1e-7, angles in degrees. */
    constructor ()
      ensures Value() == T.DefaultGlobals
    {
      epsilon := 0.0000001;
      isDegrees := true;
    }

    function Value(): MS.Setting
      reads this
    {
      MS.Setting(epsilon, isDegrees)
    }

    /** The epsilon every evaluation without its own setting compares with. */
    function GetGlobalEpsilon(): (e: real)
      reads this
      ensures e == Value().epsilon && e == T.EffectiveEpsilon(None, Value())
    {
      epsilon
    }

    /** The angle mode every evaluation without its own setting uses. */
    function GetGlobalAngleMode(): (d: bool)
      reads this
      ensures d == Value().isDegrees && d == T.EffectiveAngleMode(None, Value())
    {
      isDegrees
    }

    method SetGlobalEpsilon(epsilon: real)
      modifies this
      ensures GetGlobalEpsilon() == epsilon && GetGlobalAngleMode() == old(GetGlobalAngleMode())
    {
      this.epsilon := epsilon;
    }

    method SetGlobalAngleMode(isDegrees: bool)
      modifies this
      ensures GetGlobalAngleMode() == isDegrees && GetGlobalEpsilon() == old(GetGlobalEpsilon())
    {
      this.isDegrees := isDegrees;
    }
  }

  class MathBase {
    var setting: MS.MathSetting?

    constructor ()
      ensures setting == null
    {
      setting := null;
    }

    constructor WithSetting(setting: MS.MathSetting?)
      ensures this.setting == setting
    {
      this.setting := setting;
    }

    function Own(): Option<MS.Setting>
      reads this, setting
    {
      MS.Snapshot(setting)
    }

    function GetEpsilon(globals: MS.Setting): (e: real)
      reads this, setting
      ensures setting != null ==> e == setting.epsilon
      ensures setting == null ==> e == globals.epsilon
    {
      T.EffectiveEpsilon(Own(), globals)
    }

    function GetAngleMode(globals: MS.Setting): (isDegrees: bool)
      reads this, setting
      ensures setting != null ==> isDegrees == setting.isDegrees
      ensures setting == null ==> isDegrees == globals.isDegrees
    {
      T.EffectiveAngleMode(Own(), globals)
    }

    function IsEqual(globals: MS.Setting, x: real, v: real, epsilon: real): (r: bool)
      reads this, setting
      ensures x == v ==> (r <==> (if epsilon != 0.0 then epsilon else GetEpsilon(globals)) >= 0.0)
      ensures r && x != v ==> T.Abs(x - v) < (if epsilon != 0.0 then epsilon else GetEpsilon(globals))
    {
      T.IsEqual(Own(), globals, x, v, epsilon)
    }

    /**
     * Writes into the existing setting, or creates one first; a created
     * setting's angle mode is left uninitialised. The statics never change.
     */
    method SetEpsilon(epsilon: real)
      modifies this, setting
      ensures setting != null && setting.epsilon == epsilon
      ensures forall globals :: GetEpsilon(globals) == epsilon
      ensures old(setting) != null ==> setting == old(setting) && setting.isDegrees == old(setting.isDegrees)
      ensures old(setting) == null ==> fresh(setting)
    {
      if setting == null {
        setting := new MS.MathSetting.Unset();
      }
      setting.SetEpsilon(epsilon);
    }

    /** As SetEpsilon, for the angle mode; a created setting's epsilon is left uninitialised. */
    method SetAngleMode(isDegrees: bool)
      modifies this, setting
      ensures setting != null && setting.isDegrees == isDegrees
      ensures forall globals :: GetAngleMode(globals) == isDegrees
      ensures old(setting) != null ==> setting == old(setting) && setting.epsilon == old(setting.epsilon)
      ensures old(setting) == null ==> fresh(setting)
    {
      if setting == null {
        setting := new MS.MathSetting.Unset();
      }
      setting.SetAngleMode(isDegrees);
    }

    /** Shares `s` (possibly null) without copying it. */
    method SetMathSetting(s: MS.MathSetting?)
      modifies this
      ensures setting == s
    {
      setting := s;
    }

    /**
     * Detaches the setting so the statics apply again; `remove` only decides
     * whether the old setting's memory is released.
     */
    method ClearSetting(remove: bool)
      modifies this
      ensures setting == null
      ensures forall globals :: GetEpsilon(globals) == globals.epsilon && GetAngleMode(globals) == globals.isDegrees
    {
      setting := null;
    }
  }
}
