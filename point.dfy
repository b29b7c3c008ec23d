/** A point in the plane with an optional tolerance setting of its own. */
module Point {
  import opened Optional
  import opened CMath
  import MS = MathSetting
  import T = Tolerance
  import MB = MathBase

  class Point {
    /** The inherited MathBase part: the point's own setting pointer. */
    const base: MB.MathBase
    var x: real
    var y: real

    /** Point(setting): the origin. */
    constructor (setting: MS.MathSetting?)
      ensures x == 0.0 && y == 0.0
      ensures base.setting == setting && fresh(base)
    {
      base := new MB.MathBase.WithSetting(setting);
      x, y := 0.0, 0.0;
    }

    constructor At(x: real, y: real, setting: MS.MathSetting?)
      ensures this.x == x && this.y == y
      ensures base.setting == setting && fresh(base)
    {
      base := new MB.MathBase.WithSetting(setting);
      this.x, this.y := x, y;
    }

    /** Point(pt, setting), also the copy constructor: coordinates only; the setting is the one passed. */
    constructor Copy(pt: Point, setting: MS.MathSetting?)
      ensures x == pt.x && y == pt.y
      ensures base.setting == setting && fresh(base)
    {
      base := new MB.MathBase.WithSetting(setting);
      x, y := pt.x, pt.y;
    }

    function GetX(): real
      reads this
    {
      x
    }

    function GetY(): real
      reads this
    {
      y
    }

    method SetX(x: real)
      modifies this
      ensures GetX() == x && GetY() == old(GetY())
    {
      this.x := x;
    }

    method SetY(y: real)
      modifies this
      ensures GetY() == y && GetX() == old(GetX())
    {
      this.y := y;
    }

    /** Stores the coordinates shifted by `offset` (which may be this point itself). */
    method Set(x: real, y: real, offset: Point)
      modifies this
      ensures GetX() == x + old(offset.x) && GetY() == y + old(offset.y)
    {
      this.x := x + offset.x;
      this.y := y + offset.y;
    }

    /** Set(x, y) with the default offset, a fresh point at (0, 0). */
    method SetCoordinates(x: real, y: real)
      modifies this
      ensures GetX() == x && GetY() == y
    {
      var origin := new Point.At(0.0, 0.0, null);
      Set(x, y, origin);
    }

    /** Set(pt): copies both coordinates. */
    method SetFrom(pt: Point)
      modifies this
      ensures GetX() == old(pt.x) && GetY() == old(pt.y)
    {
      x, y := pt.x, pt.y;
    }

    /**
     * operator==: the same object is always equal; otherwise both
     * coordinates must be equal under this point's tolerance.
     */
    function Equals(rhs: Point, globals: MS.Setting): (r: bool)
      reads this, base, base.setting, rhs
      ensures rhs == this ==> r
      ensures rhs != this && x == rhs.x && y == rhs.y ==> (r <==> base.GetEpsilon(globals) >= 0.0)
    {
      rhs == this || (base.IsEqual(globals, x, rhs.x, 0.0) && base.IsEqual(globals, y, rhs.y, 0.0))
    }

    /** operator!=: the negation of operator==, so a point is never unequal to itself. */
    function NotEquals(rhs: Point, globals: MS.Setting): (r: bool)
      reads this, base, base.setting, rhs
      ensures rhs == this ==> !r
    {
      !Equals(rhs, globals)
    }

    /** operator=: copies the coordinates, not the setting; self-assignment changes nothing. */
    method Assign(rhs: Point)
      modifies this
      ensures x == old(rhs.x) && y == old(rhs.y)
    {
      if rhs != this {
        x, y := rhs.x, rhs.y;
      }
    }

    method AddAssign(rhs: Point)
      modifies this
      ensures x == old(x) + old(rhs.x) && y == old(y) + old(rhs.y)
    {
      x := x + rhs.x;
      y := y + rhs.y;
    }

    /** operator+: a fresh point with no setting holding the componentwise sum. */
    method Plus(pt: Point) returns (r: Point)
      ensures fresh(r) && fresh(r.base) && r.base.setting == null
      ensures r.x == x + pt.x && r.y == y + pt.y
    {
      r := new Point.Copy(this, null);
      r.AddAssign(pt);
    }

    method SubAssign(rhs: Point)
      modifies this
      ensures x == old(x) - old(rhs.x) && y == old(y) - old(rhs.y)
    {
      x := x - rhs.x;
      y := y - rhs.y;
    }

    method Minus(pt: Point) returns (r: Point)
      ensures fresh(r) && fresh(r.base) && r.base.setting == null
      ensures r.x == x - pt.x && r.y == y - pt.y
    {
      r := new Point.Copy(this, null);
      r.SubAssign(pt);
    }

    /** Unary minus: the negated point, this one untouched. */
    method Negate() returns (r: Point)
      ensures fresh(r) && fresh(r.base) && r.base.setting == null
      ensures r.x == -x && r.y == -y
    {
      r := new Point.Copy(this, null);
      r.x := -r.x;
      r.y := -r.y;
    }

    /** operator*=: scales in place but returns a copy of the point as it was before. */
    method TimesAssign(s: real) returns (before: Point)
      modifies this
      ensures fresh(before) && fresh(before.base) && before.base.setting == null
      ensures before.x == old(x) && before.y == old(y)
      ensures x == old(x) * s && y == old(y) * s
    {
      before := new Point.Copy(this, null);
      x := x * s;
      y := y * s;
    }

    method Times(s: real) returns (r: Point)
      ensures fresh(r) && fresh(r.base) && r.base.setting == null
      ensures r.x == x * s && r.y == y * s
    {
      r := new Point.Copy(this, null);
      var _ := r.TimesAssign(s);
    }

    /**
     * operator/=: divides in place with no zero guard and returns a copy of
     * the point as it was before.
     */
    method DivAssign(s: real, m: Numerics) returns (before: Point)
      modifies this
      ensures fresh(before) && fresh(before.base) && before.base.setting == null
      ensures before.x == old(x) && before.y == old(y)
      ensures x == Quotient(old(x), s, m) && y == Quotient(old(y), s, m)
    {
      before := new Point.Copy(this, null);
      x := Quotient(x, s, m);
      y := Quotient(y, s, m);
    }

    method Over(s: real, m: Numerics) returns (r: Point)
      ensures fresh(r) && fresh(r.base) && r.base.setting == null
      ensures r.x == Quotient(x, s, m) && r.y == Quotient(y, s, m)
    {
      r := new Point.Copy(this, null);
      var _ := r.DivAssign(s, m);
    }

    /** The distance travelling only horizontally and vertically. */
    function DistanceOrthogonal(pt: Point): (d: real)
      reads this, pt
      ensures d >= 0.0
      ensures d == 0.0 <==> x == pt.x && y == pt.y
    {
      T.Abs(x - pt.x) + T.Abs(y - pt.y)
    }

    /** The overload taking coordinates. */
    function DistanceOrthogonalTo(x: real, y: real): (d: real)
      reads this
      ensures d >= 0.0
      ensures d == 0.0 <==> this.x == x && this.y == y
    {
      T.Abs(this.x - x) + T.Abs(this.y - y)
    }
  }

  /**
   * The orthogonal distance is a metric on coordinates: non-negative, zero
   * exactly between equal coordinates, symmetric, and obeying the triangle
   * inequality; the coordinate overload agrees with it.
   */
  lemma OrthogonalDistanceIsMetric(a: Point, b: Point, c: Point)
    ensures a.DistanceOrthogonal(b) >= 0.0
    ensures a.DistanceOrthogonal(b) == 0.0 <==> a.x == b.x && a.y == b.y
    ensures a.DistanceOrthogonal(b) == b.DistanceOrthogonal(a)
    ensures a.DistanceOrthogonal(c) <= a.DistanceOrthogonal(b) + b.DistanceOrthogonal(c)
    ensures a.DistanceOrthogonalTo(b.x, b.y) == a.DistanceOrthogonal(b)
  {
  }

  /**
   * Two distinct points use the left one's tolerance: with a positive
   * effective epsilon e they are equal iff both coordinates differ by less
   * than e; with epsilon 0 iff the coordinates are identical.
   */
  lemma EqualityUsesLeftTolerance(p: Point, q: Point, globals: MS.Setting)
    requires p != q
    ensures var e := p.base.GetEpsilon(globals);
      && (e > 0.0 ==> (p.Equals(q, globals) <==> T.Abs(p.x - q.x) < e && T.Abs(p.y - q.y) < e))
      && (e == 0.0 ==> (p.Equals(q, globals) <==> p.x == q.x && p.y == q.y))
      && (e < 0.0 ==> !p.Equals(q, globals))
      && (p.NotEquals(q, globals) <==> !p.Equals(q, globals))
  {
  }

  /**
   * The identity test matters: a point always equals itself, but a distinct
   * point at the same coordinates equals it only when the tolerance is not
   * negative.
   */
  lemma SelfEqualityShortcut(p: Point, q: Point, globals: MS.Setting)
    requires p != q && p.x == q.x && p.y == q.y
    ensures p.Equals(p, globals)
    ensures p.Equals(q, globals) <==> p.base.GetEpsilon(globals) >= 0.0
  {
  }
}
