/** A polynomial in x given by its coefficients, lowest power first. */
module PolynomialFunction {
  import opened Optional
  import opened MathDefs
  import opened CMath
  import MS = MathSetting
  import opened Operations

  /**
   * Replaces the whole coefficient list: afterwards the polynomial
   * evaluates with the new coefficients only, keeping kind and setting.
   */
  function SetCoefficients(n: Node, coefficients: seq<real>): (r: Node)
    requires n.Poly?
    ensures r.Poly? && r.kind == n.kind && r.setting == n.setting
    ensures forall m, g, x, y :: EvalNode(r, m, g, x, y) == Outcome(Success, PolySum(coefficients, m, x, |coefficients|))
  {
    Poly(n.kind, n.setting, coefficients)
  }

  /**
   * Polynomial::CalculateY: sums coefficient times power, skipping zero
   * coefficients; always succeeds and always writes the result.
   */
  method CalculateY(n: Node, m: Numerics, g: MS.Setting, x: real, y: real) returns (status: MathResult, yOut: real)
    requires n.Poly?
    ensures Outcome(status, yOut) == EvalNode(n, m, g, x, y)
  {
    var c := n.coefficients;
    var result := 0.0;
    for i := 0 to |c|
      invariant result == PolySum(c, m, x, i)
    {
      if c[i] == 0.0 {
        continue;
      }
      var power: real;
      if i == 0 {
        power := 1.0;
      } else if i == 1 {
        power := x;
      } else {
        power := m.pow(x, i as real);
      }
      result := result + c[i] * power;
    }
    status, yOut := Success, result;
  }

  /** The textbook value: the sum of c[j] * x^j over the first `i` coefficients. */
  function Series(c: seq<real>, x: real, i: nat): real
    requires i <= |c|
  {
    if i == 0 then 0.0 else Series(c, x, i - 1) + c[i - 1] * Pow(x, i - 1)
  }

  /** The sum over the first `i` coefficients without skipping the zero ones. */
  function PlainSum(c: seq<real>, m: Numerics, x: real, i: nat): real
    requires i <= |c|
  {
    if i == 0 then 0.0 else PlainSum(c, m, x, i - 1) + c[i - 1] * PowerOf(m, x, i - 1)
  }

  /** Skipping zero coefficients does not change the sum. */
  lemma {:induction false} SkippingZerosIsHarmless(c: seq<real>, m: Numerics, x: real, i: nat)
    requires i <= |c|
    ensures PolySum(c, m, x, i) == PlainSum(c, m, x, i)
  {
    if i > 0 {
      SkippingZerosIsHarmless(c, m, x, i - 1);
    }
  }

  /**
   * When the library's pow is exact on natural exponents, the polynomial
   * computes the textbook power series.
   */
  lemma {:induction false} MatchesPowerSeries(c: seq<real>, m: Numerics, x: real, i: nat)
    requires ExactIntegerPowers(m)
    requires i <= |c|
    ensures PolySum(c, m, x, i) == Series(c, x, i)
  {
    if i > 0 {
      MatchesPowerSeries(c, m, x, i - 1);
      var j := i - 1;
      assert PowerOf(m, x, j) == Pow(x, j) by {
        if j == 1 {
          assert Pow(x, 1) == x * Pow(x, 0);
        } else if j > 1 {
          assert m.pow(x, j as real) == Pow(x, j);
        }
      }
    }
  }

  /** Appending coefficients leaves the sum over the earlier ones unchanged. */
  lemma {:induction false} PrefixSumStable(c: seq<real>, d: seq<real>, m: Numerics, x: real, i: nat)
    requires i <= |c|
    ensures PolySum(c + d, m, x, i) == PolySum(c, m, x, i)
  {
    if i > 0 {
      PrefixSumStable(c, d, m, x, i - 1);
      assert (c + d)[i - 1] == c[i - 1];
    }
  }

  /** Trailing zero coefficients do not change the polynomial. */
  lemma TrailingZerosIgnored(c: seq<real>, m: Numerics, x: real)
    ensures PolySum(c + [0.0], m, x, |c| + 1) == PolySum(c, m, x, |c|)
  {
    PrefixSumStable(c, [0.0], m, x, |c|);
  }

  /**
   * The empty polynomial is 0, the coefficient at index 0 is the constant
   * term and the one at index 1 multiplies x itself.
   */
  lemma LowOrderTerms(c: seq<real>, m: Numerics, x: real)
    ensures |c| == 0 ==> PolySum(c, m, x, |c|) == 0.0
    ensures |c| >= 1 ==> PolySum(c, m, x, 1) == c[0]
    ensures |c| >= 2 ==> PolySum(c, m, x, 2) == c[0] + c[1] * x
  {
  }

  /**
   * A polynomial always succeeds and always overwrites the out-pointer, with
   * a value that depends on neither the settings nor the old value.
   */
  lemma AlwaysSucceeds(n: Node, m: Numerics, g1: MS.Setting, g2: MS.Setting, x: real, y1: real, y2: real)
    requires n.Poly?
    ensures EvalNode(n, m, g1, x, y1).status == Success
    ensures EvalNode(n, m, g1, x, y1) == EvalNode(Poly(n.kind, None, n.coefficients), m, g2, x, y2)
  {
  }
}
