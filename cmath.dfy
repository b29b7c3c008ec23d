/**
 * The parts of the C maths library that evaluation calls. They are
 * parameters of the model: nothing is assumed about their values, so every
 * property proved here holds whatever sin, log or pow return.
 */
module CMath {

  datatype Numerics = Numerics(
    sin: real -> real,
    cos: real -> real,
    tan: real -> real,
    log: real -> real,
    log10: real -> real,
    pow: (real, real) -> real,
    sqrt: real -> real,
    /** What a floating-point division of the argument by zero yields (an infinity or NaN). */
    divideByZero: real -> real)

  /** Floating-point division: the real quotient whenever the divisor is non-zero. */
  function Quotient(a: real, b: real, m: Numerics): (q: real)
    ensures b != 0.0 ==> q * b == a
  {
    if b == 0.0 then m.divideByZero(a) else a / b
  }

  /** x raised to a natural power, by repeated multiplication. */
  function Pow(x: real, n: nat): real
  {
    if n == 0 then 1.0 else x * Pow(x, n - 1)
  }

  /** The library's pow agrees with repeated multiplication on natural exponents. */
  ghost predicate ExactIntegerPowers(m: Numerics)
  {
    forall x: real, n: nat {:trigger Pow(x, n)} :: m.pow(x, n as real) == Pow(x, n)
  }
}
