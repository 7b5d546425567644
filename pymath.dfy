/**
 * The parts of Python's numeric library the converter uses, over the reals.
 *
 * `math.sin`, `math.cos`, `math.sqrt` and `math.pow(_, 1.5)` are not computable here, so a
 * conversion receives them as a `Math` value: four total functions of which only the facts
 * every real implementation satisfies are known (see `MathLib.Sound`).
 */
module PyMath {

  /** `math.pi` as the double-precision literal Python prints. */
  const Pi: real := 3.141592653589793

  /** `math.radians`. */
  function Radians(degrees: real): real {
    degrees * (Pi / 180.0)
  }

  /** `math.degrees`. */
  function Degrees(radians: real): real {
    radians * (180.0 / Pi)
  }

  lemma RadiansSign(d: real)
    ensures Radians(d) == 0.0 <==> d == 0.0
    ensures Radians(d) > 0.0 <==> d > 0.0
  {
  }

  lemma DegreesSign(r: real)
    ensures Degrees(r) == 0.0 <==> r == 0.0
    ensures Degrees(r) > 0.0 <==> r > 0.0
  {
  }

  /**
   * Python's built-in `round` on a float: the nearest integer, ties to the even one.
   * The two ensures clauses determine the result uniquely.
   */
  function Round(r: real): (n: int)
    ensures n as real - 0.5 <= r <= n as real + 0.5
    ensures (r == n as real - 0.5 || r == n as real + 0.5) ==> n % 2 == 0
  {
    var f := r.Floor;
    var frac := r - f as real;
    if frac < 0.5 then f
    else if frac > 0.5 then f + 1
    else if f % 2 == 0 then f
    else f + 1
  }

  /** Rounding an integral value gives that integer back (round(0.0) == 0 in particular). */
  lemma RoundOfInteger(k: int)
    ensures Round(k as real) == k
  {
  }

  /** `round` never reverses the order of two values. */
  lemma RoundMonotone(r1: real, r2: real)
    requires r1 <= r2
    ensures Round(r1) <= Round(r2)
  {
  }

  /** `round` keeps the weak sign of its argument. */
  lemma RoundSign(r: real)
    ensures r >= 0.0 ==> Round(r) >= 0
    ensures r <= 0.0 ==> Round(r) <= 0
  {
    RoundOfInteger(0);
    if r >= 0.0 { RoundMonotone(0.0, r); }
    if r <= 0.0 { RoundMonotone(r, 0.0); }
  }

  /** The transcendental functions the converter calls, as values. */
  datatype MathLib = MathLib(
    sin: real -> real,     // math.sin
    cos: real -> real,     // math.cos
    sqrt: real -> real,    // math.sqrt
    pow15: real -> real)   // v => math.pow(v, 1.5)
  {
    /** What every real implementation of these functions satisfies and the converter relies on. */
    ghost predicate Sound() {
      && (forall t: real :: sin(t) * sin(t) <= 1.0)
      && (forall v: real :: v > 0.0 ==> sqrt(v) > 0.0)
      && (forall v: real :: v > 0.0 ==> pow15(v) > 0.0)
    }
  }

  type Math = m: MathLib | m.Sound()
    witness MathLib((t: real) => 0.0, (t: real) => 1.0, (v: real) => 1.0, (v: real) => 1.0)
}
