// Numeric primitives of the Java platform used by the reader and the
// geometry: the FastMath functions and the number parsers are parameters,
// while the rounding rules the code depends on are written out exactly.
module Numerics {
  import opened Results

  /** FastMath.cos, sin, atan, atan2, hypot, toDegrees and toRadians. Their
      values are never computed here; every member that needs them takes
      them as a parameter. The one use of atan is on a quotient n / d whose
      divisor may be 0 (IEEE division then gives an infinity), so it is
      given as a function of the two operands. */
  datatype Trig = Trig(
    cos: real -> real,
    sin: real -> real,
    atanOfQuotient: (real, real) -> real,
    atan2: (real, real) -> real,
    hypot: (real, real) -> real,
    toDegrees: real -> real,
    toRadians: real -> real)

  /** Double.parseDouble, and the NumberUtilities parsers whose grammar and
      treatment of a null argument are not part of this model. None stands
      for the exception that aborts the load. */
  datatype NumberSyntax = NumberSyntax(
    parseDouble: string -> Option<real>,
    lenientDouble: Option<string> -> Option<real>,
    lenientInteger: Option<string> -> Option<int>)

  /** Double.parseDouble applied to a value that may be null: a null value
      throws as a malformed one does. */
  function ParseDouble(ns: NumberSyntax, v: Option<string>): (r: Outcome<real>)
    ensures r.Fail? <==> v.None? || ns.parseDouble(v.value).None?
    ensures r.Ok? ==> r.value == ns.parseDouble(v.value).value
  {
    if v.None? then Fail(MalformedNumber(None))
    else match ns.parseDouble(v.value)
      case None => Fail(MalformedNumber(v))
      case Some(x) => Ok(x)
  }

  function LenientDouble(ns: NumberSyntax, v: Option<string>): (r: Outcome<real>)
    ensures r.Fail? <==> ns.lenientDouble(v).None?
    ensures r.Ok? ==> r.value == ns.lenientDouble(v).value
  {
    match ns.lenientDouble(v)
    case None => Fail(MalformedNumber(v))
    case Some(x) => Ok(x)
  }

  function LenientInteger(ns: NumberSyntax, v: Option<string>): (r: Outcome<int>)
    ensures r.Fail? <==> ns.lenientInteger(v).None?
    ensures r.Ok? ==> r.value == ns.lenientInteger(v).value
  {
    match ns.lenientInteger(v)
    case None => Fail(MalformedNumber(v))
    case Some(x) => Ok(x)
  }

  /** Truncation toward zero, as a double-to-integer cast does. */
  function Trunc(x: real): (n: int)
    ensures x >= 0.0 ==> n as real <= x < n as real + 1.0
    ensures x < 0.0 ==> n as real - 1.0 < x <= n as real
  {
    if x >= 0.0 then x.Floor else -((-x).Floor)
  }

  /** Java's `%` on doubles with divisor 360 (the only divisor the
      geometry uses): the remainder of the division truncated toward zero,
      so it takes the sign of the dividend. */
  function Rem360(a: real): real
  {
    a - 360.0 * Trunc(a / 360.0) as real
  }

  /** The remainder keeps the dividend's sign, stays below 360 in magnitude
      and leaves an angle already in [0, 360) alone. */
  lemma Rem360Range(a: real)
    ensures a >= 0.0 ==> 0.0 <= Rem360(a) < 360.0
    ensures a < 0.0 ==> -360.0 < Rem360(a) <= 0.0
    ensures 0.0 <= a < 360.0 ==> Rem360(a) == a
  {
    var n := Trunc(a / 360.0);
    if 0.0 <= a < 360.0 {
      assert n == 0;
    }
  }

  /** Math.round for doubles in the range of a long: the nearest integer,
      halves rounded up. */
  function Round(x: real): (n: int)
    ensures x - 0.5 < n as real <= x + 0.5
  {
    (x + 0.5).Floor
  }

  /** 2^150: a double whose magnitude is at most 2^-150 becomes 0f when
      narrowed to float (round to nearest, ties to even, below the smallest
      float subnormal 2^-149). */
  const FloatUnderflow: real := 1427247692705959881058285969449495136382746624.0

  /** `(float) x == 0f`. */
  predicate FloatIsZero(x: real)
  {
    -1.0 <= x * FloatUnderflow <= 1.0
  }

  lemma FloatIsZeroExamples()
    ensures FloatIsZero(0.0)
    ensures !FloatIsZero(0.5) && !FloatIsZero(-1.0)
  {
  }

  function Pow2(k: nat): (p: nat)
    ensures p >= 1
  {
    if k == 0 then 1 else 2 * Pow2(k - 1)
  }

  /** Bit k of a two's-complement integer: `(x & (1 << k)) != 0`. Dafny's
      division rounds toward negative infinity for a positive divisor, which
      is the arithmetic shift of a two's-complement value. */
  predicate HasBit(x: int, k: nat)
  {
    (x / Pow2(k)) % 2 == 1
  }

  lemma HasBitExamples()
    ensures HasBit(16, 4) && !HasBit(16, 3) && !HasBit(15, 4)
    ensures HasBit(-1, 4) && HasBit(80, 6) && HasBit(80, 4)
  {
    assert Pow2(4) == 16;
    assert Pow2(3) == 8;
    assert Pow2(6) == 64;
  }
}
