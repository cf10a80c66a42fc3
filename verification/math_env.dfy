/** Numeric primitives shared by the globe geometry and the per-frame controller.

    The transcendental functions the globe uses (`Math.sin`, `Math.cos`, `Math.pow`,
    `Math.hypot`, `Math.atan2`, `Math.sqrt`) are not computed here: they are fields of an
    `Env` value that every builder receives. Nothing is assumed about them globally; the
    laws a proof relies on are stated as predicates over that value and appear only in the
    `requires` of the lemmas that use them. */
module MathEnv {

  /** `Math.PI`, the double closest to pi, written out exactly. */
  const Pi: real := 3.141592653589793

  /** The uninterpreted numeric library. */
  datatype Env = Env(
    sin: real -> real,
    cos: real -> real,
    pow: (real, real) -> real,
    hypot: (real, real) -> real,
    atan2: (real, real) -> real,
    sqrt: real -> real)

  // ---------------------------------------------------------------------------
  // Exactly defined helpers (Math.abs, Math.sign, Math.min, Math.max and the
  // THREE.MathUtils helpers clamp, lerp and degToRad)
  // ---------------------------------------------------------------------------

  function Abs(x: real): (r: real)
    ensures r >= 0.0
    ensures r == x || r == -x
  {
    if x < 0.0 then -x else x
  }

  /** `Math.sign`: -1, 0 or 1, so that the sign times the magnitude gives the value back. */
  function Sign(x: real): (r: real)
    ensures r == -1.0 || r == 0.0 || r == 1.0
    ensures r * Abs(x) == x
    ensures r == 0.0 <==> x == 0.0
  {
    if x < 0.0 then -1.0 else if x > 0.0 then 1.0 else 0.0
  }

  function Min(x: real, y: real): (r: real)
    ensures r <= x && r <= y
    ensures r == x || r == y
  {
    if y < x then y else x
  }

  function Max(x: real, y: real): (r: real)
    ensures r >= x && r >= y
    ensures r == x || r == y
  {
    if x < y then y else x
  }

  /** `MathUtils.clamp(v, lo, hi)`, which is `Math.max(lo, Math.min(hi, v))`. */
  function Clamp(v: real, lo: real, hi: real): (r: real)
    ensures lo <= hi ==> lo <= r <= hi
    ensures lo <= v <= hi ==> r == v
    ensures lo <= hi && v < lo ==> r == lo
    ensures lo <= hi && hi < v ==> r == hi
  {
    Max(lo, Min(hi, v))
  }

  /** `MathUtils.lerp(x, y, t)`, which is `(1 - t) * x + t * y`. */
  function Lerp(x: real, y: real, t: real): (r: real)
    ensures t == 0.0 ==> r == x
    ensures t == 1.0 ==> r == y
    ensures x == y ==> r == x
  {
    (1.0 - t) * x + t * y
  }

  /** For t in [0, 1] the interpolant lies between the two end points. */
  lemma LerpBetween(x: real, y: real, t: real)
    requires 0.0 <= t <= 1.0
    ensures Min(x, y) <= Lerp(x, y, t) <= Max(x, y)
  {
    if x <= y {
      MulNonneg(t, y - x);
      MulNonneg(1.0 - t, y - x);
      assert Lerp(x, y, t) == x + t * (y - x) == y - (1.0 - t) * (y - x);
    } else {
      MulNonneg(t, x - y);
      MulNonneg(1.0 - t, x - y);
      assert Lerp(x, y, t) == x - t * (x - y) == y + (1.0 - t) * (x - y);
    }
  }

  // Small facts about products. The solver does not find them by itself once
  // a proof mixes products with other terms, so proofs call them explicitly.

  lemma MulNonneg(a: real, b: real)
    requires a >= 0.0 && b >= 0.0
    ensures a * b >= 0.0
  {
  }

  /** The product is passed in as `t` so that the caller's own term for it is the one
      the conclusion mentions. */
  lemma MulPositive(a: real, b: real, t: real)
    requires a > 0.0 && b > 0.0 && t == a * b
    ensures t > 0.0
  {
  }

  /** A positive number has a positive square. */
  lemma SquarePositive(h: real, t: real)
    requires h > 0.0 && t == h * h
    ensures t > 0.0
  {
    MulPositive(h, h, t);
  }

  /** The only nonnegative number whose square is zero is zero. */
  lemma SquareZero(h: real, t: real)
    requires h >= 0.0 && t == h * h && t == 0.0
    ensures h == 0.0
  {
    if h > 0.0 {
      SquarePositive(h, t);
    }
  }

  lemma MulMonotone(a: real, b: real, k: real)
    requires a <= b && k >= 0.0
    ensures a * k <= b * k
  {
    MulNonneg(b - a, k);
  }

  lemma SquareNonneg(a: real)
    ensures a * a >= 0.0
  {
    if a < 0.0 {
      MulNonneg(-a, -a);
    } else {
      MulNonneg(a, a);
    }
  }

  /** `MathUtils.degToRad(d)`, which is `d * (Math.PI / 180)`. */
  function DegToRad(d: real): (r: real)
    ensures d == 180.0 ==> r == Pi
    ensures 0.0 <= d < 90.0 ==> 0.0 <= r < Pi / 2.0
    ensures d < 0.0 <==> r < 0.0
  {
    d * (Pi / 180.0)
  }

  // ---------------------------------------------------------------------------
  // Laws of the numeric library. Each is an idealisation of the double-precision
  // function; a lemma that needs one says so in its requires.
  // ---------------------------------------------------------------------------

  /** sin^2 + cos^2 = 1 at every angle. */
  ghost predicate Pythagorean(m: Env)
  {
    forall x :: m.sin(x) * m.sin(x) + m.cos(x) * m.cos(x) == 1.0
  }

  /** sin 0 = 0 and cos 0 = 1. */
  ghost predicate ZeroAngle(m: Env)
  {
    m.sin(0.0) == 0.0 && m.cos(0.0) == 1.0
  }

  /** sin and cos take the same values at a full turn as at zero. */
  ghost predicate FullTurn(m: Env)
  {
    m.sin(2.0 * Pi) == m.sin(0.0) && m.cos(2.0 * Pi) == m.cos(0.0)
  }

  /** `x + 2 pi`: the same angle one full turn further on. */
  function PlusTurn(x: real): real
  {
    x + 2.0 * Pi
  }

  /** sin and cos repeat after every full turn. */
  ghost predicate Periodic(m: Env)
  {
    forall x {:trigger PlusTurn(x)} :: m.sin(PlusTurn(x)) == m.sin(x) && m.cos(PlusTurn(x)) == m.cos(x)
  }

  /** cos is positive on [0, pi/2). */
  ghost predicate CosPositiveQuarter(m: Env)
  {
    forall x :: 0.0 <= x < Pi / 2.0 ==> m.cos(x) > 0.0
  }

  /** sqrt is the nonnegative square root on nonnegative arguments. */
  ghost predicate SqrtExact(m: Env)
  {
    forall x :: x >= 0.0 ==> m.sqrt(x) >= 0.0 && m.sqrt(x) * m.sqrt(x) == x
  }

  /** hypot(x, y) is the nonnegative root of x^2 + y^2. */
  ghost predicate HypotExact(m: Env)
  {
    forall x, y :: m.hypot(x, y) >= 0.0 && m.hypot(x, y) * m.hypot(x, y) == x * x + y * y
  }

  /** atan2 lies in (-pi, pi]. */
  ghost predicate Atan2Range(m: Env)
  {
    forall y, x :: -Pi < m.atan2(y, x) <= Pi
  }

  /** atan2 recovers an angle of (-pi, pi] from its sine and cosine. */
  ghost predicate Atan2Recovers(m: Env)
  {
    forall d {:trigger m.sin(d)} :: -Pi < d <= Pi ==> m.atan2(m.sin(d), m.cos(d)) == d
  }

  /** atan2 gives back the zero angle from its sine and cosine: the one instance of
      `Atan2Recovers` that a globe at rest needs. */
  ghost predicate Atan2AtZero(m: Env)
  {
    m.atan2(m.sin(0.0), m.cos(0.0)) == 0.0
  }

  /** Recovering every angle of (-pi, pi] includes recovering 0. */
  lemma RecoversAtZero(m: Env)
    requires Atan2Recovers(m)
    ensures Atan2AtZero(m)
  {
    assert -Pi < 0.0 <= Pi;
  }

  /** pow on nonnegative bases: nonnegative, zero at a zero base with a positive exponent,
      and (x^e)^n = x^(e n) = x x whenever e n = 2. */
  ghost predicate PowLaws(m: Env)
  {
    && (forall x, p :: x >= 0.0 ==> m.pow(x, p) >= 0.0)
    && (forall p :: p > 0.0 ==> m.pow(0.0, p) == 0.0)
    && (forall x, e, n :: x >= 0.0 && e * n == 2.0 ==> m.pow(m.pow(x, e), n) == x * x)
  }

  /** pow(x, 3) stays in [0, 1] for x in [0, 1]. */
  ghost predicate CubeUnit(m: Env)
  {
    forall x :: 0.0 <= x <= 1.0 ==> 0.0 <= m.pow(x, 3.0) <= 1.0
  }
}
