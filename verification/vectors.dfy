/** The small part of THREE.Vector2 / THREE.Vector3 the globe uses, over exact reals.

    Every identity the geometry proofs need (cross products are perpendicular to their
    factors, Lagrange's identity, the double cross product, lengths of combinations of
    orthonormal vectors) is proved here once, as a lemma about the function symbols, so
    that the callers never redo the polynomial arithmetic. */
module Vectors {
  import opened MathEnv

  datatype Vec2 = Vec2(x: real, y: real)
  datatype Vec3 = Vec3(x: real, y: real, z: real)

  // ---------------------------------------------------------------------------
  // Vector3
  // ---------------------------------------------------------------------------

  function Add3(a: Vec3, b: Vec3): Vec3
  {
    Vec3(a.x + b.x, a.y + b.y, a.z + b.z)
  }

  /** `multiplyScalar(k)`. */
  function Scale3(v: Vec3, k: real): Vec3
  {
    Vec3(v.x * k, v.y * k, v.z * k)
  }

  function Dot3(a: Vec3, b: Vec3): real
  {
    a.x * b.x + a.y * b.y + a.z * b.z
  }

  /** `crossVectors(a, b)`. */
  function Cross3(a: Vec3, b: Vec3): Vec3
  {
    Vec3(a.y * b.z - a.z * b.y, a.z * b.x - a.x * b.z, a.x * b.y - a.y * b.x)
  }

  /** `lengthSq()`. */
  function LengthSq3(v: Vec3): real
  {
    v.x * v.x + v.y * v.y + v.z * v.z
  }

  /** `normalize()`: divide by `length() || 1`, so a zero vector is left as it is.
      Components that are zero stay zero. */
  function Normalize3(m: Env, v: Vec3): (r: Vec3)
    ensures v.x == 0.0 ==> r.x == 0.0
    ensures v.y == 0.0 ==> r.y == 0.0
    ensures v.z == 0.0 ==> r.z == 0.0
  {
    var len := m.sqrt(LengthSq3(v));
    Scale3(v, 1.0 / (if len == 0.0 then 1.0 else len))
  }

  /** The point lies on the sphere of radius |r| about the origin. */
  predicate OnSphere(v: Vec3, r: real)
  {
    LengthSq3(v) == r * r
  }

  // ---------------------------------------------------------------------------
  // Vector2
  // ---------------------------------------------------------------------------

  function Scale2(v: Vec2, k: real): Vec2
  {
    Vec2(v.x * k, v.y * k)
  }

  function LengthSq2(v: Vec2): real
  {
    v.x * v.x + v.y * v.y
  }

  /** `Vector2.lerp(v, alpha)`: each component moves by `(v - this) * alpha`. */
  function Lerp2(a: Vec2, b: Vec2, alpha: real): (r: Vec2)
    ensures alpha == 0.0 ==> r == a
    ensures alpha == 1.0 ==> r == b
  {
    Vec2(a.x + (b.x - a.x) * alpha, a.y + (b.y - a.y) * alpha)
  }

  /** A disc centred at the origin is convex: interpolating between two of its points with
      alpha in [0, 1] stays inside. */
  lemma Lerp2InDisc(a: Vec2, b: Vec2, t: real, bound: real)
    requires LengthSq2(a) <= bound && LengthSq2(b) <= bound && 0.0 <= t <= 1.0
    ensures LengthSq2(Lerp2(a, b, t)) <= bound
  {
    var diff := Vec2(a.x - b.x, a.y - b.y);
    DiscGap(a, b, t, bound);
    MulNonneg(1.0 - t, bound - LengthSq2(a));
    MulNonneg(t, bound - LengthSq2(b));
    MulNonneg(1.0 - t, t);
    SquareNonneg(diff.x);
    SquareNonneg(diff.y);
    MulNonneg((1.0 - t) * t, LengthSq2(diff));
  }

  /** The gap to the bound after interpolating is
      `(1 - t) (K - |a|^2) + t (K - |b|^2) + (1 - t) t |a - b|^2`. */
  lemma DiscGap(a: Vec2, b: Vec2, t: real, k: real)
    ensures k - LengthSq2(Lerp2(a, b, t))
            == (1.0 - t) * (k - LengthSq2(a)) + t * (k - LengthSq2(b))
               + ((1.0 - t) * t) * LengthSq2(Vec2(a.x - b.x, a.y - b.y))
  {
    var p := Lerp2(a, b, t);
    assert p.x == a.x + (b.x - a.x) * t && p.y == a.y + (b.y - a.y) * t;
    DiscGapCoords(a.x, a.y, b.x, b.y, t, k);
  }

  lemma DiscGapCoords(ax: real, ay: real, bx: real, by_: real, t: real, k: real)
    ensures k - ((ax + (bx - ax) * t) * (ax + (bx - ax) * t) + (ay + (by_ - ay) * t) * (ay + (by_ - ay) * t))
            == (1.0 - t) * (k - (ax * ax + ay * ay)) + t * (k - (bx * bx + by_ * by_))
               + ((1.0 - t) * t) * ((ax - bx) * (ax - bx) + (ay - by_) * (ay - by_))
  {
  }

  /** Scaling by k multiplies the squared length by k^2. */
  lemma LengthSqScale2(v: Vec2, k: real)
    ensures LengthSq2(Scale2(v, k)) == k * k * LengthSq2(v)
  {
  }

  // ---------------------------------------------------------------------------
  // Identities
  // ---------------------------------------------------------------------------

  lemma LengthSqNonneg(v: Vec3)
    ensures LengthSq3(v) >= 0.0
  {
    SquareNonneg(v.x);
    SquareNonneg(v.y);
    SquareNonneg(v.z);
  }

  /** A cross product is perpendicular to both of its factors. */
  lemma CrossPerpendicular(a: Vec3, b: Vec3)
    ensures Dot3(Cross3(a, b), a) == 0.0
    ensures Dot3(Cross3(a, b), b) == 0.0
  {
  }

  /** Lagrange's identity, specialised to two perpendicular unit vectors. */
  lemma CrossOfOrthonormal(a: Vec3, b: Vec3)
    requires LengthSq3(a) == 1.0 && LengthSq3(b) == 1.0 && Dot3(a, b) == 0.0
    ensures LengthSq3(Cross3(a, b)) == 1.0
  {
    Lagrange(a.x, a.y, a.z, b.x, b.y, b.z);
  }

  /** Lagrange's identity in coordinates, for two perpendicular unit vectors. */
  lemma Lagrange(ux: real, uy: real, uz: real, vx: real, vy: real, vz: real)
    requires ux * ux + uy * uy + uz * uz == 1.0 && vx * vx + vy * vy + vz * vz == 1.0
    requires ux * vx + uy * vy + uz * vz == 0.0
    ensures (uy * vz - uz * vy) * (uy * vz - uz * vy) + (uz * vx - ux * vz) * (uz * vx - ux * vz)
            + (ux * vy - uy * vx) * (ux * vy - uy * vx) == 1.0
  {
    var la := ux * ux + uy * uy + uz * uz;
    var lb := vx * vx + vy * vy + vz * vz;
    var d := ux * vx + uy * vy + uz * vz;
    assert (uy * vz - uz * vy) * (uy * vz - uz * vy) + (uz * vx - ux * vz) * (uz * vx - ux * vz)
           + (ux * vy - uy * vx) * (ux * vy - uy * vx) == la * lb - d * d;
  }

  /** The first coordinate of b x (a x b) is `ax |b|^2 - bx (a . b)`, which is ax for a unit b
      perpendicular to a. The other two coordinates are this one with the axes rotated. */
  lemma CrossBackCoord(ux: real, uy: real, uz: real, vx: real, vy: real, vz: real)
    requires vx * vx + vy * vy + vz * vz == 1.0 && ux * vx + uy * vy + uz * vz == 0.0
    ensures vy * (ux * vy - uy * vx) - vz * (uz * vx - ux * vz) == ux
  {
    var lb := vx * vx + vy * vy + vz * vz;
    var d := ux * vx + uy * vy + uz * vz;
    assert vy * (ux * vy - uy * vx) - vz * (uz * vx - ux * vz) == ux * lb - vx * d;
  }

  /** b x (a x b) = a when b is a unit vector perpendicular to a. */
  lemma CrossBack(a: Vec3, b: Vec3)
    requires LengthSq3(b) == 1.0 && Dot3(a, b) == 0.0
    ensures Cross3(b, Cross3(a, b)) == a
  {
    CrossBackCoord(a.x, a.y, a.z, b.x, b.y, b.z);
    CrossBackCoord(a.y, a.z, a.x, b.y, b.z, b.x);
    CrossBackCoord(a.z, a.x, a.y, b.z, b.x, b.y);
  }

  /** Scaling a vector scales its dot products. */
  lemma DotScale(v: Vec3, k: real, w: Vec3)
    ensures Dot3(Scale3(v, k), w) == k * Dot3(v, w)
  {
  }

  lemma LengthSqScale(v: Vec3, k: real)
    ensures LengthSq3(Scale3(v, k)) == k * k * LengthSq3(v)
  {
  }

  /** |a c + b s|^2 = c^2 + s^2 for perpendicular unit vectors a, b. */
  lemma CombinationLength(a: Vec3, b: Vec3, c: real, s: real)
    requires LengthSq3(a) == 1.0 && LengthSq3(b) == 1.0 && Dot3(a, b) == 0.0
    ensures LengthSq3(Add3(Scale3(a, c), Scale3(b, s))) == c * c + s * s
  {
    var r := Add3(Scale3(a, c), Scale3(b, s));
    assert LengthSq3(r) == c * c * LengthSq3(a) + 2.0 * c * s * Dot3(a, b) + s * s * LengthSq3(b);
  }

  /** The dot product of a combination with a third vector. */
  lemma CombinationDot(a: Vec3, b: Vec3, c: real, s: real, w: Vec3)
    ensures Dot3(Add3(Scale3(a, c), Scale3(b, s)), w) == c * Dot3(a, w) + s * Dot3(b, w)
  {
  }

  /** A combination of two vectors perpendicular to w is perpendicular to w. */
  lemma CombinationPerpendicular(a: Vec3, b: Vec3, c: real, s: real, w: Vec3)
    requires Dot3(a, w) == 0.0 && Dot3(b, w) == 0.0
    ensures Dot3(Add3(Scale3(a, c), Scale3(b, s)), w) == 0.0
  {
    CombinationDot(a, b, c, s, w);
  }

  lemma DotSymmetric(a: Vec3, b: Vec3)
    ensures Dot3(a, b) == Dot3(b, a)
  {
  }

  // ---------------------------------------------------------------------------
  // normalize()
  // ---------------------------------------------------------------------------

  /** With an exact square root, normalising a nonzero vector gives a unit vector. */
  lemma NormalizeUnit(m: Env, v: Vec3)
    requires SqrtExact(m)
    requires LengthSq3(v) != 0.0
    ensures LengthSq3(Normalize3(m, v)) == 1.0
  {
    LengthSqNonneg(v);
    var l2 := LengthSq3(v);
    var len := m.sqrt(l2);
    assert len * len == l2;
    assert len != 0.0;
    var k := 1.0 / len;
    assert Normalize3(m, v) == Scale3(v, k);
    LengthSqScale(v, k);
    assert k * k * l2 == (k * len) * (k * len);
    assert k * len == 1.0;
  }

  /** Normalising a unit vector leaves it unchanged. */
  lemma NormalizeOfUnit(m: Env, v: Vec3)
    requires SqrtExact(m)
    requires LengthSq3(v) == 1.0
    ensures Normalize3(m, v) == v
  {
    var len := m.sqrt(LengthSq3(v));
    assert len * len == 1.0 && len >= 0.0;
    if len < 1.0 {
      MulMonotone(len, 1.0, len);
    } else if len > 1.0 {
      MulMonotone(1.0, len, len);
    }
    assert len == 1.0;
  }

  /** Normalising keeps a vector perpendicular to whatever it was perpendicular to. */
  lemma NormalizePerpendicular(m: Env, v: Vec3, w: Vec3)
    requires Dot3(v, w) == 0.0
    ensures Dot3(Normalize3(m, v), w) == 0.0
  {
    var len := m.sqrt(LengthSq3(v));
    DotScale(v, 1.0 / (if len == 0.0 then 1.0 else len), w);
  }
}
