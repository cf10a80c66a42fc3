/** The exponential map of the decal components (app/ui/globe.tsx, `SuperellipseDecalFillOnGlobe`,
    `SuperellipseDecalOutlineOnGlobe` and `pushPoint` of `SuperellipseDecalGlowOnGlobe`): a
    point (u, v) of the tangent plane at the decal's centre is carried along the great circle
    in the direction east u + north v, through the angle |(u, v)| / radius, and lifted to the
    radius `radius + offset`. */
module ExpMap {
  import opened MathEnv
  import opened Vectors
  import opened TangentFrame

  /** `sLen > 1e-8` selects a real direction; shorter offsets fall back to `north`. */
  const DirectionEpsilon: real := 0.00000001

  /** `maxTheta = Math.PI * 0.5 - 1e-4`. */
  const MaxTheta: real := Pi * 0.5 - 0.0001

  /** The unit tangent direction of the point (u, v). */
  function Direction(m: Env, f: Frame, p: Vec2): Vec3
  {
    if m.hypot(p.x, p.y) > DirectionEpsilon then
      Normalize3(m, Add3(Scale3(f.east, p.x), Scale3(f.north, p.y)))
    else
      f.north
  }

  /** `theta = sLen / radius`, clamped to `maxTheta`: at most a quarter turn minus 1e-4,
      so a decal never wraps past the horizon of its centre. */
  function GeodesicAngle(sLen: real, radius: real): (theta: real)
    requires radius != 0.0
    ensures theta == Min(sLen / radius, MaxTheta)
    ensures theta < Pi / 2.0
    ensures sLen >= 0.0 && radius > 0.0 ==> 0.0 <= theta
  {
    var theta := sLen / radius;
    if theta > MaxTheta then MaxTheta else theta
  }

  /** The projected vertex: `(u0 cos theta + dir sin theta) * (radius + offset)`. */
  function ProjectPoint(m: Env, f: Frame, radius: real, offset: real, p: Vec2): Vec3
    requires radius != 0.0
  {
    var theta := GeodesicAngle(m.hypot(p.x, p.y), radius);
    var unit := Add3(Scale3(f.center, m.cos(theta)), Scale3(Direction(m, f, p), m.sin(theta)));
    Scale3(unit, radius + offset)
  }

  // ---------------------------------------------------------------------------
  // Proofs
  // ---------------------------------------------------------------------------

  /** hypot(0, 0) = 0 when hypot is exact. */
  lemma HypotOfOrigin(m: Env)
    requires HypotExact(m)
    ensures m.hypot(0.0, 0.0) == 0.0
  {
    var h := m.hypot(0.0, 0.0);
    assert h >= 0.0 && h * h == 0.0 * 0.0 + 0.0 * 0.0;
    SquareZero(h, 0.0);
  }

  /** The centre of the tangent plane takes the fallback direction `north`. */
  lemma DirectionAtOrigin(m: Env, f: Frame)
    requires HypotExact(m)
    ensures Direction(m, f, Vec2(0.0, 0.0)) == f.north
  {
    HypotOfOrigin(m);
  }

  /** The direction is a unit vector of the tangent plane at the centre. */
  lemma DirectionUnitTangent(m: Env, f: Frame, p: Vec2)
    requires Orthonormal(f) && HypotExact(m) && SqrtExact(m)
    ensures LengthSq3(Direction(m, f, p)) == 1.0
    ensures Dot3(Direction(m, f, p), f.center) == 0.0
  {
    var h := m.hypot(p.x, p.y);
    if h > DirectionEpsilon {
      var w := Add3(Scale3(f.east, p.x), Scale3(f.north, p.y));
      SquarePositive(h, p.x * p.x + p.y * p.y);
      DotSymmetric(f.center, f.east);
      DotSymmetric(f.center, f.north);
      CombinationLength(f.east, f.north, p.x, p.y);
      NormalizeUnit(m, w);
      CombinationPerpendicular(f.east, f.north, p.x, p.y, f.center);
      NormalizePerpendicular(m, w, f.center);
    } else {
      DotSymmetric(f.center, f.north);
    }
  }

  /** The unit combination has length 1, so every projected vertex lies on the sphere of
      radius `radius + offset`. */
  lemma ProjectOnSphere(m: Env, f: Frame, radius: real, offset: real, p: Vec2)
    requires radius != 0.0
    requires Orthonormal(f) && Pythagorean(m) && HypotExact(m) && SqrtExact(m)
    ensures OnSphere(ProjectPoint(m, f, radius, offset, p), radius + offset)
  {
    var theta := GeodesicAngle(m.hypot(p.x, p.y), radius);
    var dir := Direction(m, f, p);
    var unit := Add3(Scale3(f.center, m.cos(theta)), Scale3(dir, m.sin(theta)));
    DirectionUnitTangent(m, f, p);
    DotSymmetric(dir, f.center);
    CombinationLength(f.center, dir, m.cos(theta), m.sin(theta));
    assert m.sin(theta) * m.sin(theta) + m.cos(theta) * m.cos(theta) == 1.0;
    LengthSqScale(unit, radius + offset);
  }

  /** The vertex sits at angle theta from the centre along `dir`: its components along the
      centre and along the direction are R cos theta and R sin theta. */
  lemma ProjectAngle(m: Env, f: Frame, radius: real, offset: real, p: Vec2)
    requires radius != 0.0
    requires Orthonormal(f) && HypotExact(m) && SqrtExact(m)
    ensures var theta := GeodesicAngle(m.hypot(p.x, p.y), radius);
            var q := ProjectPoint(m, f, radius, offset, p);
            Dot3(q, f.center) == (radius + offset) * m.cos(theta)
            && Dot3(q, Direction(m, f, p)) == (radius + offset) * m.sin(theta)
  {
    var theta := GeodesicAngle(m.hypot(p.x, p.y), radius);
    var dir := Direction(m, f, p);
    var c := m.cos(theta);
    var s := m.sin(theta);
    var unit := Add3(Scale3(f.center, c), Scale3(dir, s));
    DirectionUnitTangent(m, f, p);
    DotSymmetric(dir, f.center);
    CombinationDot(f.center, dir, c, s, f.center);
    CombinationDot(f.center, dir, c, s, dir);
    assert Dot3(unit, f.center) == c;
    assert Dot3(unit, dir) == s;
    DotScale(unit, radius + offset, f.center);
    DotScale(unit, radius + offset, dir);
  }

  /** The centre of the tangent plane maps to the centre direction itself. */
  lemma ProjectOrigin(m: Env, f: Frame, radius: real, offset: real)
    requires radius != 0.0 && HypotExact(m) && ZeroAngle(m)
    ensures ProjectPoint(m, f, radius, offset, Vec2(0.0, 0.0)) == Scale3(f.center, radius + offset)
  {
    HypotOfOrigin(m);
    assert GeodesicAngle(0.0, radius) == 0.0;
  }

  lemma PositiveProduct(r: real, c: real)
    requires r > 0.0 && c > 0.0
    ensures r * c > 0.0
  {
    MulPositive(r, c, r * c);
  }

  /** Because theta stays below a quarter turn, every vertex lies strictly on the centre's
      side of the globe: its component along the centre is positive. */
  lemma ProjectFrontHemisphere(m: Env, f: Frame, radius: real, offset: real, p: Vec2)
    requires radius > 0.0 && radius + offset > 0.0
    requires Orthonormal(f) && HypotExact(m) && SqrtExact(m) && CosPositiveQuarter(m)
    ensures Dot3(ProjectPoint(m, f, radius, offset, p), f.center) > 0.0
  {
    var theta := GeodesicAngle(m.hypot(p.x, p.y), radius);
    ProjectAngle(m, f, radius, offset, p);
    assert m.cos(theta) > 0.0;
    PositiveProduct(radius + offset, m.cos(theta));
  }
}
