/** `computeTangentFrame` (app/ui/globe.tsx): the unit direction `u0` of a decal's centre
    on the globe, and an east/north basis of the tangent plane there. */
module TangentFrame {
  import opened MathEnv
  import opened Vectors

  /** The three vectors the decal builders project with: `u0` (called `center` here),
      `east` and `north`. */
  datatype Frame = Frame(center: Vec3, east: Vec3, north: Vec3)

  /** `globalUp`: the globe's y axis. */
  const GlobalUp: Vec3 := Vec3(0.0, 1.0, 0.0)

  /** The axis crossed with instead of `globalUp` near a pole. */
  const Forward: Vec3 := Vec3(0.0, 0.0, 1.0)

  /** `east.lengthSq() < 1e-8` selects the fallback basis. */
  const FallbackThreshold: real := 0.00000001

  /** `(cos lat sin lon, sin lat, cos lat cos lon)` before normalising (y is up). */
  function RawCenter(m: Env, lonDeg: real, latDeg: real): Vec3
  {
    var lon := DegToRad(lonDeg);
    var lat := DegToRad(latDeg);
    Vec3(m.cos(lat) * m.sin(lon), m.sin(lat), m.cos(lat) * m.cos(lon))
  }

  function Center(m: Env, lonDeg: real, latDeg: real): Vec3
  {
    Normalize3(m, RawCenter(m, lonDeg, latDeg))
  }

  /** The near-pole case: `globalUp x u0` is too short to normalise reliably. */
  predicate UsesFallback(m: Env, lonDeg: real, latDeg: real)
  {
    LengthSq3(Cross3(GlobalUp, Center(m, lonDeg, latDeg))) < FallbackThreshold
  }

  /** The frame at longitude `lonDeg`, latitude `latDeg` (degrees). Away from the poles
      east is horizontal (its y component is 0); at a pole it lies in the plane z = 0. */
  function ComputeTangentFrame(m: Env, lonDeg: real, latDeg: real): (f: Frame)
    ensures !UsesFallback(m, lonDeg, latDeg) ==> f.east.y == 0.0
    ensures UsesFallback(m, lonDeg, latDeg) ==> f.east.z == 0.0
  {
    var u0 := Center(m, lonDeg, latDeg);
    var east := if UsesFallback(m, lonDeg, latDeg) then Cross3(Forward, u0) else Cross3(GlobalUp, u0);
    var e := Normalize3(m, east);
    Frame(u0, e, Normalize3(m, Cross3(u0, e)))
  }

  /** The three vectors are unit length, pairwise perpendicular, and right-handed
      (north = center x east and east x north = center). */
  ghost predicate Orthonormal(f: Frame)
  {
    && LengthSq3(f.center) == 1.0 && LengthSq3(f.east) == 1.0 && LengthSq3(f.north) == 1.0
    && Dot3(f.center, f.east) == 0.0 && Dot3(f.center, f.north) == 0.0 && Dot3(f.east, f.north) == 0.0
    && f.north == Cross3(f.center, f.east)
    && Cross3(f.east, f.north) == f.center
  }

  // ---------------------------------------------------------------------------
  // Proofs
  // ---------------------------------------------------------------------------

  lemma SphericalUnit(cl: real, sl: real, sn: real, cn: real)
    requires sl * sl + cl * cl == 1.0 && sn * sn + cn * cn == 1.0
    ensures (cl * sn) * (cl * sn) + sl * sl + (cl * cn) * (cl * cn) == 1.0
  {
    assert (cl * sn) * (cl * sn) + (cl * cn) * (cl * cn) == cl * cl * (sn * sn + cn * cn);
  }

  /** `(r cl sn, r sl, r cl cn)` lies on the sphere of radius r: the shape of every point the
      globe places by a latitude-like and a longitude-like angle. */
  lemma SphericalOnSphere(r: real, cl: real, sl: real, sn: real, cn: real)
    requires sl * sl + cl * cl == 1.0 && sn * sn + cn * cn == 1.0
    ensures OnSphere(Vec3(r * cl * sn, r * sl, r * cl * cn), r)
  {
    SphericalUnit(cl, sl, sn, cn);
    assert Vec3(r * cl * sn, r * sl, r * cl * cn) == Scale3(Vec3(cl * sn, sl, cl * cn), r);
    LengthSqScale(Vec3(cl * sn, sl, cl * cn), r);
  }

  /** With sin^2 + cos^2 = 1 the raw centre is already a unit vector. */
  lemma RawCenterUnit(m: Env, lonDeg: real, latDeg: real)
    requires Pythagorean(m)
    ensures LengthSq3(RawCenter(m, lonDeg, latDeg)) == 1.0
  {
    var lon := DegToRad(lonDeg);
    var lat := DegToRad(latDeg);
    assert m.sin(lat) * m.sin(lat) + m.cos(lat) * m.cos(lat) == 1.0;
    assert m.sin(lon) * m.sin(lon) + m.cos(lon) * m.cos(lon) == 1.0;
    SphericalUnit(m.cos(lat), m.sin(lat), m.sin(lon), m.cos(lon));
  }

  /** So normalising it changes nothing. */
  lemma CenterIsRaw(m: Env, lonDeg: real, latDeg: real)
    requires Pythagorean(m) && SqrtExact(m)
    ensures Center(m, lonDeg, latDeg) == RawCenter(m, lonDeg, latDeg)
    ensures LengthSq3(Center(m, lonDeg, latDeg)) == 1.0
  {
    RawCenterUnit(m, lonDeg, latDeg);
    NormalizeOfUnit(m, RawCenter(m, lonDeg, latDeg));
  }

  lemma CrossUp(v: Vec3)
    ensures Cross3(GlobalUp, v) == Vec3(v.z, 0.0, -v.x)
  {
  }

  lemma CrossForward(v: Vec3)
    ensures Cross3(Forward, v) == Vec3(-v.y, v.x, 0.0)
  {
  }

  /** If a unit vector has x^2 + z^2 below the threshold, then x^2 + y^2 is positive. */
  lemma FallbackLength(x: real, y: real, z: real)
    requires x * x + y * y + z * z == 1.0
    requires z * z + 0.0 * 0.0 + (-x) * (-x) < FallbackThreshold
    ensures (-y) * (-y) + x * x + 0.0 * 0.0 > 0.0
  {
    SquareNonneg(x);
  }

  /** The unnormalised east vector is perpendicular to the centre and not zero. */
  lemma RawEastProperties(m: Env, lonDeg: real, latDeg: real)
    requires Pythagorean(m) && SqrtExact(m)
    ensures var u0 := Center(m, lonDeg, latDeg);
            var east := if UsesFallback(m, lonDeg, latDeg) then Cross3(Forward, u0) else Cross3(GlobalUp, u0);
            LengthSq3(east) > 0.0 && Dot3(east, u0) == 0.0
  {
    var u0 := Center(m, lonDeg, latDeg);
    CenterIsRaw(m, lonDeg, latDeg);
    if UsesFallback(m, lonDeg, latDeg) {
      CrossUp(u0);
      CrossForward(u0);
      FallbackLength(u0.x, u0.y, u0.z);
      CrossPerpendicular(Forward, u0);
    } else {
      CrossPerpendicular(GlobalUp, u0);
    }
  }

  /** Given sin^2 + cos^2 = 1 and an exact square root, the frame is orthonormal and
      right-handed, at the poles as everywhere else. */
  lemma FrameOrthonormal(m: Env, lonDeg: real, latDeg: real)
    requires Pythagorean(m) && SqrtExact(m)
    ensures Orthonormal(ComputeTangentFrame(m, lonDeg, latDeg))
  {
    var f := ComputeTangentFrame(m, lonDeg, latDeg);
    var u0 := Center(m, lonDeg, latDeg);
    var east := if UsesFallback(m, lonDeg, latDeg) then Cross3(Forward, u0) else Cross3(GlobalUp, u0);
    CenterIsRaw(m, lonDeg, latDeg);
    RawEastProperties(m, lonDeg, latDeg);
    NormalizeUnit(m, east);
    DotSymmetric(east, u0);
    NormalizePerpendicular(m, east, u0);
    var e := Normalize3(m, east);
    DotSymmetric(e, u0);
    CrossOfOrthonormal(u0, e);
    NormalizeOfUnit(m, Cross3(u0, e));
    CrossPerpendicular(u0, e);
    DotSymmetric(Cross3(u0, e), u0);
    DotSymmetric(Cross3(u0, e), e);
    CrossBack(u0, e);
  }

  lemma PolarIdentity(cl: real, sn: real, cn: real)
    requires sn * sn + cn * cn == 1.0
    ensures (cl * cn) * (cl * cn) + 0.0 * 0.0 + (-(cl * sn)) * (-(cl * sn)) == cl * cl
  {
    assert (cl * cn) * (cl * cn) + (cl * sn) * (cl * sn) == cl * cl * (sn * sn + cn * cn);
  }

  /** The fallback is taken exactly when cos^2(lat) < 1e-8, that is, within a hair of a
      pole, whatever the longitude. */
  lemma FallbackIffNearPole(m: Env, lonDeg: real, latDeg: real)
    requires Pythagorean(m) && SqrtExact(m)
    ensures UsesFallback(m, lonDeg, latDeg)
        <==> m.cos(DegToRad(latDeg)) * m.cos(DegToRad(latDeg)) < FallbackThreshold
  {
    var lon := DegToRad(lonDeg);
    var lat := DegToRad(latDeg);
    var u0 := Center(m, lonDeg, latDeg);
    CenterIsRaw(m, lonDeg, latDeg);
    CrossUp(u0);
    assert m.sin(lon) * m.sin(lon) + m.cos(lon) * m.cos(lon) == 1.0;
    PolarIdentity(m.cos(lat), m.sin(lon), m.cos(lon));
  }
}
