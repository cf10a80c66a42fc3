/** The wireframe grid of `MinimalGlobe` (app/ui/globe.tsx, the `useMemo` that builds
    `latitudeCircles` and `longitudeCircles`): `latLines` parallels strictly between the poles
    and `lonLines` meridians, each a closed polyline of `SamplesPerCircle + 1` points on the
    sphere of radius `radius + 0.001`, just above the globe's surface. */
module Grid {
  import opened MathEnv
  import opened Vectors
  import opened TangentFrame
  import opened Contour

  /** `samplesPerCircle = 256`. */
  const SamplesPerCircle: nat := 256

  /** `lineRadius = radius + 0.001`. */
  function LineRadius(radius: real): real
  {
    radius + 0.001
  }

  /** `phi = -PI / 2 + (i * PI) / (latLines + 1)`: the latitude of parallel i, 1 <= i <= latLines. */
  function LatitudeAngle(i: nat, latLines: nat): real
  {
    -Pi / 2.0 + (i as real * Pi) / (latLines + 1) as real
  }

  /** `lambda = (j / lonLines) * PI * 2`: the longitude of meridian j, the same spacing as the
      contour samples. */
  function LongitudeAngle(j: nat, lonLines: nat): real
    requires j < lonLines
  {
    SampleParam(j, lonLines)
  }

  /** Point `theta` of the parallel at latitude phi: `(rAtLat cos theta, y, rAtLat sin theta)`
      with `y = r sin phi` and `rAtLat = r cos phi`. */
  function ParallelPoint(m: Env, r: real, phi: real, theta: real): Vec3
  {
    var rAtLat := r * m.cos(phi);
    Vec3(rAtLat * m.cos(theta), r * m.sin(phi), rAtLat * m.sin(theta))
  }

  /** Point t of the meridian at longitude lon (the source's `lambda`): `(zBase sin lon, r sin t, zBase cos lon)`
      with `zBase = r cos t`. */
  function MeridianPoint(m: Env, r: real, lon: real, t: real): Vec3
  {
    var zBase := r * m.cos(t);
    Vec3(zBase * m.sin(lon), r * m.sin(t), zBase * m.cos(lon))
  }

  // ---------------------------------------------------------------------------
  // Facts about the angles and the points
  // ---------------------------------------------------------------------------

  /** The latitude fraction `i / (latLines + 1)` of every parallel lies strictly inside (0, 1),
      so phi lies strictly between the poles -pi/2 and pi/2. */
  lemma LatitudeBetweenPoles(i: nat, latLines: nat)
    requires 1 <= i <= latLines
    ensures -Pi / 2.0 < LatitudeAngle(i, latLines) < Pi / 2.0
  {
    var d := (latLines + 1) as real;
    var q := (i as real * Pi) / d;
    assert q == (i as real / d) * Pi;
    FractionBounds(i as real, d);
    assert 0.0 < i as real / d < 1.0;
  }

  /** Parallels are listed from south to north: the latitude strictly increases with i. */
  lemma LatitudeIncreasing(i: nat, k: nat, latLines: nat)
    requires i < k
    ensures LatitudeAngle(i, latLines) < LatitudeAngle(k, latLines)
  {
    var d := (latLines + 1) as real;
    assert (i as real * Pi) / d == (i as real / d) * Pi;
    assert (k as real * Pi) / d == (k as real / d) * Pi;
    FractionLess(i as real, k as real, d);
  }

  /** With sin^2 + cos^2 = 1 every parallel point lies on the sphere of radius r. */
  lemma ParallelOnSphere(m: Env, r: real, phi: real, theta: real)
    requires Pythagorean(m)
    ensures OnSphere(ParallelPoint(m, r, phi, theta), r)
  {
    var cl, sl, sn, cn := m.cos(phi), m.sin(phi), m.cos(theta), m.sin(theta);
    assert sl * sl + cl * cl == 1.0;
    assert cn * cn + sn * sn == 1.0;
    SphericalOnSphere(r, cl, sl, sn, cn);
  }

  /** With sin^2 + cos^2 = 1 every meridian point lies on the sphere of radius r. */
  lemma MeridianOnSphere(m: Env, r: real, lon: real, t: real)
    requires Pythagorean(m)
    ensures OnSphere(MeridianPoint(m, r, lon, t), r)
  {
    var cl, sl, sn, cn := m.cos(t), m.sin(t), m.sin(lon), m.cos(lon);
    assert sl * sl + cl * cl == 1.0;
    assert sn * sn + cn * cn == 1.0;
    SphericalOnSphere(r, cl, sl, sn, cn);
  }

  /** Both kinds of circle close: the sample at a full turn is the sample at zero. */
  lemma CirclesClose(m: Env, r: real, angle: real)
    requires FullTurn(m)
    ensures ParallelPoint(m, r, angle, 2.0 * Pi) == ParallelPoint(m, r, angle, 0.0)
    ensures MeridianPoint(m, r, angle, 2.0 * Pi) == MeridianPoint(m, r, angle, 0.0)
  {
  }

  lemma ProductSwap(a: real, b: real, c: real)
    ensures (a * b) * c == (a * c) * b
  {
  }

  /** Every meridian point lies in the vertical plane through the y axis at longitude lon:
      `x cos lon = z sin lon`. */
  lemma MeridianInPlane(m: Env, r: real, lon: real, t: real)
    ensures MeridianPoint(m, r, lon, t).x * m.cos(lon) == MeridianPoint(m, r, lon, t).z * m.sin(lon)
  {
    ProductSwap(r * m.cos(t), m.sin(lon), m.cos(lon));
  }

  // ---------------------------------------------------------------------------
  // The builder
  // ---------------------------------------------------------------------------

  /** The facts a sampled meridian inherits from its points. */
  lemma MeridianFacts(m: Env, r: real, lon: real, pts: seq<Vec3>)
    requires |pts| == SamplesPerCircle + 1
    requires forall s :: 0 <= s <= SamplesPerCircle ==>
               pts[s] == MeridianPoint(m, r, lon, SampleParam(s, SamplesPerCircle))
    ensures forall s :: 0 <= s < |pts| ==> pts[s].x * m.cos(lon) == pts[s].z * m.sin(lon)
    ensures FullTurn(m) ==> pts[0] == pts[SamplesPerCircle]
    ensures Pythagorean(m) ==> forall s :: 0 <= s < |pts| ==> OnSphere(pts[s], r)
  {
    assert pts[0] == MeridianPoint(m, r, lon, SampleParam(0, SamplesPerCircle));
    assert pts[SamplesPerCircle] == MeridianPoint(m, r, lon, SampleParam(SamplesPerCircle, SamplesPerCircle));
    if FullTurn(m) {
      CirclesClose(m, r, lon);
    }
    forall s | 0 <= s < |pts|
      ensures pts[s].x * m.cos(lon) == pts[s].z * m.sin(lon)
    {
      MeridianInPlane(m, r, lon, SampleParam(s, SamplesPerCircle));
    }
    if Pythagorean(m) {
      forall s | 0 <= s < |pts|
        ensures OnSphere(pts[s], r)
      {
        MeridianOnSphere(m, r, lon, SampleParam(s, SamplesPerCircle));
      }
    }
  }

  /** The facts a sampled parallel inherits from its points. */
  lemma ParallelFacts(m: Env, r: real, phi: real, pts: seq<Vec3>)
    requires |pts| == SamplesPerCircle + 1
    requires forall s :: 0 <= s <= SamplesPerCircle ==>
               pts[s] == ParallelPoint(m, r, phi, SampleParam(s, SamplesPerCircle))
    ensures forall s, s' :: 0 <= s < |pts| && 0 <= s' < |pts| ==> pts[s].y == pts[s'].y
    ensures FullTurn(m) ==> pts[0] == pts[SamplesPerCircle]
    ensures Pythagorean(m) ==> forall s :: 0 <= s < |pts| ==> OnSphere(pts[s], r)
  {
    assert pts[0] == ParallelPoint(m, r, phi, SampleParam(0, SamplesPerCircle));
    assert pts[SamplesPerCircle] == ParallelPoint(m, r, phi, SampleParam(SamplesPerCircle, SamplesPerCircle));
    if FullTurn(m) {
      CirclesClose(m, r, phi);
    }
    if Pythagorean(m) {
      forall s | 0 <= s < |pts|
        ensures OnSphere(pts[s], r)
      {
        ParallelOnSphere(m, r, phi, SampleParam(s, SamplesPerCircle));
      }
    }
  }

  /** One parallel: the inner loop `for s in 0..samplesPerCircle`. */
  method Parallel(m: Env, r: real, phi: real) returns (pts: seq<Vec3>)
    ensures |pts| == SamplesPerCircle + 1
    ensures forall s :: 0 <= s <= SamplesPerCircle ==>
              pts[s] == ParallelPoint(m, r, phi, SampleParam(s, SamplesPerCircle))
    ensures forall s, s' :: 0 <= s < |pts| && 0 <= s' < |pts| ==> pts[s].y == pts[s'].y
    ensures FullTurn(m) ==> pts[0] == pts[SamplesPerCircle]
    ensures Pythagorean(m) ==> forall s :: 0 <= s < |pts| ==> OnSphere(pts[s], r)
  {
    pts := [];
    var s := 0;
    while s <= SamplesPerCircle
      invariant 0 <= s <= SamplesPerCircle + 1
      invariant |pts| == s
      invariant forall k :: 0 <= k < s ==> pts[k] == ParallelPoint(m, r, phi, SampleParam(k, SamplesPerCircle))
    {
      pts := pts + [ParallelPoint(m, r, phi, SampleParam(s, SamplesPerCircle))];
      s := s + 1;
    }
    ParallelFacts(m, r, phi, pts);
  }

  /** One meridian: the inner loop `for s in 0..samplesPerCircle`. */
  method Meridian(m: Env, r: real, lon: real) returns (pts: seq<Vec3>)
    ensures |pts| == SamplesPerCircle + 1
    ensures forall s :: 0 <= s <= SamplesPerCircle ==>
              pts[s] == MeridianPoint(m, r, lon, SampleParam(s, SamplesPerCircle))
    ensures forall s :: 0 <= s < |pts| ==> pts[s].x * m.cos(lon) == pts[s].z * m.sin(lon)
    ensures FullTurn(m) ==> pts[0] == pts[SamplesPerCircle]
    ensures Pythagorean(m) ==> forall s :: 0 <= s < |pts| ==> OnSphere(pts[s], r)
  {
    pts := [];
    var s := 0;
    while s <= SamplesPerCircle
      invariant 0 <= s <= SamplesPerCircle + 1
      invariant |pts| == s
      invariant forall k :: 0 <= k < s ==> pts[k] == MeridianPoint(m, r, lon, SampleParam(k, SamplesPerCircle))
    {
      pts := pts + [MeridianPoint(m, r, lon, SampleParam(s, SamplesPerCircle))];
      s := s + 1;
    }
    MeridianFacts(m, r, lon, pts);
  }

  /** The whole grid: parallel k is latitude line `i = k + 1` (the poles i = 0 and
      i = latLines + 1 are skipped) and meridian j is at longitude `j / lonLines` of a turn.
      Every polyline has 257 points on the sphere of radius `radius + 0.001` and is closed. */
  method BuildGrid(m: Env, radius: real, latLines: nat, lonLines: nat)
    returns (parallels: seq<seq<Vec3>>, meridians: seq<seq<Vec3>>)
    ensures |parallels| == latLines && |meridians| == lonLines
    ensures forall k :: 0 <= k < latLines ==>
              |parallels[k]| == SamplesPerCircle + 1
              && (forall s :: 0 <= s <= SamplesPerCircle ==>
                    parallels[k][s] == ParallelPoint(m, LineRadius(radius), LatitudeAngle(k + 1, latLines), SampleParam(s, SamplesPerCircle)))
    ensures forall j :: 0 <= j < lonLines ==>
              |meridians[j]| == SamplesPerCircle + 1
              && (forall s :: 0 <= s <= SamplesPerCircle ==>
                    meridians[j][s] == MeridianPoint(m, LineRadius(radius), LongitudeAngle(j, lonLines), SampleParam(s, SamplesPerCircle)))
    ensures FullTurn(m) ==>
              (forall k :: 0 <= k < latLines ==> parallels[k][0] == parallels[k][SamplesPerCircle])
              && (forall j :: 0 <= j < lonLines ==> meridians[j][0] == meridians[j][SamplesPerCircle])
    ensures Pythagorean(m) ==>
              (forall k, s :: 0 <= k < latLines && 0 <= s < |parallels[k]| ==> OnSphere(parallels[k][s], LineRadius(radius)))
              && (forall j, s :: 0 <= j < lonLines && 0 <= s < |meridians[j]| ==> OnSphere(meridians[j][s], LineRadius(radius)))
  {
    var r := LineRadius(radius);
    parallels := [];
    var i := 1;
    while i <= latLines
      invariant 1 <= i <= latLines + 1
      invariant |parallels| == i - 1
      invariant forall k :: 0 <= k < i - 1 ==>
                  |parallels[k]| == SamplesPerCircle + 1
                  && (forall s :: 0 <= s <= SamplesPerCircle ==>
                        parallels[k][s] == ParallelPoint(m, r, LatitudeAngle(k + 1, latLines), SampleParam(s, SamplesPerCircle)))
                  && (FullTurn(m) ==> parallels[k][0] == parallels[k][SamplesPerCircle])
                  && (Pythagorean(m) ==> forall s :: 0 <= s < |parallels[k]| ==> OnSphere(parallels[k][s], r))
    {
      var circle := Parallel(m, r, LatitudeAngle(i, latLines));
      parallels := parallels + [circle];
      i := i + 1;
    }
    meridians := [];
    var j := 0;
    while j < lonLines
      invariant 0 <= j <= lonLines
      invariant |meridians| == j
      invariant forall k :: 0 <= k < j ==>
                  |meridians[k]| == SamplesPerCircle + 1
                  && (forall s :: 0 <= s <= SamplesPerCircle ==>
                        meridians[k][s] == MeridianPoint(m, r, LongitudeAngle(k, lonLines), SampleParam(s, SamplesPerCircle)))
                  && (FullTurn(m) ==> meridians[k][0] == meridians[k][SamplesPerCircle])
                  && (Pythagorean(m) ==> forall s :: 0 <= s < |meridians[k]| ==> OnSphere(meridians[k][s], r))
    {
      var circle := Meridian(m, r, LongitudeAngle(j, lonLines));
      meridians := meridians + [circle];
      j := j + 1;
    }
  }
}
