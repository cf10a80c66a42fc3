/** The superellipse contour that every decal and outline of the globe is built from
    (app/ui/globe.tsx, the sampling loops of `Superellipse`, `SuperellipseOnGlobe`,
    `SuperellipseFillOnGlobe` and the three decal components).

    Each loop samples `t = (i / segments) * 2 pi` for `i = 0 .. segments`, takes
    `x = a sign(cos t) |cos t|^(2/n)`, `y = b sign(sin t) |sin t|^(2/n)`, rotates (x, y) by
    the decal angle, and then maps the rotated point into the coordinates its component
    needs. */
module Contour {
  import opened MathEnv
  import opened Vectors

  /** The superellipse parameters shared by every component: semi-axes `a`, `b`, exponent
      `n` and the number of segments the closed loop is cut into. */
  datatype Shape = Shape(a: real, b: real, n: real, segments: nat)

  /** What the formulas need to be real numbers rather than NaN: nonzero semi-axes (the
      normalised coordinates divide by them), a positive exponent and at least one segment. */
  predicate ValidShape(sh: Shape)
  {
    sh.a != 0.0 && sh.b != 0.0 && sh.n > 0.0 && sh.segments > 0
  }

  // ---------------------------------------------------------------------------
  // The sampled parameter
  // ---------------------------------------------------------------------------

  lemma FractionBounds(i: real, n: real)
    requires 0.0 <= i <= n && n > 0.0
    ensures 0.0 <= i / n <= 1.0
    ensures i / n == 0.0 <==> i == 0.0
    ensures i / n == 1.0 <==> i == n
  {
  }

  lemma FractionLess(i: real, j: real, n: real)
    requires i < j && n > 0.0
    ensures i / n < j / n
  {
  }

  /** `t = (i / segments) * Math.PI * 2`: the i-th of segments + 1 parameter values. */
  function SampleParam(i: nat, segments: nat): (t: real)
    requires 0 < segments && i <= segments
    ensures 0.0 <= t <= 2.0 * Pi
    ensures t == 0.0 <==> i == 0
    ensures t == 2.0 * Pi <==> i == segments
  {
    FractionBounds(i as real, segments as real);
    (i as real / segments as real) * Pi * 2.0
  }

  /** The parameter strictly increases with the sample index. */
  lemma SampleParamIncreasing(i: nat, j: nat, segments: nat)
    requires 0 < segments && i < j <= segments
    ensures SampleParam(i, segments) < SampleParam(j, segments)
  {
    FractionLess(i as real, j as real, segments as real);
  }

  /** The sampling loop shared by every contour builder: the point of parameter
      `(i / segments) * 2 pi` is pushed for i = 0, 1, ..., segments. */
  method Sample<T>(segments: nat, point: real -> T) returns (pts: seq<T>)
    requires segments > 0
    ensures |pts| == segments + 1
    ensures forall i :: 0 <= i <= segments ==> pts[i] == point(SampleParam(i, segments))
    ensures pts[0] == point(0.0) && pts[segments] == point(2.0 * Pi)
  {
    pts := [];
    var i := 0;
    while i <= segments
      invariant 0 <= i <= segments + 1
      invariant |pts| == i
      invariant forall k :: 0 <= k < i ==> pts[k] == point(SampleParam(k, segments))
    {
      pts := pts + [point(SampleParam(i, segments))];
      i := i + 1;
    }
  }

  // ---------------------------------------------------------------------------
  // The point at one parameter value
  // ---------------------------------------------------------------------------

  /** `Math.sign(c) * Math.pow(Math.abs(c), e)`: |c|^e carrying the sign of c. */
  function SignedPower(m: Env, c: real, e: real): real
  {
    Sign(c) * m.pow(Abs(c), e)
  }

  /** The sample of the unit superellipse (a = b = 1) at parameter t. */
  function UnitShapePoint(m: Env, n: real, t: real): Vec2
    requires n != 0.0
  {
    Vec2(SignedPower(m, m.cos(t), 2.0 / n), SignedPower(m, m.sin(t), 2.0 / n))
  }

  /** `x = a * Math.sign(c) * Math.pow(Math.abs(c), 2 / n)` and the same for y with `b` and
      `s`, where c = cos t and s = sin t. Multiplying by a sign of -1, 0 or 1 first is exact,
      so grouping the product as a * (sign * pow) changes nothing. */
  function ShapePoint(m: Env, sh: Shape, t: real): Vec2
    requires sh.n != 0.0
  {
    var u := UnitShapePoint(m, sh.n, t);
    Vec2(sh.a * u.x, sh.b * u.y)
  }

  /** The rotation `xr = x cosA - y sinA`, `yr = x sinA + y cosA`. */
  function Rotate(p: Vec2, cosA: real, sinA: real): Vec2
  {
    Vec2(p.x * cosA - p.y * sinA, p.x * sinA + p.y * cosA)
  }

  /** The rotated contour point, before any component-specific mapping. */
  function RotatedPoint(m: Env, sh: Shape, cosA: real, sinA: real, t: real): Vec2
    requires sh.n != 0.0
  {
    Rotate(ShapePoint(m, sh, t), cosA, sinA)
  }

  /** `(xr / a, yr / b)`: the normalised parameter-space point of the lon/lat components. */
  function ParamPoint(m: Env, sh: Shape, cosA: real, sinA: real, t: real): Vec2
    requires ValidShape(sh)
  {
    var r := RotatedPoint(m, sh, cosA, sinA, t);
    Vec2(r.x / sh.a, r.y / sh.b)
  }

  /** `((xr / a) * halfW, (yr / b) * halfH)`: the tangent-plane point of the decal components. */
  function TangentPoint(m: Env, sh: Shape, cosA: real, sinA: real, halfW: real, halfH: real, t: real): Vec2
    requires ValidShape(sh)
  {
    var p := ParamPoint(m, sh, cosA, sinA, t);
    Vec2(p.x * halfW, p.y * halfH)
  }

  // ---------------------------------------------------------------------------
  // Facts about one point
  // ---------------------------------------------------------------------------

  /** The unit superellipse equation |x|^n + |y|^n = 1. */
  ghost predicate OnUnitSuperellipse(m: Env, n: real, p: Vec2)
  {
    m.pow(Abs(p.x), n) + m.pow(Abs(p.y), n) == 1.0
  }

  /** What a coordinate built from c with exponent e = 2 / n needs of pow: |c|^e is
      nonnegative, 0^e = 0, and (|c|^e)^n = c^2. */
  ghost predicate PowFactsAt(m: Env, c: real, e: real, n: real)
  {
    m.pow(Abs(c), e) >= 0.0 && m.pow(0.0, e) == 0.0 && m.pow(m.pow(Abs(c), e), n) == c * c
  }

  lemma AbsSquare(c: real)
    ensures Abs(c) * Abs(c) == c * c
  {
    if c < 0.0 {
      assert Abs(c) == -c;
    }
  }

  lemma ExponentCancels(n: real)
    requires n > 0.0
    ensures 2.0 / n > 0.0
    ensures 2.0 / n * n == 2.0
  {
  }

  lemma PowSameBase(m: Env, x: real, y: real, p: real)
    requires x == y
    ensures m.pow(x, p) == m.pow(y, p)
  {
  }

  /** A signed power raised back to the power n gives the square of its base. */
  lemma SignedPowerBack(m: Env, c: real, e: real, n: real)
    requires PowFactsAt(m, c, e, n)
    ensures m.pow(Abs(SignedPower(m, c, e)), n) == c * c
  {
    if c == 0.0 {
      assert m.pow(Abs(c), e) == m.pow(0.0, e);
    }
    assert Abs(SignedPower(m, c, e)) == m.pow(Abs(c), e);
    PowSameBase(m, Abs(SignedPower(m, c, e)), m.pow(Abs(c), e), n);
  }

  lemma SumOfSquaresParts(u: real, v: real, c: real, s: real)
    requires u == c * c && v == s * s && c * c + s * s == 1.0
    ensures u + v == 1.0
  {
  }

  /** Every sample of the unit superellipse satisfies |x|^n + |y|^n = 1, given
      sin^2 + cos^2 = 1 and the laws of pow. */
  lemma UnitShapePointOnCurve(m: Env, n: real, t: real)
    requires n > 0.0 && Pythagorean(m) && PowLaws(m)
    ensures OnUnitSuperellipse(m, n, UnitShapePoint(m, n, t))
  {
    var c := m.cos(t);
    var s := m.sin(t);
    var e := 2.0 / n;
    assert s * s + c * c == 1.0;
    ExponentCancels(n);
    AbsSquare(c);
    AbsSquare(s);
    assert PowFactsAt(m, c, e, n);
    assert PowFactsAt(m, s, e, n);
    SignedPowerBack(m, c, e, n);
    SignedPowerBack(m, s, e, n);
    SumOfSquaresParts(m.pow(Abs(SignedPower(m, c, e)), n), m.pow(Abs(SignedPower(m, s, e)), n), c, s);
  }

  lemma DivCancel(k: real, y: real)
    requires k != 0.0
    ensures k * y / k == y
  {
  }

  /** Dividing a sample by its semi-axes gives the unit superellipse's sample back, so
      every sample satisfies |x/a|^n + |y/b|^n = 1. */
  lemma ShapePointOnCurve(m: Env, sh: Shape, t: real)
    requires ValidShape(sh) && Pythagorean(m) && PowLaws(m)
    ensures var p := ShapePoint(m, sh, t); Vec2(p.x / sh.a, p.y / sh.b) == UnitShapePoint(m, sh.n, t)
    ensures var p := ShapePoint(m, sh, t); OnUnitSuperellipse(m, sh.n, Vec2(p.x / sh.a, p.y / sh.b))
  {
    var u := UnitShapePoint(m, sh.n, t);
    DivCancel(sh.a, u.x);
    DivCancel(sh.b, u.y);
    UnitShapePointOnCurve(m, sh.n, t);
  }

  lemma RotationIdentity(x: real, y: real, c: real, s: real)
    requires c * c + s * s == 1.0
    ensures (x * c - y * s) * (x * c - y * s) + (x * s + y * c) * (x * s + y * c) == x * x + y * y
  {
    assert (x * c - y * s) * (x * c - y * s) + (x * s + y * c) * (x * s + y * c)
        == x * x * (c * c + s * s) + y * y * (c * c + s * s);
  }

  /** Rotating by an angle whose cosine and sine satisfy cos^2 + sin^2 = 1 keeps the
      distance from the origin. */
  lemma RotatePreservesLength(p: Vec2, cosA: real, sinA: real)
    requires cosA * cosA + sinA * sinA == 1.0
    ensures LengthSq2(Rotate(p, cosA, sinA)) == LengthSq2(p)
  {
    RotationIdentity(p.x, p.y, cosA, sinA);
  }

  /** A zero angle (cos = 1, sin = 0) leaves the contour unrotated. */
  lemma RotateByZero(p: Vec2)
    ensures Rotate(p, 1.0, 0.0) == p
  {
  }

  /** With a zero decal angle the normalised contour point (xr / a, yr / b) is the unit
      superellipse's sample, so it satisfies |x|^n + |y|^n = 1. */
  lemma ParamPointUnrotated(m: Env, sh: Shape, t: real)
    requires ValidShape(sh) && Pythagorean(m) && PowLaws(m)
    ensures ParamPoint(m, sh, 1.0, 0.0, t) == UnitShapePoint(m, sh.n, t)
    ensures OnUnitSuperellipse(m, sh.n, ParamPoint(m, sh, 1.0, 0.0, t))
  {
    RotateByZero(ShapePoint(m, sh, t));
    ShapePointOnCurve(m, sh, t);
  }

  /** sin and cos agree at 0 and 2 pi, so the first and the last sample coincide. */
  lemma ShapePointClosed(m: Env, sh: Shape)
    requires sh.n != 0.0 && FullTurn(m)
    ensures ShapePoint(m, sh, 2.0 * Pi) == ShapePoint(m, sh, 0.0)
  {
  }

  /** So do the rotated, normalised point and the tangent-plane point. */
  lemma TangentPointClosed(m: Env, sh: Shape, cosA: real, sinA: real, halfW: real, halfH: real)
    requires ValidShape(sh) && FullTurn(m)
    ensures ParamPoint(m, sh, cosA, sinA, 2.0 * Pi) == ParamPoint(m, sh, cosA, sinA, 0.0)
    ensures TangentPoint(m, sh, cosA, sinA, halfW, halfH, 2.0 * Pi) == TangentPoint(m, sh, cosA, sinA, halfW, halfH, 0.0)
  {
    ShapePointClosed(m, sh);
  }

  // ---------------------------------------------------------------------------
  // The builders
  // ---------------------------------------------------------------------------

  /** The 2D outline of `Superellipse`: segments + 1 points, closed, each on the curve. */
  method SuperellipsePoints(m: Env, sh: Shape) returns (pts: seq<Vec2>)
    requires ValidShape(sh)
    ensures |pts| == sh.segments + 1
    ensures forall i :: 0 <= i <= sh.segments ==> pts[i] == ShapePoint(m, sh, SampleParam(i, sh.segments))
    ensures FullTurn(m) ==> pts[0] == pts[sh.segments]
    ensures Pythagorean(m) && PowLaws(m) ==>
              forall i :: 0 <= i < |pts| ==> OnUnitSuperellipse(m, sh.n, Vec2(pts[i].x / sh.a, pts[i].y / sh.b))
  {
    pts := Sample(sh.segments, t requires sh.n != 0.0 => ShapePoint(m, sh, t));
    if FullTurn(m) {
      ShapePointClosed(m, sh);
    }
    if Pythagorean(m) && PowLaws(m) {
      forall i | 0 <= i < |pts|
        ensures OnUnitSuperellipse(m, sh.n, Vec2(pts[i].x / sh.a, pts[i].y / sh.b))
      {
        ShapePointOnCurve(m, sh, SampleParam(i, sh.segments));
      }
    }
  }

  /** The normalised contour `contour2D` of `SuperellipseFillOnGlobe`. */
  method ParamContour(m: Env, sh: Shape, cosA: real, sinA: real) returns (pts: seq<Vec2>)
    requires ValidShape(sh)
    ensures |pts| == sh.segments + 1
    ensures forall i :: 0 <= i <= sh.segments ==>
              pts[i] == ParamPoint(m, sh, cosA, sinA, SampleParam(i, sh.segments))
    ensures FullTurn(m) ==> pts[0] == pts[sh.segments]
  {
    pts := Sample(sh.segments, t requires ValidShape(sh) => ParamPoint(m, sh, cosA, sinA, t));
    if FullTurn(m) {
      TangentPointClosed(m, sh, cosA, sinA, 1.0, 1.0);
    }
  }

  /** The tangent-plane polygon `poly2D` of the decal fill and outline. */
  method TangentContour(m: Env, sh: Shape, cosA: real, sinA: real, halfW: real, halfH: real)
    returns (pts: seq<Vec2>)
    requires ValidShape(sh)
    ensures |pts| == sh.segments + 1
    ensures forall i :: 0 <= i <= sh.segments ==>
              pts[i] == TangentPoint(m, sh, cosA, sinA, halfW, halfH, SampleParam(i, sh.segments))
    ensures FullTurn(m) ==> pts[0] == pts[sh.segments]
  {
    pts := Sample(sh.segments, t requires ValidShape(sh) => TangentPoint(m, sh, cosA, sinA, halfW, halfH, t));
    if FullTurn(m) {
      TangentPointClosed(m, sh, cosA, sinA, halfW, halfH);
    }
  }

  /** The glow band's two rims: `inner` is the tangent-plane contour and `outer` is the same
      contour scaled by `1 + glowScale`. */
  method GlowContours(m: Env, sh: Shape, cosA: real, sinA: real, halfW: real, halfH: real, glowScale: real)
    returns (inner: seq<Vec2>, outer: seq<Vec2>)
    requires ValidShape(sh)
    ensures |inner| == |outer| == sh.segments + 1
    ensures forall i :: 0 <= i <= sh.segments ==>
              inner[i] == TangentPoint(m, sh, cosA, sinA, halfW, halfH, SampleParam(i, sh.segments))
    ensures forall i :: 0 <= i < |inner| ==> outer[i] == Scale2(inner[i], 1.0 + glowScale)
  {
    var scale := 1.0 + glowScale;
    inner := [];
    outer := [];
    var i := 0;
    while i <= sh.segments
      invariant 0 <= i <= sh.segments + 1
      invariant |inner| == |outer| == i
      invariant forall k :: 0 <= k < i ==>
                  inner[k] == TangentPoint(m, sh, cosA, sinA, halfW, halfH, SampleParam(k, sh.segments))
      invariant forall k :: 0 <= k < i ==> outer[k] == Scale2(inner[k], scale)
    {
      var p := TangentPoint(m, sh, cosA, sinA, halfW, halfH, SampleParam(i, sh.segments));
      inner := inner + [p];
      outer := outer + [Vec2(p.x * scale, p.y * scale)];
      i := i + 1;
    }
  }
}
