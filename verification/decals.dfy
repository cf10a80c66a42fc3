/** The three tangent-plane decal components of app/ui/globe.tsx:
    `SuperellipseDecalFillOnGlobe`, `SuperellipseDecalOutlineOnGlobe` and
    `SuperellipseDecalGlowOnGlobe`. Each samples the superellipse into the tangent plane at
    the decal's centre (scaled to `planeWidth` by `planeHeight`) and wraps it onto the globe
    with the exponential map. */
module Decals {
  import opened MathEnv
  import opened Vectors
  import opened Buffers
  import opened Contour
  import opened TangentFrame
  import opened ExpMap
  import opened Mesh
  import opened Glow

  /** The properties the decal components share (`SuperellipseDecalCommon`). */
  datatype DecalProps = DecalProps(
    radius: real,
    planeWidth: real,
    planeHeight: real,
    shape: Shape,
    centerLonDeg: real,
    centerLatDeg: real,
    angleDeg: real,
    offset: real)

  /** Defaults of the fill: a = 1, b = 0.6, n = 1.4, 256 segments, centred at (0, 0),
      unrotated, offset 0.0006. */
  function FillDefaults(radius: real, planeWidth: real, planeHeight: real): DecalProps
  {
    DecalProps(radius, planeWidth, planeHeight, Shape(1.0, 0.6, 1.4, 256), 0.0, 0.0, 0.0, 0.0006)
  }

  /** Defaults of the outline: as the fill but 512 segments and offset 0.001. */
  function OutlineDefaults(radius: real, planeWidth: real, planeHeight: real): DecalProps
  {
    DecalProps(radius, planeWidth, planeHeight, Shape(1.0, 0.6, 1.4, 512), 0.0, 0.0, 0.0, 0.001)
  }

  /** Defaults of the glow: as the fill but offset 0.0008. */
  function GlowDefaults(radius: real, planeWidth: real, planeHeight: real): DecalProps
  {
    DecalProps(radius, planeWidth, planeHeight, Shape(1.0, 0.6, 1.4, 256), 0.0, 0.0, 0.0, 0.0008)
  }

  /** `glowScale = 0.18`: the outer rim is 18% further out than the inner one. */
  const DefaultGlowScale: real := 0.18

  /** `innerAlpha = 0.35`. */
  const DefaultInnerAlpha: real := 0.35

  /** The three decals' defaults describe valid superellipses; on a globe of positive radius
      each meets the hypothesis of `DecalVertexInFront`; the fill sits below the glow and the
      glow below the outline; the glow widens outwards and its inner alpha is an opacity. */
  lemma DefaultsValid(radius: real, planeWidth: real, planeHeight: real)
    ensures ValidShape(FillDefaults(radius, planeWidth, planeHeight).shape)
    ensures ValidShape(OutlineDefaults(radius, planeWidth, planeHeight).shape)
    ensures ValidShape(GlowDefaults(radius, planeWidth, planeHeight).shape)
    ensures radius > 0.0 ==>
              && radius + FillDefaults(radius, planeWidth, planeHeight).offset > 0.0
              && radius + OutlineDefaults(radius, planeWidth, planeHeight).offset > 0.0
              && radius + GlowDefaults(radius, planeWidth, planeHeight).offset > 0.0
    ensures FillDefaults(radius, planeWidth, planeHeight).offset
              < GlowDefaults(radius, planeWidth, planeHeight).offset
              < OutlineDefaults(radius, planeWidth, planeHeight).offset
    ensures DefaultGlowScale > 0.0 && 0.0 <= DefaultInnerAlpha <= 1.0
  {
  }

  /** The laws the exponential map's geometry rests on. */
  ghost predicate ExactMath(m: Env)
  {
    Pythagorean(m) && SqrtExact(m) && HypotExact(m)
  }

  /** `computeTangentFrame(centerLonDeg, centerLatDeg)`. */
  function DecalFrame(m: Env, props: DecalProps): Frame
  {
    ComputeTangentFrame(m, props.centerLonDeg, props.centerLatDeg)
  }

  /** Sample t of the contour in the tangent plane: `((xr / a) * halfW, (yr / b) * halfH)`. */
  function PlanePoint(m: Env, props: DecalProps, t: real): Vec2
    requires ValidShape(props.shape)
  {
    var ang := DegToRad(props.angleDeg);
    TangentPoint(m, props.shape, m.cos(ang), m.sin(ang), props.planeWidth / 2.0, props.planeHeight / 2.0, t)
  }

  /** The exponential map of a tangent-plane point, at the decal's frame and radius. */
  function DecalVertex(m: Env, props: DecalProps, p: Vec2): Vec3
    requires props.radius != 0.0
  {
    ProjectPoint(m, DecalFrame(m, props), props.radius, props.offset, p)
  }

  // ---------------------------------------------------------------------------
  // One vertex
  // ---------------------------------------------------------------------------

  /** Every decal vertex lies on the sphere of radius `radius + offset`. */
  lemma DecalVertexOnSphere(m: Env, props: DecalProps, p: Vec2)
    requires props.radius != 0.0 && ExactMath(m)
    ensures OnSphere(DecalVertex(m, props, p), props.radius + props.offset)
  {
    FrameOrthonormal(m, props.centerLonDeg, props.centerLatDeg);
    ProjectOnSphere(m, DecalFrame(m, props), props.radius, props.offset, p);
  }

  /** Every decal vertex lies on the decal centre's side of the globe. */
  lemma DecalVertexInFront(m: Env, props: DecalProps, p: Vec2)
    requires props.radius > 0.0 && props.radius + props.offset > 0.0
    requires ExactMath(m) && CosPositiveQuarter(m)
    ensures Dot3(DecalVertex(m, props, p), DecalFrame(m, props).center) > 0.0
  {
    FrameOrthonormal(m, props.centerLonDeg, props.centerLatDeg);
    ProjectFrontHemisphere(m, DecalFrame(m, props), props.radius, props.offset, p);
  }

  /** The contour closes: sample 2 pi is sample 0. */
  lemma PlanePointClosed(m: Env, props: DecalProps)
    requires ValidShape(props.shape) && FullTurn(m)
    ensures PlanePoint(m, props, 2.0 * Pi) == PlanePoint(m, props, 0.0)
  {
    var ang := DegToRad(props.angleDeg);
    TangentPointClosed(m, props.shape, m.cos(ang), m.sin(ang), props.planeWidth / 2.0, props.planeHeight / 2.0);
  }

  // ---------------------------------------------------------------------------
  // The components
  // ---------------------------------------------------------------------------

  /** `SuperellipseDecalOutlineOnGlobe`: segments + 1 points, the exponential map of the
      tangent-plane contour, closed, on the sphere and in front of the horizon. */
  method DecalOutline(m: Env, props: DecalProps) returns (pts: seq<Vec3>)
    requires ValidShape(props.shape) && props.radius != 0.0
    ensures |pts| == props.shape.segments + 1
    ensures forall i :: 0 <= i <= props.shape.segments ==>
              pts[i] == DecalVertex(m, props, PlanePoint(m, props, SampleParam(i, props.shape.segments)))
    ensures FullTurn(m) ==> pts[0] == pts[props.shape.segments]
    ensures ExactMath(m) ==> forall i :: 0 <= i < |pts| ==> OnSphere(pts[i], props.radius + props.offset)
    ensures ExactMath(m) && CosPositiveQuarter(m) && props.radius > 0.0 && props.radius + props.offset > 0.0 ==>
              forall i :: 0 <= i < |pts| ==> Dot3(pts[i], DecalFrame(m, props).center) > 0.0
  {
    pts := Sample(props.shape.segments,
      t requires ValidShape(props.shape) && props.radius != 0.0 => DecalVertex(m, props, PlanePoint(m, props, t)));
    if FullTurn(m) {
      PlanePointClosed(m, props);
    }
    if ExactMath(m) {
      forall i | 0 <= i < |pts|
        ensures OnSphere(pts[i], props.radius + props.offset)
      {
        DecalVertexOnSphere(m, props, PlanePoint(m, props, SampleParam(i, props.shape.segments)));
      }
    }
    if ExactMath(m) && CosPositiveQuarter(m) && props.radius > 0.0 && props.radius + props.offset > 0.0 {
      forall i | 0 <= i < |pts|
        ensures Dot3(pts[i], DecalFrame(m, props).center) > 0.0
      {
        DecalVertexInFront(m, props, PlanePoint(m, props, SampleParam(i, props.shape.segments)));
      }
    }
  }

  /** `SuperellipseDecalFillOnGlobe`: the polygon `poly2D` is triangulated in the tangent
      plane (the triangles are an input) and every corner is wrapped onto the globe. The
      exponential map is a pure function of the point, so wrapping each contour point once
      and reading the wrapped contour by triangle index gives the same vertices as wrapping
      every corner: vertex j is the wrapped contour sample `Corner(tris[j / 3], j % 3)`, and
      lies on the sphere. */
  method DecalFill(m: Env, props: DecalProps, tris: seq<Tri>) returns (positions: seq<real>)
    requires ValidShape(props.shape) && props.radius != 0.0
    requires IndicesIn(tris, props.shape.segments + 1)
    ensures |positions| == 9 * |tris|
    ensures forall j :: 0 <= j < 3 * |tris| ==>
              Corner(tris[j / 3], j % 3) <= props.shape.segments
              && Unflatten3(positions)[j]
                 == DecalVertex(m, props, PlanePoint(m, props, SampleParam(Corner(tris[j / 3], j % 3), props.shape.segments)))
    ensures ExactMath(m) ==>
              forall j :: 0 <= j < 3 * |tris| ==> OnSphere(Unflatten3(positions)[j], props.radius + props.offset)
  {
    var wrapped := DecalOutline(m, props);
    positions := TrianglePositions(wrapped, tris, (q: Vec3) => q);
    VertexCorners(wrapped, tris, (q: Vec3) => q);
  }

  /** The tangent-plane point of glow vertex j: rim sample `j / 6 + RimStep(j % 6)`, on the
      inner rim or scaled by `1 + glowScale` onto the outer one. */
  function GlowPlanePoint(m: Env, props: DecalProps, glowScale: real, j: nat): Vec2
    requires ValidShape(props.shape) && j < 6 * props.shape.segments
  {
    var i := j / 6 + RimStep(j % 6);
    var p := PlanePoint(m, props, SampleParam(i, props.shape.segments));
    if OnInnerRim(j % 6) then p else Scale2(p, 1.0 + glowScale)
  }

  /** The band of `SuperellipseDecalGlowOnGlobe` built on the decal's two rims: vertex j
      sits at `GlowPlanePoint(j)`, with alpha `innerAlpha` on the inner rim and 0 on the outer
      rim. */
  lemma GlowBand(m: Env, props: DecalProps, glowScale: real, innerAlpha: real, inner: seq<Vec2>, outer: seq<Vec2>)
    requires ValidShape(props.shape)
    requires |inner| == |outer| == props.shape.segments + 1
    requires forall i :: 0 <= i <= props.shape.segments ==>
               inner[i] == PlanePoint(m, props, SampleParam(i, props.shape.segments))
    requires forall i :: 0 <= i < |inner| ==> outer[i] == Scale2(inner[i], 1.0 + glowScale)
    ensures forall j :: 0 <= j < 6 * props.shape.segments ==>
              Strip(inner, outer, innerAlpha, props.shape.segments)[j]
              == BandVertex(GlowPlanePoint(m, props, glowScale, j), if OnInnerRim(j % 6) then innerAlpha else 0.0)
  {
    var count := props.shape.segments;
    forall j | 0 <= j < 6 * count
      ensures Strip(inner, outer, innerAlpha, count)[j]
              == BandVertex(GlowPlanePoint(m, props, glowScale, j), if OnInnerRim(j % 6) then innerAlpha else 0.0)
    {
      StripVertex(inner, outer, innerAlpha, count, j);
    }
  }

  /** The wrapped, tinted band: vertex j is the decal vertex of `GlowPlanePoint(j)` with the
      glow colour and its rim's alpha, on the sphere. */
  lemma WrappedBand(m: Env, props: DecalProps, col: Rgb, glowScale: real, innerAlpha: real, band: seq<BandVertex>)
    requires ValidShape(props.shape) && props.radius != 0.0
    requires |band| == 6 * props.shape.segments
    requires forall j :: 0 <= j < |band| ==>
               band[j] == BandVertex(GlowPlanePoint(m, props, glowScale, j), if OnInnerRim(j % 6) then innerAlpha else 0.0)
    ensures forall j :: 0 <= j < |band| ==>
              var v := Placed(p requires props.radius != 0.0 => DecalVertex(m, props, p), band)[j];
              v == DecalVertex(m, props, GlowPlanePoint(m, props, glowScale, j))
              && (ExactMath(m) ==> OnSphere(v, props.radius + props.offset))
    ensures forall j :: 0 <= j < |band| ==>
              Tinted(col, band)[j] == Rgba(col.r, col.g, col.b, if OnInnerRim(j % 6) then innerAlpha else 0.0)
  {
    var placed := Placed(p requires props.radius != 0.0 => DecalVertex(m, props, p), band);
    forall j | 0 <= j < |band|
      ensures placed[j] == DecalVertex(m, props, GlowPlanePoint(m, props, glowScale, j))
      ensures ExactMath(m) ==> OnSphere(placed[j], props.radius + props.offset)
    {
      if ExactMath(m) {
        DecalVertexOnSphere(m, props, GlowPlanePoint(m, props, glowScale, j));
      }
    }
  }

  /** `SuperellipseDecalGlowOnGlobe`: six vertices per segment. Vertex j is the exponential
      map of `GlowPlanePoint(j)`; its colour is the glow colour with alpha `innerAlpha` on the
      inner rim and 0 on the outer rim; and every vertex lies on the sphere. */
  method DecalGlow(m: Env, props: DecalProps, col: Rgb, glowScale: real, innerAlpha: real)
    returns (positions: seq<real>, colors: seq<real>)
    requires ValidShape(props.shape) && props.radius != 0.0
    ensures |positions| == 18 * props.shape.segments && |colors| == 24 * props.shape.segments
    ensures |Unflatten3(positions)| == |Unflatten4(colors)| == 6 * props.shape.segments
    ensures forall j :: 0 <= j < 6 * props.shape.segments ==>
              Unflatten3(positions)[j] == DecalVertex(m, props, GlowPlanePoint(m, props, glowScale, j))
    ensures forall j :: 0 <= j < 6 * props.shape.segments ==>
              Unflatten4(colors)[j] == Rgba(col.r, col.g, col.b, if OnInnerRim(j % 6) then innerAlpha else 0.0)
    ensures ExactMath(m) ==>
              forall j :: 0 <= j < 6 * props.shape.segments ==> OnSphere(Unflatten3(positions)[j], props.radius + props.offset)
  {
    var ang := DegToRad(props.angleDeg);
    var inner, outer := GlowContours(m, props.shape, m.cos(ang), m.sin(ang),
                                     props.planeWidth / 2.0, props.planeHeight / 2.0, glowScale);
    assert SegmentCount(inner) == props.shape.segments;
    GlowBand(m, props, glowScale, innerAlpha, inner, outer);
    var place := p requires props.radius != 0.0 => DecalVertex(m, props, p);
    positions, colors := BuildBand(place, col, innerAlpha, inner, outer);
    ghost var band := Strip(inner, outer, innerAlpha, props.shape.segments);
    Unflatten3OfFlatten3(Placed(place, band));
    Unflatten4OfFlatten4(Tinted(col, band));
    WrappedBand(m, props, col, glowScale, innerAlpha, band);
  }
}
