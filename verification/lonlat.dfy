/** The longitude/latitude placement of `SuperellipseOnGlobe` and `SuperellipseFillOnGlobe`
    (app/ui/globe.tsx): a normalised contour point (x, y) becomes the longitude
    `lonCenter + x lonScale` and latitude `latCenter + y latScale`, and that pair becomes the
    point `(R cos lat sin lon, R sin lat, R cos lat cos lon)` with `R = radius + offset`. */
module LonLat {
  import opened MathEnv
  import opened Vectors
  import opened Buffers
  import opened Contour
  import opened TangentFrame
  import opened Mesh

  /** The properties both lon/lat components share; angles in degrees as the props give them. */
  datatype GlobeShapeProps = GlobeShapeProps(
    radius: real,
    shape: Shape,
    offset: real,
    lonScaleDeg: real,
    latScaleDeg: real,
    centerLonDeg: real,
    centerLatDeg: real,
    angleDeg: real)

  /** Defaults of `SuperellipseOnGlobe`: a = 1, b = 0.6, n = 1.4, 512 segments, offset 0.002,
      a half-extent of 180 by 90 degrees, centred at (0, 0), unrotated. */
  function OutlineDefaults(radius: real): GlobeShapeProps
  {
    GlobeShapeProps(radius, Shape(1.0, 0.6, 1.4, 512), 0.002, 180.0, 90.0, 0.0, 0.0, 0.0)
  }

  /** Defaults of `SuperellipseFillOnGlobe`: as the outline but 256 segments and offset 0.0008. */
  function FillDefaults(radius: real): GlobeShapeProps
  {
    GlobeShapeProps(radius, Shape(1.0, 0.6, 1.4, 256), 0.0008, 180.0, 90.0, 0.0, 0.0, 0.0)
  }

  /** Both components' defaults describe a valid superellipse over the whole globe, unrotated,
      lifted above the surface, with the fill below the outline. */
  lemma DefaultsValid(radius: real)
    ensures ValidShape(OutlineDefaults(radius).shape) && ValidShape(FillDefaults(radius).shape)
    ensures OutlineDefaults(radius).angleDeg == 0.0 && FillDefaults(radius).angleDeg == 0.0
    ensures 0.0 < FillDefaults(radius).offset < OutlineDefaults(radius).offset
    ensures FillDefaults(radius).shape.segments * 2 == OutlineDefaults(radius).shape.segments
  {
  }

  /** `(R cos lat sin lon, R sin lat, R cos lat cos lon)`, y up, longitude 0 facing +z. */
  function SpherePoint(m: Env, r: real, lon: real, lat: real): Vec3
  {
    var cosLat := m.cos(lat);
    Vec3(r * cosLat * m.sin(lon), r * m.sin(lat), r * cosLat * m.cos(lon))
  }

  /** `lon = lonCenter + p.x * lonScale`. */
  function Longitude(props: GlobeShapeProps, p: Vec2): real
  {
    DegToRad(props.centerLonDeg) + p.x * DegToRad(props.lonScaleDeg)
  }

  /** `lat = latCenter + p.y * latScale`. */
  function Latitude(props: GlobeShapeProps, p: Vec2): real
  {
    DegToRad(props.centerLatDeg) + p.y * DegToRad(props.latScaleDeg)
  }

  /** The globe point of a normalised parameter-space point. */
  function GlobePoint(m: Env, props: GlobeShapeProps, p: Vec2): Vec3
  {
    SpherePoint(m, props.radius + props.offset, Longitude(props, p), Latitude(props, p))
  }

  /** The contour of the component, sample t, in parameter space. */
  function ContourPoint(m: Env, props: GlobeShapeProps, t: real): Vec2
    requires ValidShape(props.shape)
  {
    var ang := DegToRad(props.angleDeg);
    ParamPoint(m, props.shape, m.cos(ang), m.sin(ang), t)
  }

  // ---------------------------------------------------------------------------
  // Facts about one point
  // ---------------------------------------------------------------------------

  lemma ScaledComponents(r: real, cl: real, sn: real, sl: real, cn: real)
    ensures Vec3(r * cl * sn, r * sl, r * cl * cn) == Scale3(Vec3(cl * sn, sl, cl * cn), r)
  {
  }

  /** The placed point is the centre direction of `computeTangentFrame` at the same
      longitude and latitude, scaled by R: both conventions put longitude 0 on +z and
      latitude on y. */
  lemma SpherePointIsScaledCenter(m: Env, r: real, lonDeg: real, latDeg: real)
    ensures SpherePoint(m, r, DegToRad(lonDeg), DegToRad(latDeg)) == Scale3(RawCenter(m, lonDeg, latDeg), r)
  {
    var lon := DegToRad(lonDeg);
    var lat := DegToRad(latDeg);
    ScaledComponents(r, m.cos(lat), m.sin(lon), m.sin(lat), m.cos(lon));
  }

  /** Every placed point lies on the sphere of radius R. */
  lemma SpherePointOnSphere(m: Env, r: real, lon: real, lat: real)
    requires Pythagorean(m)
    ensures OnSphere(SpherePoint(m, r, lon, lat), r)
  {
    var cl, sn, sl, cn := m.cos(lat), m.sin(lon), m.sin(lat), m.cos(lon);
    assert sl * sl + cl * cl == 1.0;
    assert sn * sn + cn * cn == 1.0;
    SphericalOnSphere(r, cl, sl, sn, cn);
  }

  /** Every globe point lies on the sphere of radius `radius + offset`. */
  lemma GlobePointOnSphere(m: Env, props: GlobeShapeProps, p: Vec2)
    requires Pythagorean(m)
    ensures OnSphere(GlobePoint(m, props, p), props.radius + props.offset)
  {
    SpherePointOnSphere(m, props.radius + props.offset, Longitude(props, p), Latitude(props, p));
  }

  /** The centre (0, 0) of the parameter domain lands on the centre longitude and latitude. */
  lemma GlobeCenter(m: Env, props: GlobeShapeProps)
    ensures GlobePoint(m, props, Vec2(0.0, 0.0))
            == Scale3(RawCenter(m, props.centerLonDeg, props.centerLatDeg), props.radius + props.offset)
  {
    assert Longitude(props, Vec2(0.0, 0.0)) == DegToRad(props.centerLonDeg);
    assert Latitude(props, Vec2(0.0, 0.0)) == DegToRad(props.centerLatDeg);
    SpherePointIsScaledCenter(m, props.radius + props.offset, props.centerLonDeg, props.centerLatDeg);
  }

  // ---------------------------------------------------------------------------
  // The components
  // ---------------------------------------------------------------------------

  /** The polyline of `SuperellipseOnGlobe`: segments + 1 points on the sphere of radius
      `radius + offset`, the last one repeating the first. */
  method OutlineOnGlobe(m: Env, props: GlobeShapeProps) returns (pts: seq<Vec3>)
    requires ValidShape(props.shape)
    ensures |pts| == props.shape.segments + 1
    ensures forall i :: 0 <= i <= props.shape.segments ==>
              pts[i] == GlobePoint(m, props, ContourPoint(m, props, SampleParam(i, props.shape.segments)))
    ensures FullTurn(m) ==> pts[0] == pts[props.shape.segments]
    ensures Pythagorean(m) ==> forall i :: 0 <= i < |pts| ==> OnSphere(pts[i], props.radius + props.offset)
  {
    pts := Sample(props.shape.segments, t requires ValidShape(props.shape) => GlobePoint(m, props, ContourPoint(m, props, t)));
    if FullTurn(m) {
      var ang := DegToRad(props.angleDeg);
      TangentPointClosed(m, props.shape, m.cos(ang), m.sin(ang), 1.0, 1.0);
    }
    if Pythagorean(m) {
      forall i | 0 <= i < |pts|
        ensures OnSphere(pts[i], props.radius + props.offset)
      {
        GlobePointOnSphere(m, props, ContourPoint(m, props, SampleParam(i, props.shape.segments)));
      }
    }
  }

  /** `SuperellipseFillOnGlobe`: the contour is triangulated in parameter space (the
      triangles are an input) and every triangle corner is placed on the globe. Placement is
      a pure function of the point, so placing each contour point once and reading the placed
      contour by triangle index gives the same vertices as placing every corner. The result
      holds nine numbers per triangle; vertex j is the globe point of contour sample
      `Corner(tris[j / 3], j % 3)` and lies on the sphere of radius `radius + offset`. */
  method FillOnGlobe(m: Env, props: GlobeShapeProps, tris: seq<Tri>) returns (positions: seq<real>)
    requires ValidShape(props.shape)
    requires IndicesIn(tris, props.shape.segments + 1)
    ensures |positions| == 9 * |tris|
    ensures forall j :: 0 <= j < 3 * |tris| ==>
              Corner(tris[j / 3], j % 3) <= props.shape.segments
              && Unflatten3(positions)[j]
                 == GlobePoint(m, props, ContourPoint(m, props, SampleParam(Corner(tris[j / 3], j % 3), props.shape.segments)))
    ensures Pythagorean(m) ==>
              forall j :: 0 <= j < 3 * |tris| ==> OnSphere(Unflatten3(positions)[j], props.radius + props.offset)
  {
    var placed := OutlineOnGlobe(m, props);
    positions := TrianglePositions(placed, tris, (q: Vec3) => q);
    VertexCorners(placed, tris, (q: Vec3) => q);
  }
}
