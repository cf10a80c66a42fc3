# Globe geometry and GitHub profile statistics, in Dafny

A model of two pieces of pure logic from a portfolio site:

- The wireframe globe of `app/ui/globe.tsx`, modelled over exact reals, in two parts:
  - **The geometry builders.** The superellipse contour sampling is shared by every
    superellipse component. `computeTangentFrame` gives the decal's centre, east and north
    vectors. The exponential map carries a tangent-plane point onto the sphere; the decal
    fill, outline and glow all use it. The glow band builder pushes six vertices per
    segment, with positions and RGBA colours. The lon/lat outline and fill place points by
    longitude and latitude. The `MinimalGlobe` grid builds the latitude and longitude
    circles.
  - **The per-frame controller**, the `useFrame` callback of `MinimalGlobe`. It clamps the
    pointer and maps it to target angles. It unwraps each angle and smooths it toward the
    target. It advances the appear progress and eases the scale in, then aims the pupil
    inside the iris.
- `getGitHubProfileStats` of `app/lib/github.ts`, with the network replaced by the answers
  it would receive. Those answers are:
  - the login;
  - the repository pages in order;
  - the contributions reply;
  - one run-count response per repository.

  The model covers:
  - the maintained predicate;
  - the count over every page read;
  - the order-preserving organisation filter;
  - the batches of 16;
  - the sum of the fulfilled run counts, where a failed, not-ok or non-numeric result
    adds 0;
  - the error path: a thrown error returns `null` (`None` here).

`Math.sin`, `cos`, `pow`, `hypot`, `atan2` and `sqrt` are fields of `MathEnv.Env`. They are
values with no definition. Every lemma names the laws it assumes about them, for example:

- `Pythagorean`: sin² + cos² = 1.
- `Atan2Range`: atan2 lies in (−π, π].
- `Atan2Recovers`: atan2(sin d, cos d) = d for d in (−π, π].
- `SqrtExact` and `HypotExact`: the square root and hypot are exact.
- `CubeUnit`: the cube of a number in [0, 1] stays in [0, 1].
- `Periodic`: sin and cos repeat after every full turn of 2π.
- `Atan2AtZero`: atan2(sin 0, cos 0) = 0, the single case of `Atan2Recovers` that a globe at rest
  needs (`RecoversAtZero` derives it).

A lemma holds for every environment that satisfies the laws it names. The geometric claims,
such as "on the sphere" or "orthonormal", therefore describe the idealised computation, not
the floating-point one.

The modules follow the source:

- `MathEnv` holds the math environment plus `clamp`, `lerp` and `degToRad`.
- `Vectors` holds the part of `Vector2`/`Vector3` that the code uses.
- `Buffers` models the flat `positions`/`colors` arrays and the item-size-3/4 attributes
  that read them back.
- `Contour` covers the sampling loops.
- `TangentFrame` models `computeTangentFrame`.
- `ExpMap` models the projection inside the decal components.
- `Mesh` covers the non-indexed triangle loops of the fills.
- `Glow` covers the band builder.
- `LonLat` and `Decals` cover the components.
- `Grid` models the grid `useMemo`.
- `Controller` models the frame callback.
- `GitHubStats` models `getGitHubProfileStats`.

Where the comment and the code of `app/lib/github.ts` disagree, the model follows the code.
The comment at line 43 says "ADMIN or MAINTAIN permissions". The test at line 90 also accepts
`WRITE`, so `GitHubStats.IsMaintained` accepts all three permissions, and the count and the
organisation filter are stated over that predicate.

## Model

| member | source | states |
|---|---|---|
| MathEnv.DegToRad | app/ui/globe.tsx:696-697 | `degToRad` maps [0, 90) degrees into [0, π/2) and keeps the sign of the angle |
| MathEnv.Clamp | app/ui/globe.tsx:693-694 | `clamp(v, lo, hi)` lies in [lo, hi], returns v inside the range and the nearer bound outside it |
| Vectors.NormalizeUnit | app/ui/globe.tsx:309-310 | `normalize()` of a nonzero vector has unit length, given an exact square root |
| Vectors.NormalizeOfUnit | app/ui/globe.tsx:298-302 | `normalize()` leaves a unit vector unchanged |
| Vectors.Lerp2InDisc | app/ui/globe.tsx:730 | `Vector2.lerp` with alpha in [0, 1] between two points of a disc about the origin stays in the disc |
| Buffers.Unflatten3OfFlatten3 | app/ui/globe.tsx:548 | reading an item-size-3 attribute back from the pushed `x, y, z` triples gives the vertices pushed, in order |
| Buffers.Flatten3OfUnflatten3 | app/ui/globe.tsx:571 | every array whose length is a multiple of 3 is the flattening of the vertices read from it |
| Buffers.Unflatten4OfFlatten4 | app/ui/globe.tsx:549 | reading an item-size-4 attribute back from the pushed `r, g, b, a` quadruples gives the colours pushed |
| Buffers.Flatten3Append | app/ui/globe.tsx:238-250 | pushing two runs of vertices one after the other is pushing their concatenation |
| Contour.SampleParam | app/ui/globe.tsx:338-339 | `t = (i / segments) * 2π` lies in [0, 2π]; it is 0 exactly at i = 0 and 2π exactly at i = segments |
| Contour.SampleParamIncreasing | app/ui/globe.tsx:338-339 | the sample parameter strictly increases with i |
| Contour.Sample | app/ui/globe.tsx:338-349 | the sampling loop pushes segments + 1 points; point i is the point of parameter `(i / segments) * 2π`; the first is the point of 0 and the last the point of 2π |
| Contour.UnitShapePointOnCurve | app/ui/globe.tsx:340-343 | with sin² + cos² = 1 and the pow laws, `(sign(c)·abs(c)^(2/n), sign(s)·abs(s)^(2/n))` satisfies abs(x)^n + abs(y)^n = 1 |
| Contour.ShapePointOnCurve | app/ui/globe.tsx:340-343 | dividing a sample by its semi-axes a and b gives the unit superellipse's sample, so abs(x / a)^n + abs(y / b)^n = 1 |
| Contour.RotatePreservesLength | app/ui/globe.tsx:344-345 | the tilt rotation keeps the distance from the origin when cos² A + sin² A = 1 |
| Contour.RotateByZero | app/ui/globe.tsx:344-345 | a zero tilt leaves the contour point unchanged |
| Contour.ParamPointUnrotated | app/ui/globe.tsx:225-229 | with zero tilt the normalised point `(xr / a, yr / b)` lies on the unit superellipse |
| Contour.ShapePointClosed | app/ui/globe.tsx:338-343 | the samples at t = 0 and t = 2π coincide, so the contour closes |
| Contour.TangentPointClosed | app/ui/globe.tsx:338-349 | the normalised and the tangent-plane contours close as well |
| Contour.SuperellipsePoints | app/ui/globe.tsx:63-73 | the 2D outline has segments + 1 points, point i is the sample of parameter i, it closes, and every point lies on the curve |
| Contour.ParamContour | app/ui/globe.tsx:219-232 | `contour2D` has segments + 1 points, point i is the normalised sample i, and it closes |
| Contour.TangentContour | app/ui/globe.tsx:338-349 | `poly2D` has segments + 1 points, point i is the tangent-plane sample i, and it closes |
| Contour.GlowContours | app/ui/globe.tsx:517-528 | both rims have segments + 1 points; inner point i is tangent-plane sample i; outer point i is inner point i scaled by 1 + glowScale |
| TangentFrame.ComputeTangentFrame | app/ui/globe.tsx:290-312 | away from the poles east is horizontal (y = 0); in the fallback it lies in the plane z = 0 |
| TangentFrame.RawCenterUnit | app/ui/globe.tsx:297-301 | `(cos lat sin lon, sin lat, cos lat cos lon)` is a unit vector, given sin² + cos² = 1 |
| TangentFrame.CenterIsRaw | app/ui/globe.tsx:297-301 | normalising the centre direction changes nothing |
| TangentFrame.RawEastProperties | app/ui/globe.tsx:303-308 | the east vector before `normalize()` is nonzero and perpendicular to the centre, in both branches |
| TangentFrame.FrameOrthonormal | app/ui/globe.tsx:290-312 | centre, east and north are unit, pairwise perpendicular and right-handed, at the poles as well |
| TangentFrame.FallbackIffNearPole | app/ui/globe.tsx:305-307 | the fallback axis (0, 0, 1) is used exactly when cos²(lat) < 1e-8, whatever the longitude |
| ExpMap.GeodesicAngle | app/ui/globe.tsx:369-371 | θ = min(sLen / radius, π/2 − 1e-4), so θ < π/2, and θ ≥ 0 for a nonnegative length and positive radius |
| ExpMap.DirectionAtOrigin | app/ui/globe.tsx:362-368 | the origin of the tangent plane takes the fallback direction `north` |
| ExpMap.DirectionUnitTangent | app/ui/globe.tsx:362-368 | the direction is a unit vector perpendicular to the centre, in both branches |
| ExpMap.ProjectOnSphere | app/ui/globe.tsx:369-376 | every projected vertex lies on the sphere of radius `radius + offset` |
| ExpMap.ProjectAngle | app/ui/globe.tsx:369-376 | the vertex's components along the centre and along the direction are R cos θ and R sin θ |
| ExpMap.ProjectOrigin | app/ui/globe.tsx:362-376 | the tangent-plane origin maps to the centre direction scaled by `radius + offset` |
| ExpMap.ProjectFrontHemisphere | app/ui/globe.tsx:369-376 | because θ < π/2, every vertex lies strictly on the centre's side of the globe |
| LonLat.DefaultsValid | app/ui/globe.tsx:112-125 | the outline's and the fill's default props (lines 112-125 and 193-201) are valid superellipses, unrotated, with the fill's offset below the outline's and half its segments |
| LonLat.SpherePointOnSphere | app/ui/globe.tsx:153-156 | `(R cos lat sin lon, R sin lat, R cos lat cos lon)` lies on the sphere of radius R |
| LonLat.SpherePointIsScaledCenter | app/ui/globe.tsx:153-156 | the lon/lat placement is R times the centre direction `computeTangentFrame` builds from the same angles |
| LonLat.GlobePointOnSphere | app/ui/globe.tsx:149-156 | every lon/lat globe point lies on the sphere of radius `radius + offset` |
| LonLat.GlobeCenter | app/ui/globe.tsx:149-156 | the parameter-space origin lands at the centre longitude and latitude |
| LonLat.OutlineOnGlobe | app/ui/globe.tsx:129-158 | the outline has segments + 1 points; point i is the globe image of contour sample i; it closes, and every point lies on the sphere |
| LonLat.FillOnGlobe | app/ui/globe.tsx:208-251 | nine numbers per triangle; vertex j is the globe image of contour sample `tri[j / 3][j % 3]`, on the sphere |
| Decals.DefaultsValid | app/ui/globe.tsx:489-503 | the glow's default props (and those of the fill at 314-325 and the outline at 404-415) are valid superellipses; on a positive radius each meets the front-hemisphere hypothesis; the offsets layer fill < glow < outline; glowScale is positive and innerAlpha an opacity |
| Decals.DecalVertexOnSphere | app/ui/globe.tsx:356-377 | every decal vertex lies on the sphere of radius `radius + offset` |
| Decals.DecalVertexInFront | app/ui/globe.tsx:369-376 | every decal vertex lies on the centre's side of the globe |
| Decals.PlanePointClosed | app/ui/globe.tsx:338-349 | the tangent-plane contour closes |
| Decals.DecalOutline | app/ui/globe.tsx:421-455 | the outline has segments + 1 points; point i is the exponential map of tangent-plane sample i; it closes, lies on the sphere and stays in front of the horizon |
| Decals.DecalFill | app/ui/globe.tsx:329-382 | nine numbers per triangle; vertex j is the exponential map of contour sample `tri[j / 3][j % 3]`, on the sphere |
| Decals.GlowBand | app/ui/globe.tsx:517-566 | glow vertex j is rim sample `j / 6 + step`, on the inner rim with alpha innerAlpha or scaled onto the outer rim with alpha 0 |
| Decals.WrappedBand | app/ui/globe.tsx:535-550 | each band vertex is wrapped by the exponential map onto the sphere and tinted with the glow colour and its rim's alpha |
| Decals.DecalGlow | app/ui/globe.tsx:508-572 | 18 position and 24 colour numbers per segment; vertex j is the exponential map of its rim point, coloured with alpha innerAlpha on the inner rim and 0 on the outer, on the sphere |
| Glow.Strip | app/ui/globe.tsx:553-566 | the band of `count` segments has exactly 6 · count vertices |
| Glow.StripVertex | app/ui/globe.tsx:553-566 | vertex j is rim point `j / 6` or `j / 6 + 1`; it is on the inner rim with alpha innerAlpha for slots 0, 2, 3 and on the outer rim with alpha 0 for slots 1, 4, 5 |
| Glow.SharedDiagonal | app/ui/globe.tsx:560-565 | the two triangles of a segment share the diagonal p1–q0 |
| Glow.SegmentsMeet | app/ui/globe.tsx:553-566 | the trailing edge of segment s is the leading edge of segment s + 1, so the band has no gaps |
| Glow.BandCloses | app/ui/globe.tsx:517-566 | when both rims are closed loops, the last segment's trailing edge is the first segment's leading edge |
| Glow.AlphaByRim | app/ui/globe.tsx:558-565 | a vertex has alpha innerAlpha exactly when it is on the inner rim, and alpha 0 exactly when on the outer rim |
| Glow.PushPoint | app/ui/globe.tsx:535-550 | `pushPoint` appends one placed vertex (3 numbers) and one colour (4 numbers) to the arrays |
| Glow.PushSegment | app/ui/globe.tsx:554-565 | one loop iteration extends the arrays from the band of i segments to the band of i + 1 |
| Glow.BuildBand | app/ui/globe.tsx:531-566 | the arrays hold the placed, tinted band of all `inner.length - 1` segments: 18 and 24 numbers per segment |
| Grid.LatitudeBetweenPoles | app/ui/globe.tsx:645-646 | for 1 ≤ i ≤ latLines, φ lies strictly between −π/2 and π/2, so the poles are excluded |
| Grid.LatitudeIncreasing | app/ui/globe.tsx:645-646 | the parallels go from south to north: φ strictly increases with i |
| Grid.ParallelOnSphere | app/ui/globe.tsx:646-654 | every parallel point lies on the sphere of radius `radius + 0.001` |
| Grid.MeridianOnSphere | app/ui/globe.tsx:661-669 | every meridian point lies on that sphere |
| Grid.CirclesClose | app/ui/globe.tsx:650-669 | parallels and meridians both close: the sample at 2π is the sample at 0 |
| Grid.MeridianInPlane | app/ui/globe.tsx:665-669 | every meridian point lies in the vertical plane at longitude λ: x cos λ = z sin λ |
| Grid.Parallel | app/ui/globe.tsx:650-655 | a parallel has 257 points at one height, closed and on the sphere |
| Grid.Meridian | app/ui/globe.tsx:665-671 | a meridian has 257 points in its vertical plane, closed and on the sphere |
| Grid.BuildGrid | app/ui/globe.tsx:637-677 | latLines parallels at latitude i = 1..latLines and lonLines meridians at j / lonLines of a turn, each of 257 closed points on the sphere of radius `radius + 0.001` |
| Mesh.TriangleVertices | app/ui/globe.tsx:238-250 | the non-indexed vertex list has three vertices per triangle |
| Mesh.TriangleVerticesCorners | app/ui/globe.tsx:238-250 | corner v of triangle k is vertex 3k + v |
| Mesh.VerticesFromContour | app/ui/globe.tsx:238-250 | every mesh vertex is the image of a contour point; the triangulation adds no points |
| Mesh.VertexCorners | app/ui/globe.tsx:356-378 | vertex j is corner `j % 3` of triangle `j / 3`, placed |
| Mesh.TriangleVerticesAppend | app/ui/globe.tsx:238-250 | the vertex list of two runs of triangles is the concatenation of their lists |
| Mesh.PushCorners | app/ui/globe.tsx:240-249 | the inner `for v` loop appends the three placed corners of one triangle |
| Mesh.TrianglePositions | app/ui/globe.tsx:236-254 | the positions array is the flattened vertex list, nine numbers per triangle, and reads back as that list |
| Controller.ClampPointer | app/ui/globe.tsx:693-694 | the pointer lies in [−1.2, 1.2], is unchanged inside and saturates outside |
| Controller.TargetBounded | app/ui/globe.tsx:696-699 | the target angle never exceeds the configured maximum in either direction |
| Controller.TargetSaturates | app/ui/globe.tsx:696-699 | beyond the canvas edge the target is ±max; inside it is linear in the pointer |
| Controller.TargetOdd | app/ui/globe.tsx:698-699 | mirroring the pointer mirrors the target |
| Controller.UnwrapWithinHalfTurn | app/ui/globe.tsx:702-705 | the unwrapped target is within a half turn of the current angle: −π < target − current ≤ π |
| Controller.UnwrapExact | app/ui/globe.tsx:702-705 | a target already within a half turn is returned unchanged |
| Controller.UnwrapAcrossBoundary | app/ui/globe.tsx:702-705 | given periodic sin and cos, a target 1/2 to 3/2 turns below the current angle is unwrapped one full turn up, and one 1/2 to 3/2 turns above is unwrapped one full turn down, so the smoothing always takes the short way round |
| Controller.UnwrapCrossingExample | app/ui/globe.tsx:702-707 | from a current angle of 170° toward a target of −170°, the unwrapped target lies 20° ahead, not 340° behind |
| Controller.SmoothBetween | app/ui/globe.tsx:706-709 | with rate in [0, 1] the smoothed angle lies between the current angle and the unwrapped target |
| Controller.SmoothStaysInRange | app/ui/globe.tsx:696-709 | a smoothed angle whose current value and target are in range stays in range |
| Controller.AdvanceProperties | app/ui/globe.tsx:716-719 | the progress never decreases for dt ≥ 0, never passes 1, is frozen at 1, and reaches 1 once the step would pass it |
| Controller.ScaleInRange | app/ui/globe.tsx:719-721 | the eased scale `lerp(0.9, 1, 1 − (1 − p)³)` lies in [0.9, 1] for p in [0, 1] |
| Controller.ScaleAtEnd | app/ui/globe.tsx:719-721 | at full progress the scale is exactly 1 |
| Controller.AimInUnitDisc | app/ui/globe.tsx:725-727 | the aim lies in the closed unit disc; an aim already inside it is unchanged |
| Controller.PupilTargetInReach | app/ui/globe.tsx:725-729 | the pupil target is at most `max(0, iris − pupil − 0.001) · pupilOffsetScale` from the centre |
| Controller.PointerSaturation | app/ui/globe.tsx:693-699 | a frame behaves exactly as the same frame with the pointer clamped to [−1.2, 1.2] |
| Controller.AppearSettled | app/ui/globe.tsx:715-722 | once fully appeared, a frame changes neither the progress nor the scale |
| Controller.DefaultConfigSane | app/ui/globe.tsx:593-614 | the defaults (45°, 30°, rates 0.15 and 0.3) satisfy the range assumptions of the invariant |
| Controller.InitialValid | app/ui/globe.tsx:616-621 | the state at mount (zero angles, zero progress, unit scale, centred pupil) satisfies the invariant |
| Controller.StepKeepsValid | app/ui/globe.tsx:680-731 | for a configuration in `SaneConfig` (both maximum angles in [0°, 90°), both lerp rates in [0, 1]), one frame with dt ≥ 0 keeps angles in range, progress in [0, 1], scale in [0.9, 1] and the pupil in reach |
| Controller.RunKeepsValid | app/ui/globe.tsx:680-731 | for a configuration in `SaneConfig` (both maximum angles in [0°, 90°), both lerp rates in [0, 1]), every run of frames with nonnegative deltas keeps that invariant |
| Controller.CentreSmooth | app/ui/globe.tsx:698-709 | toward a target of 0 (the pointer at the exact centre), a yaw or pitch in [−π, π) becomes (1 − rotationLerp) times itself in one frame |
| Controller.CentreAtRest | app/ui/globe.tsx:693-713 | with the pointer at the exact centre, a globe at yaw = pitch = 0 stays at 0 after the frame, its rotation being the base roll alone; only atan2(sin 0, cos 0) = 0 is assumed |
| Controller.RunAngles | app/ui/globe.tsx:693-709 | over any run, yaw and pitch evolve on their own: each is the angle smoothed frame by frame toward the target of that frame's x or y pointer coordinate |
| Controller.AngleRunContracts | app/ui/globe.tsx:698-709 | with the pointer held at the centre for k frames, an angle in [−π, π) ends as `Decay(1 − rate, k, angle)`, the angle multiplied by 1 − rate once per frame, which `DecayIsPower` turns into (1 − rate)^k times the angle |
| Controller.DecayIsPower | app/ui/globe.tsx:708-709 | multiplying by c k times is multiplying by c^k |
| Controller.CentreRunAtRest | app/ui/globe.tsx:693-713 | over any run of frames whose pointer sits at the exact centre, a globe starting at yaw = pitch = 0 stays there, its rotation being the base roll alone |
| Controller.YawAtRest | app/ui/globe.tsx:693-709 | a yaw of 0 stays 0 over any run whose pointer x is 0 in every frame, whatever the pointer y does |
| Controller.PitchAtRest | app/ui/globe.tsx:693-709 | a pitch of 0 stays 0 over any run whose pointer y is 0 in every frame, whatever the pointer x does |
| Controller.RunAppearMonotone | app/ui/globe.tsx:715-719 | over a run of frames with nonnegative deltas the progress never decreases |
| Controller.RotationInRange | app/ui/globe.tsx:711-713 | in a valid state the Euler pitch and yaw stay within the maxima and the roll is the base roll |
| GitHubStats.CountAppend | app/lib/github.ts:49-102 | the count over the concatenated pages is the sum of the per-page counts |
| GitHubStats.CountIsCardinality | app/lib/github.ts:89-98 | the counter equals the number of positions holding a maintained node |
| GitHubStats.OrgTargetsAppend | app/lib/github.ts:94-96 | the organisation filter distributes over concatenated pages |
| GitHubStats.OrgTargetsWithinCount | app/lib/github.ts:92-97 | there are never more repositories to check than maintained repositories |
| GitHubStats.OrgIndicesSound | app/lib/github.ts:92-97 | entry k of the list is the node at a recorded position, and that node is a maintained organisation repository |
| GitHubStats.OrgIndicesIncreasing | app/lib/github.ts:89-97 | the recorded positions increase, so node order is kept |
| GitHubStats.OrgIndicesComplete | app/lib/github.ts:89-97 | every maintained organisation repository is among them |
| GitHubStats.OrgTargetsSubsequence | app/lib/github.ts:89-97 | `maintainedReposToCheck` is exactly the order-preserving subsequence of maintained organisation repositories |
| GitHubStats.PagesRead | app/lib/github.ts:49-102 | the loop either throws or ends after reading between 1 and all of the supplied pages |
| GitHubStats.PagesReadStops | app/lib/github.ts:49-102 | the loop ends normally after n pages exactly when none of them had errors, each but the last announced a next page, and the last did not |
| GitHubStats.NeverStops | app/lib/github.ts:82-85 | a page with `errors`, or a next page that never arrives, makes the loop throw |
| GitHubStats.VisitNodes | app/lib/github.ts:89-98 | the node loop adds the page's maintained count and appends its organisation targets |
| GitHubStats.ScanPages | app/lib/github.ts:49-102 | the pagination loop yields the count and targets of the pages read, or throws |
| GitHubStats.Slice | app/lib/github.ts:108 | `slice(i, j)` holds exactly min(j, length) − i elements when i < min(j, length) and none otherwise, element k being `xs[i + k]` |
| GitHubStats.BatchesPartition | app/lib/github.ts:106-108 | the batches concatenate back to the list in order; each holds 1 to 16 elements and all but the last exactly 16 |
| GitHubStats.BatchesCount | app/lib/github.ts:106-108 | there are ⌈n / 16⌉ batches |
| GitHubStats.BatchStep | app/lib/github.ts:107-108 | cutting one batch off the suffix at i leaves the suffix at i + 16 |
| GitHubStats.SliceBatches | app/lib/github.ts:106-108 | the loop `for (i = 0; i < length; i += 16) slice(i, i + 16)` produces exactly those batches |
| GitHubStats.Settle | app/lib/github.ts:109-121 | a request rejects exactly when it fails; an ok response with a numeric `total_count` n fulfils with n, and any other response (not ok, or no number) fulfils with 0 |
| GitHubStats.TotalRunsAppend | app/lib/github.ts:122-124 | the total over concatenated lists is the sum of their totals |
| GitHubStats.TotalRunsNonnegative | app/lib/github.ts:118-124 | with nonnegative run counts the total is nonnegative |
| GitHubStats.AllRejectedCountsZero | app/lib/github.ts:122-124 | when every request fails, nothing is counted |
| GitHubStats.SumBatch | app/lib/github.ts:109-124 | one batch adds the fulfilled values of its requests |
| GitHubStats.SumRuns | app/lib/github.ts:104-125 | summing batch by batch gives the unbatched total of fulfilled values |
| GitHubStats.GetProfileStats | app/lib/github.ts:1-146 | `null` exactly when the user request, a repositories page, or the contributions request fails or carries errors; otherwise the four fields are the login, the total contributions, the maintained count and the run total |
| GitHubStats.StatsBounds | app/lib/github.ts:92-124 | with nonnegative run counts the run total is nonnegative and the repositories checked never outnumber the maintained ones |

## Left out

- Floating point: `sin`, `cos`, `pow`, `hypot`, `atan2` and `sqrt` are opaque functions
  with named laws. Rounding is not modelled, and the `1e-8` thresholds are compared exactly.
- Division by zero: where the source would produce `NaN` or `Infinity`, the model requires
  the divisor to be nonzero. These divisors are `a`, `b`, `segments` and `radius`. The
  exponent `n` in `2 / n` is required to be positive. For a negative `n` the source also
  produces `NaN`, at `t = 0`, where `sign(0) · 0^(2 / n)` is `0 · Infinity`.
- `ShapeUtils.triangulateShape`: the triangles are an input. The fills are modelled as the
  non-indexed vertex loop over them.
- `BufferGeometry`, `computeVertexNormals` and materials are rendering. The buffers are the
  flat arrays the attributes read.
- `THREE.Color` parsing: the glow colour is the input `Rgb`.
- Euler-to-quaternion composition in `setRotationFromEuler`: the model stops at the Euler
  angles.
- The glow opacity oscillation, the `Floating` bob and sway, and the `Eye` component's mesh
  updates are visual effects.
- `SuperellipseOnGlobe`'s line rendering and the `Superellipse` shape or extrude geometry:
  only the points are modelled.
- Pointer plumbing: the `mousemove` listener, the `getBoundingClientRect` conversion to
  device coordinates and the `!groupRef.current` guard. The pointer and the value that
  `state.clock.getDelta()` returns arrive as the frame's inputs. That value is the time
  since the clock's previous `getDelta()` call, which the rendering library also makes, so
  it is not necessarily the frame time. The model only assumes it is nonnegative.
- Network I/O in `app/lib/github.ts`: `fetch`, the GraphQL query strings, the token and
  `endCursor` threading. The user, contributions and run-count answers are inputs.
- `Promise.allSettled` concurrency: a batch is settled as a sequence, and its order does
  not affect the sum.
- `GitHubStats.GetProfileStats`: `userData.login` being `undefined` is not distinguished
  from a failed user request. Both are the `None` login.
- Logging in `app/lib/github.ts`: `console.error` at lines 83, 130 and 143 and `console.log`
  at line 117 have no effect on the result.
- `Controller.StepKeepsValid` and `Controller.RunKeepsValid` hold only for configurations
  whose maximum yaw and pitch are below 90°. Above that, the source's unwrap can carry the
  angle past ±max. Example: maxYawDeg = 120, yaw = 2.0 and pointer x = −1 give a next yaw
  near 2.33, beyond the maximum of about 2.094. The one use of the component in
  `app/ui/canvas.tsx` passes 24° and 24° with rate 0.03, which is inside the hypothesis.
- Numeric props as integers: `segments`, `latLines` and `lonLines` are natural numbers, and
  `total_count` is an integer. The source accepts any JavaScript number here. A negative
  `segments` gives an empty contour, and a fractional one gives a contour that does not
  close. A fractional or `NaN` `total_count` passes `typeof === 'number'` and is added as
  it is. Every call site and default in the source uses integers.
- `total_count` is an unbounded integer, so a JavaScript number's precision limit is not
  modelled.
