/** The glow band of `SuperellipseDecalGlowOnGlobe` (app/ui/globe.tsx): between the inner
    rim (the decal contour) and the outer rim (the contour scaled by 1 + glowScale), segment
    i of the rims becomes the two triangles (p0, q0, p1) and (p1, q0, q1), where p are inner
    and q outer points. Every vertex is pushed by `pushPoint`: its position on the globe
    (three numbers) and its colour with alpha `innerAlpha` on the inner rim and 0 on the outer
    rim (four numbers). How a tangent-plane point is carried onto the globe is the parameter
    `place`; the decal component supplies the exponential map. */
module Glow {
  import opened Vectors
  import opened Buffers

  /** One call of `pushPoint`: the tangent-plane point and its alpha. */
  datatype BandVertex = BandVertex(p: Vec2, alpha: real)

  /** `col.r, col.g, col.b` of the parsed glow colour. */
  datatype Rgb = Rgb(r: real, g: real, b: real)

  /** The six `pushPoint` calls of segment i, in order. */
  function Quad(inner: seq<Vec2>, outer: seq<Vec2>, innerAlpha: real, i: nat): seq<BandVertex>
    requires i + 1 < |inner| && |outer| == |inner|
  {
    [ BandVertex(inner[i], innerAlpha), BandVertex(outer[i], 0.0), BandVertex(inner[i + 1], innerAlpha),
      BandVertex(inner[i + 1], innerAlpha), BandVertex(outer[i], 0.0), BandVertex(outer[i + 1], 0.0) ]
  }

  /** The vertices pushed by the first `count` segments. */
  function Strip(inner: seq<Vec2>, outer: seq<Vec2>, innerAlpha: real, count: nat): (r: seq<BandVertex>)
    requires count <= SegmentCount(inner) && |outer| == |inner|
    ensures |r| == 6 * count
  {
    if count == 0 then [] else Strip(inner, outer, innerAlpha, count - 1) + Quad(inner, outer, innerAlpha, count - 1)
  }

  /** The number of segments the loop `for (i = 0; i < inner.length - 1; i++)` visits. */
  function SegmentCount(inner: seq<Vec2>): (c: nat)
    ensures |inner| > 0 ==> c + 1 == |inner|
    ensures |inner| == 0 ==> c == 0
  {
    if |inner| == 0 then 0 else |inner| - 1
  }

  // ---------------------------------------------------------------------------
  // Where each vertex comes from
  // ---------------------------------------------------------------------------

  /** Slots 0, 2 and 3 of a segment (p0, p1, p1) are on the inner rim; 1, 4 and 5 (q0, q0,
      q1) on the outer rim. */
  predicate OnInnerRim(slot: int)
  {
    slot == 0 || slot == 2 || slot == 3
  }

  /** Slots 2, 3 and 5 (p1, p1, q1) take the rim point after the segment's first one. */
  function RimStep(slot: int): nat
  {
    if slot == 2 || slot == 3 || slot == 5 then 1 else 0
  }

  /** Vertex j of the band, in closed form: it is rim point `j / 6 + RimStep(j % 6)` of the
      inner rim with alpha `innerAlpha` when `j % 6` is 0, 2 or 3, and of the outer rim with
      alpha 0 otherwise. */
  lemma {:induction false} StripVertex(inner: seq<Vec2>, outer: seq<Vec2>, innerAlpha: real, count: nat, j: nat)
    requires count < |inner| && |outer| == |inner| && j < 6 * count
    ensures j / 6 + RimStep(j % 6) < |inner|
    ensures Strip(inner, outer, innerAlpha, count)[j]
            == if OnInnerRim(j % 6) then BandVertex(inner[j / 6 + RimStep(j % 6)], innerAlpha)
               else BandVertex(outer[j / 6 + RimStep(j % 6)], 0.0)
  {
    var prev := Strip(inner, outer, innerAlpha, count - 1);
    if j < 6 * (count - 1) {
      StripVertex(inner, outer, innerAlpha, count - 1, j);
      assert Strip(inner, outer, innerAlpha, count)[j] == prev[j];
    } else {
      var slot := j - 6 * (count - 1);
      assert j / 6 == count - 1 && j % 6 == slot;
      assert Strip(inner, outer, innerAlpha, count)[j] == Quad(inner, outer, innerAlpha, count - 1)[slot];
    }
  }

  /** The two triangles of a segment share the diagonal p1-q0: vertices 6s + 2 and 6s + 3 are
      the same, and so are 6s + 1 and 6s + 4. */
  lemma SharedDiagonal(inner: seq<Vec2>, outer: seq<Vec2>, innerAlpha: real, count: nat, s: nat)
    requires count < |inner| && |outer| == |inner| && s < count
    ensures Strip(inner, outer, innerAlpha, count)[6 * s + 2] == Strip(inner, outer, innerAlpha, count)[6 * s + 3]
    ensures Strip(inner, outer, innerAlpha, count)[6 * s + 1] == Strip(inner, outer, innerAlpha, count)[6 * s + 4]
  {
    StripVertex(inner, outer, innerAlpha, count, 6 * s + 1);
    StripVertex(inner, outer, innerAlpha, count, 6 * s + 2);
    StripVertex(inner, outer, innerAlpha, count, 6 * s + 3);
    StripVertex(inner, outer, innerAlpha, count, 6 * s + 4);
  }

  /** Consecutive segments meet: the trailing edge (p1, q1) of segment s is the leading edge
      (p0, q0) of segment s + 1, so the band has no gaps. */
  lemma SegmentsMeet(inner: seq<Vec2>, outer: seq<Vec2>, innerAlpha: real, count: nat, s: nat)
    requires count < |inner| && |outer| == |inner| && s + 1 < count
    ensures Strip(inner, outer, innerAlpha, count)[6 * s + 2] == Strip(inner, outer, innerAlpha, count)[6 * (s + 1)]
    ensures Strip(inner, outer, innerAlpha, count)[6 * s + 5] == Strip(inner, outer, innerAlpha, count)[6 * (s + 1) + 1]
  {
    StripVertex(inner, outer, innerAlpha, count, 6 * s + 2);
    StripVertex(inner, outer, innerAlpha, count, 6 * s + 5);
    StripVertex(inner, outer, innerAlpha, count, 6 * (s + 1));
    StripVertex(inner, outer, innerAlpha, count, 6 * (s + 1) + 1);
  }

  /** When both rims are closed loops (the first point repeats as the last), the trailing
      edge of the last segment is the leading edge of the first: the band closes up. */
  lemma BandCloses(inner: seq<Vec2>, outer: seq<Vec2>, innerAlpha: real)
    requires |outer| == |inner| >= 2
    requires inner[0] == inner[|inner| - 1] && outer[0] == outer[|outer| - 1]
    ensures var count := |inner| - 1;
            var r := Strip(inner, outer, innerAlpha, count);
            r[6 * (count - 1) + 2] == r[0] && r[6 * (count - 1) + 5] == r[1]
  {
    var count := |inner| - 1;
    StripVertex(inner, outer, innerAlpha, count, 6 * (count - 1) + 2);
    StripVertex(inner, outer, innerAlpha, count, 6 * (count - 1) + 5);
    StripVertex(inner, outer, innerAlpha, count, 0);
    StripVertex(inner, outer, innerAlpha, count, 1);
  }

  /** The alpha fades from the inner rim to the outer: every vertex has alpha `innerAlpha`
      or 0, and it has `innerAlpha` exactly when it is an inner-rim vertex. */
  lemma AlphaByRim(inner: seq<Vec2>, outer: seq<Vec2>, innerAlpha: real, count: nat, j: nat)
    requires count < |inner| && |outer| == |inner| && j < 6 * count
    requires innerAlpha != 0.0
    ensures Strip(inner, outer, innerAlpha, count)[j].alpha == innerAlpha <==> OnInnerRim(j % 6)
    ensures Strip(inner, outer, innerAlpha, count)[j].alpha == 0.0 <==> !OnInnerRim(j % 6)
  {
    StripVertex(inner, outer, innerAlpha, count, j);
  }

  // ---------------------------------------------------------------------------
  // The buffers
  // ---------------------------------------------------------------------------

  /** The placed positions of a run of band vertices. */
  function Placed(place: Vec2 -> Vec3, vs: seq<BandVertex>): (r: seq<Vec3>)
    ensures |r| == |vs|
    ensures forall k :: 0 <= k < |vs| ==> r[k] == place(vs[k].p)
  {
    seq(|vs|, k requires 0 <= k < |vs| => place(vs[k].p))
  }

  /** The colours of a run of band vertices: the glow colour with each vertex's alpha. */
  function Tinted(col: Rgb, vs: seq<BandVertex>): (r: seq<Rgba>)
    ensures |r| == |vs|
    ensures forall k :: 0 <= k < |vs| ==> r[k] == Rgba(col.r, col.g, col.b, vs[k].alpha)
  {
    seq(|vs|, k requires 0 <= k < |vs| => Rgba(col.r, col.g, col.b, vs[k].alpha))
  }

  /** `pushPoint(p, alpha)`: three position numbers and four colour numbers are appended. */
  method PushPoint(place: Vec2 -> Vec3, col: Rgb,
                   positions: seq<real>, colors: seq<real>, done: seq<BandVertex>, v: BandVertex)
    returns (positions': seq<real>, colors': seq<real>)
    requires positions == Flatten3(Placed(place, done))
    requires colors == Flatten4(Tinted(col, done))
    ensures positions' == Flatten3(Placed(place, done + [v]))
    ensures colors' == Flatten4(Tinted(col, done + [v]))
  {
    var q := place(v.p);
    var c := Rgba(col.r, col.g, col.b, v.alpha);
    assert Placed(place, done + [v]) == Placed(place, done) + [q];
    assert Tinted(col, done + [v]) == Tinted(col, done) + [c];
    Flatten3Push(Placed(place, done), q);
    Flatten4Push(Tinted(col, done), c);
    positions' := positions + [q.x, q.y, q.z];
    colors' := colors + [col.r, col.g, col.b, v.alpha];
  }

  /** One iteration of the band loop: the six `pushPoint` calls of segment i, in the order
      `Quad` lists them. */
  method PushSegment(place: Vec2 -> Vec3, col: Rgb, innerAlpha: real,
                     inner: seq<Vec2>, outer: seq<Vec2>, i: nat, positions: seq<real>, colors: seq<real>)
    returns (positions': seq<real>, colors': seq<real>)
    requires |outer| == |inner| && i + 1 < |inner|
    requires positions == Flatten3(Placed(place, Strip(inner, outer, innerAlpha, i)))
    requires colors == Flatten4(Tinted(col, Strip(inner, outer, innerAlpha, i)))
    ensures positions' == Flatten3(Placed(place, Strip(inner, outer, innerAlpha, i + 1)))
    ensures colors' == Flatten4(Tinted(col, Strip(inner, outer, innerAlpha, i + 1)))
  {
    var before := Strip(inner, outer, innerAlpha, i);
    var quad := Quad(inner, outer, innerAlpha, i);
    positions', colors' := positions, colors;
    var done := before;
    var slot := 0;
    while slot < 6
      invariant 0 <= slot <= 6 && done == before + quad[..slot]
      invariant positions' == Flatten3(Placed(place, done))
      invariant colors' == Flatten4(Tinted(col, done))
    {
      positions', colors' := PushPoint(place, col, positions', colors', done, quad[slot]);
      ExtendPrefix(before, quad, slot);
      done := done + [quad[slot]];
      slot := slot + 1;
    }
    ExtendPrefix(before, quad, 6);
  }

  /** Appending the next element of `quad` to a prefix of it extends the prefix by one. */
  lemma ExtendPrefix(before: seq<BandVertex>, quad: seq<BandVertex>, slot: nat)
    requires slot <= |quad|
    ensures slot < |quad| ==> before + quad[..slot + 1] == (before + quad[..slot]) + [quad[slot]]
    ensures slot == |quad| ==> before + quad[..slot] == before + quad
  {
    if slot < |quad| {
      assert quad[..slot + 1] == quad[..slot] + [quad[slot]];
    } else {
      assert quad[..slot] == quad;
    }
  }

  /** The band loop: the position and colour arrays hold, vertex by vertex, the strip of all
      `inner.length - 1` segments. */
  method BuildBand(place: Vec2 -> Vec3, col: Rgb, innerAlpha: real,
                   inner: seq<Vec2>, outer: seq<Vec2>)
    returns (positions: seq<real>, colors: seq<real>)
    requires |outer| == |inner|
    ensures positions == Flatten3(Placed(place, Strip(inner, outer, innerAlpha, SegmentCount(inner))))
    ensures colors == Flatten4(Tinted(col, Strip(inner, outer, innerAlpha, SegmentCount(inner))))
    ensures |positions| == 18 * SegmentCount(inner) && |colors| == 24 * SegmentCount(inner)
  {
    positions, colors := [], [];
    EmptyBand(place, col, inner, outer, innerAlpha);
    var i := 0;
    while i + 1 < |inner|
      invariant 0 <= i <= SegmentCount(inner)
      invariant positions == Flatten3(Placed(place, Strip(inner, outer, innerAlpha, i)))
      invariant colors == Flatten4(Tinted(col, Strip(inner, outer, innerAlpha, i)))
    {
      positions, colors := PushSegment(place, col, innerAlpha, inner, outer, i, positions, colors);
      i := i + 1;
    }
    assert i == SegmentCount(inner);
    BandLengths(place, col, inner, outer, innerAlpha, i);
  }

  /** Before the loop both arrays are empty, and so is the strip of zero segments. */
  lemma EmptyBand(place: Vec2 -> Vec3, col: Rgb, inner: seq<Vec2>, outer: seq<Vec2>, innerAlpha: real)
    requires |outer| == |inner|
    ensures Flatten3(Placed(place, Strip(inner, outer, innerAlpha, 0))) == []
    ensures Flatten4(Tinted(col, Strip(inner, outer, innerAlpha, 0))) == []
  {
  }

  /** A strip of `count` segments fills 18 position numbers and 24 colour numbers per segment. */
  lemma BandLengths(place: Vec2 -> Vec3, col: Rgb, inner: seq<Vec2>, outer: seq<Vec2>, innerAlpha: real, count: nat)
    requires |outer| == |inner| && count <= SegmentCount(inner)
    ensures |Flatten3(Placed(place, Strip(inner, outer, innerAlpha, count)))| == 18 * count
    ensures |Flatten4(Tinted(col, Strip(inner, outer, innerAlpha, count)))| == 24 * count
  {
  }
}
