/** The triangle loop shared by `SuperellipseFillOnGlobe` and `SuperellipseDecalFillOnGlobe`
    (app/ui/globe.tsx): for every triangle of the triangulated contour, and for each of its
    three corners in order, the contour point is placed in 3D and its coordinates are pushed
    onto `positions`. The two components differ only in how a 2D point is placed, which is
    a parameter here. */
module Mesh {
  import opened Vectors
  import opened Buffers

  /** One triangle of `ShapeUtils.triangulateShape`: three indices into the contour. */
  datatype Tri = Tri(i0: nat, i1: nat, i2: nat)

  /** `tri[v]` for v = 0, 1, 2. */
  function Corner(t: Tri, v: nat): nat
    requires v < 3
  {
    if v == 0 then t.i0 else if v == 1 then t.i1 else t.i2
  }

  /** Every corner of every triangle indexes the contour. */
  predicate IndicesIn(tris: seq<Tri>, count: nat)
  {
    forall k :: 0 <= k < |tris| ==> tris[k].i0 < count && tris[k].i1 < count && tris[k].i2 < count
  }

  /** The three placed corners of one triangle. */
  function CornerPoints<P>(poly: seq<P>, t: Tri, place: P -> Vec3): seq<Vec3>
    requires t.i0 < |poly| && t.i1 < |poly| && t.i2 < |poly|
  {
    [place(poly[t.i0]), place(poly[t.i1]), place(poly[t.i2])]
  }

  /** The non-indexed vertex list of the mesh: corner v of triangle k is vertex 3k + v. */
  function TriangleVertices<P>(poly: seq<P>, tris: seq<Tri>, place: P -> Vec3): (vs: seq<Vec3>)
    requires IndicesIn(tris, |poly|)
    ensures |vs| == 3 * |tris|
  {
    if tris == [] then []
    else
      IndicesInTail(tris, |poly|);
      CornerPoints(poly, tris[0], place) + TriangleVertices(poly, tris[1..], place)
  }

  /** Corner v of triangle k is vertex 3k + v. */
  lemma {:induction false} TriangleVerticesCorners<P>(poly: seq<P>, tris: seq<Tri>, place: P -> Vec3)
    requires IndicesIn(tris, |poly|)
    ensures forall k :: 0 <= k < |tris| ==>
              TriangleVertices(poly, tris, place)[3 * k] == place(poly[tris[k].i0])
              && TriangleVertices(poly, tris, place)[3 * k + 1] == place(poly[tris[k].i1])
              && TriangleVertices(poly, tris, place)[3 * k + 2] == place(poly[tris[k].i2])
  {
    if tris != [] {
      IndicesInTail(tris, |poly|);
      var rest := TriangleVertices(poly, tris[1..], place);
      TriangleVerticesCorners(poly, tris[1..], place);
      var vs := TriangleVertices(poly, tris, place);
      assert vs == CornerPoints(poly, tris[0], place) + rest;
      forall k | 1 <= k < |tris|
        ensures vs[3 * k] == place(poly[tris[k].i0])
        ensures vs[3 * k + 1] == place(poly[tris[k].i1])
        ensures vs[3 * k + 2] == place(poly[tris[k].i2])
      {
        assert tris[k] == tris[1..][k - 1];
        assert 3 * k == 3 * (k - 1) + 3;
      }
    }
  }

  lemma IndicesInAppend(a: seq<Tri>, b: seq<Tri>, count: nat)
    requires IndicesIn(a, count) && IndicesIn(b, count)
    ensures IndicesIn(a + b, count)
  {
    forall k | 0 <= k < |a + b|
      ensures (a + b)[k].i0 < count && (a + b)[k].i1 < count && (a + b)[k].i2 < count
    {
      if k < |a| {
        assert (a + b)[k] == a[k];
      } else {
        assert (a + b)[k] == b[k - |a|];
      }
    }
  }

  lemma IndicesInTail(a: seq<Tri>, count: nat)
    requires IndicesIn(a, count) && a != []
    ensures IndicesIn(a[1..], count)
  {
    forall k | 0 <= k < |a[1..]|
      ensures a[1..][k].i0 < count && a[1..][k].i1 < count && a[1..][k].i2 < count
    {
      assert a[1..][k] == a[k + 1];
    }
  }

  lemma {:induction false} TriangleVerticesAppend<P>(poly: seq<P>, a: seq<Tri>, b: seq<Tri>, place: P -> Vec3)
    requires IndicesIn(a, |poly|) && IndicesIn(b, |poly|)
    ensures IndicesIn(a + b, |poly|)
    ensures TriangleVertices(poly, a + b, place)
            == TriangleVertices(poly, a, place) + TriangleVertices(poly, b, place)
  {
    IndicesInAppend(a, b, |poly|);
    if a == [] {
      assert a + b == b;
    } else {
      IndicesInTail(a, |poly|);
      assert (a + b)[0] == a[0];
      assert (a + b)[1..] == a[1..] + b;
      TriangleVerticesAppend(poly, a[1..], b, place);
    }
  }

  /** Every vertex of the mesh is the placed image of some contour point: the triangulation
      adds no points of its own. */
  lemma {:induction false} VerticesFromContour<P>(poly: seq<P>, tris: seq<Tri>, place: P -> Vec3)
    requires IndicesIn(tris, |poly|)
    ensures forall j :: 0 <= j < 3 * |tris| ==>
              exists i :: 0 <= i < |poly| && TriangleVertices(poly, tris, place)[j] == place(poly[i])
  {
    var vs := TriangleVertices(poly, tris, place);
    TriangleVerticesCorners(poly, tris, place);
    forall j | 0 <= j < 3 * |tris|
      ensures exists i :: 0 <= i < |poly| && vs[j] == place(poly[i])
    {
      var k := j / 3;
      var v := j - 3 * k;
      assert 0 <= v < 3 && j == 3 * k + v;
      var i := Corner(tris[k], v);
      assert vs[j] == place(poly[i]);
    }
  }

  /** Vertex j of the mesh is corner `j % 3` of triangle `j / 3`, placed. */
  lemma {:induction false} VertexCorners<P>(poly: seq<P>, tris: seq<Tri>, place: P -> Vec3)
    requires IndicesIn(tris, |poly|)
    ensures forall j :: 0 <= j < 3 * |tris| ==>
              Corner(tris[j / 3], j % 3) < |poly|
              && TriangleVertices(poly, tris, place)[j] == place(poly[Corner(tris[j / 3], j % 3)])
  {
    var vs := TriangleVertices(poly, tris, place);
    TriangleVerticesCorners(poly, tris, place);
    forall j | 0 <= j < 3 * |tris|
      ensures Corner(tris[j / 3], j % 3) < |poly| && vs[j] == place(poly[Corner(tris[j / 3], j % 3)])
    {
      var k := j / 3;
      assert j == 3 * k + j % 3;
    }
  }

  /** Pushing vertex v extends the flattening of the first v vertices to the first v + 1. */
  lemma PushPrefix(positions: seq<real>, vs: seq<Vec3>, v: nat, out: seq<real>)
    requires v < |vs| && out == positions + Flatten3(vs[..v])
    ensures out + [vs[v].x, vs[v].y, vs[v].z] == positions + Flatten3(vs[..v + 1])
  {
    assert vs[..v + 1] == vs[..v] + [vs[v]];
    Flatten3Push(vs[..v], vs[v]);
  }

  /** The inner loop `for v in 0..3`: the three corners of one triangle are pushed. */
  method PushCorners<P>(poly: seq<P>, tri: Tri, place: P -> Vec3, positions: seq<real>, before: seq<Vec3>)
    returns (out: seq<real>)
    requires tri.i0 < |poly| && tri.i1 < |poly| && tri.i2 < |poly|
    requires positions == Flatten3(before)
    ensures out == Flatten3(before + CornerPoints(poly, tri, place))
  {
    ghost var corners := CornerPoints(poly, tri, place);
    out := positions;
    var v := 0;
    while v < 3
      invariant 0 <= v <= 3
      invariant out == positions + Flatten3(corners[..v])
    {
      var p := place(poly[Corner(tri, v)]);
      assert p == corners[v];
      PushPrefix(positions, corners, v, out);
      out := out + [p.x, p.y, p.z];
      v := v + 1;
    }
    assert corners[..3] == corners;
    Flatten3Append(before, corners);
  }

  /** The vertices of the first k + 1 triangles are those of the first k followed by the
      corners of triangle k. */
  lemma TriangleVerticesPrefix<P>(poly: seq<P>, tris: seq<Tri>, place: P -> Vec3, k: nat)
    requires IndicesIn(tris, |poly|) && k < |tris|
    ensures IndicesIn(tris[..k], |poly|) && IndicesIn(tris[..k + 1], |poly|)
    ensures TriangleVertices(poly, tris[..k + 1], place)
            == TriangleVertices(poly, tris[..k], place) + CornerPoints(poly, tris[k], place)
  {
    IndicesInPrefix(tris, |poly|, k);
    assert tris[..k + 1] == tris[..k] + [tris[k]];
    TriangleVerticesSnoc(poly, tris[..k], tris[k], place);
  }

  /** Appending one triangle appends its three corners. */
  lemma TriangleVerticesSnoc<P>(poly: seq<P>, a: seq<Tri>, t: Tri, place: P -> Vec3)
    requires IndicesIn(a, |poly|) && t.i0 < |poly| && t.i1 < |poly| && t.i2 < |poly|
    ensures IndicesIn(a + [t], |poly|)
    ensures TriangleVertices(poly, a + [t], place)
            == TriangleVertices(poly, a, place) + CornerPoints(poly, t, place)
  {
    TriangleVerticesSingle(poly, t, place);
    TriangleVerticesAppend(poly, a, [t], place);
  }

  /** One triangle contributes its three corners. */
  lemma TriangleVerticesSingle<P>(poly: seq<P>, t: Tri, place: P -> Vec3)
    requires t.i0 < |poly| && t.i1 < |poly| && t.i2 < |poly|
    ensures IndicesIn([t], |poly|)
    ensures TriangleVertices(poly, [t], place) == CornerPoints(poly, t, place)
  {
    assert [t][1..] == [];
  }

  lemma IndicesInPrefix(tris: seq<Tri>, count: nat, k: nat)
    requires IndicesIn(tris, count) && k <= |tris|
    ensures IndicesIn(tris[..k], count)
  {
    assert forall i :: 0 <= i < k ==> tris[..k][i] == tris[i];
  }

  /** The loop `for k ... for v in 0..3: positions.push(vx, vy, vz)`: the flattened vertex
      list, nine numbers per triangle. */
  method TrianglePositions<P>(poly: seq<P>, tris: seq<Tri>, place: P -> Vec3)
    returns (positions: seq<real>)
    requires IndicesIn(tris, |poly|)
    ensures |positions| == 9 * |tris|
    ensures positions == Flatten3(TriangleVertices(poly, tris, place))
    ensures Unflatten3(positions) == TriangleVertices(poly, tris, place)
  {
    positions := [];
    var k := 0;
    IndicesInPrefix(tris, |poly|, 0);
    while k < |tris|
      invariant 0 <= k <= |tris|
      invariant IndicesIn(tris[..k], |poly|)
      invariant positions == Flatten3(TriangleVertices(poly, tris[..k], place))
    {
      TriangleVerticesPrefix(poly, tris, place, k);
      positions := PushCorners(poly, tris[k], place, positions, TriangleVertices(poly, tris[..k], place));
      k := k + 1;
    }
    assert tris[..k] == tris;
    Unflatten3OfFlatten3(TriangleVertices(poly, tris, place));
  }
}
