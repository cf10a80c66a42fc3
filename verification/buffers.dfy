/** Flat number arrays as the globe's geometry builders fill them: `positions.push(x, y, z)`
    once per vertex and `colors.push(r, g, b, alpha)` once per vertex, later wrapped as
    `Float32BufferAttribute(positions, 3)` and `Float32BufferAttribute(colors, 4)`.

    `Flatten3` / `Flatten4` are the pushing side; `Unflatten3` / `Unflatten4` are how a
    buffer attribute of item size 3 or 4 reads vertex k back from components
    `[k * size, k * size + size)`. The round-trip lemmas say the two agree. */
module Buffers {
  import opened Vectors

  /** One RGBA vertex colour. */
  datatype Rgba = Rgba(r: real, g: real, b: real, a: real)

  // ---------------------------------------------------------------------------
  // Item size 3
  // ---------------------------------------------------------------------------

  /** The array after pushing `x, y, z` of every vertex in order. */
  function Flatten3(vs: seq<Vec3>): (r: seq<real>)
    ensures |r| == 3 * |vs| && |r| % 3 == 0
    ensures forall k :: 0 <= k < |vs| ==>
              r[3 * k] == vs[k].x && r[3 * k + 1] == vs[k].y && r[3 * k + 2] == vs[k].z
  {
    if vs == [] then []
    else
      var rest := Flatten3(vs[1..]);
      var r := [vs[0].x, vs[0].y, vs[0].z] + rest;
      assert forall k :: 1 <= k < |vs| ==> vs[k] == vs[1..][k - 1];
      r
  }

  /** Vertex k of an item-size-3 attribute is components 3k, 3k + 1, 3k + 2. */
  function Unflatten3(xs: seq<real>): (r: seq<Vec3>)
    requires |xs| % 3 == 0
    ensures 3 * |r| == |xs|
    ensures forall k :: 0 <= k < |r| ==> r[k] == Vec3(xs[3 * k], xs[3 * k + 1], xs[3 * k + 2])
  {
    if |xs| == 0 then []
    else
      var rest := Unflatten3(xs[3..]);
      var r := [Vec3(xs[0], xs[1], xs[2])] + rest;
      assert forall k :: 1 <= k < |r| ==> r[k] == rest[k - 1];
      r
  }

  /** Reading back what was pushed gives the vertices. */
  lemma {:induction false} Unflatten3OfFlatten3(vs: seq<Vec3>)
    ensures Unflatten3(Flatten3(vs)) == vs
  {
    var r := Unflatten3(Flatten3(vs));
    assert |r| == |vs|;
    forall k | 0 <= k < |vs|
      ensures r[k] == vs[k]
    {
    }
  }

  /** Every array whose length is a multiple of 3 is the flattening of its vertices. */
  lemma {:induction false} Flatten3OfUnflatten3(xs: seq<real>)
    requires |xs| % 3 == 0
    ensures Flatten3(Unflatten3(xs)) == xs
  {
    var vs := Unflatten3(xs);
    var r := Flatten3(vs);
    assert |r| == |xs|;
    forall j | 0 <= j < |xs|
      ensures r[j] == xs[j]
    {
      var k := j / 3;
      assert 0 <= k < |vs|;
      assert vs[k] == Vec3(xs[3 * k], xs[3 * k + 1], xs[3 * k + 2]);
      if j == 3 * k {
        assert r[j] == vs[k].x;
      } else if j == 3 * k + 1 {
        assert r[j] == vs[k].y;
      } else {
        assert j == 3 * k + 2;
        assert r[j] == vs[k].z;
      }
    }
  }

  /** Pushing two runs of vertices one after the other. */
  lemma Flatten3Append(a: seq<Vec3>, b: seq<Vec3>)
    ensures Flatten3(a + b) == Flatten3(a) + Flatten3(b)
  {
    var l := Flatten3(a + b);
    var r := Flatten3(a) + Flatten3(b);
    assert |l| == |r|;
    forall j | 0 <= j < |l|
      ensures l[j] == r[j]
    {
      var k := j / 3;
      assert j == 3 * k || j == 3 * k + 1 || j == 3 * k + 2;
      if k < |a| {
        assert (a + b)[k] == a[k];
      } else {
        assert (a + b)[k] == b[k - |a|];
        assert j - 3 * |a| == 3 * (k - |a|) + (j - 3 * k);
      }
    }
  }

  /** `positions.push(p.x, p.y, p.z)` appends one vertex. */
  lemma Flatten3Push(vs: seq<Vec3>, p: Vec3)
    ensures Flatten3(vs + [p]) == Flatten3(vs) + [p.x, p.y, p.z]
  {
    Flatten3Append(vs, [p]);
  }

  // ---------------------------------------------------------------------------
  // Item size 4
  // ---------------------------------------------------------------------------

  /** The array after pushing `r, g, b, a` of every vertex in order. */
  function Flatten4(cs: seq<Rgba>): (r: seq<real>)
    ensures |r| == 4 * |cs| && |r| % 4 == 0
    ensures forall k :: 0 <= k < |cs| ==>
              r[4 * k] == cs[k].r && r[4 * k + 1] == cs[k].g && r[4 * k + 2] == cs[k].b
              && r[4 * k + 3] == cs[k].a
  {
    if cs == [] then []
    else
      var rest := Flatten4(cs[1..]);
      var r := [cs[0].r, cs[0].g, cs[0].b, cs[0].a] + rest;
      assert forall k :: 1 <= k < |cs| ==> cs[k] == cs[1..][k - 1];
      r
  }

  /** Vertex k of an item-size-4 attribute is components 4k .. 4k + 3. */
  function Unflatten4(xs: seq<real>): (r: seq<Rgba>)
    requires |xs| % 4 == 0
    ensures 4 * |r| == |xs|
    ensures forall k :: 0 <= k < |r| ==>
              r[k] == Rgba(xs[4 * k], xs[4 * k + 1], xs[4 * k + 2], xs[4 * k + 3])
  {
    if |xs| == 0 then []
    else
      var rest := Unflatten4(xs[4..]);
      var r := [Rgba(xs[0], xs[1], xs[2], xs[3])] + rest;
      assert forall k :: 1 <= k < |r| ==> r[k] == rest[k - 1];
      r
  }

  lemma {:induction false} Unflatten4OfFlatten4(cs: seq<Rgba>)
    ensures Unflatten4(Flatten4(cs)) == cs
  {
    var r := Unflatten4(Flatten4(cs));
    assert |r| == |cs|;
    forall k | 0 <= k < |cs|
      ensures r[k] == cs[k]
    {
    }
  }

  /** `colors.push(c.r, c.g, c.b, c.a)` appends one vertex colour. */
  lemma Flatten4Push(cs: seq<Rgba>, c: Rgba)
    ensures Flatten4(cs + [c]) == Flatten4(cs) + [c.r, c.g, c.b, c.a]
  {
    Flatten4Append(cs, [c]);
  }

  lemma Flatten4Append(a: seq<Rgba>, b: seq<Rgba>)
    ensures Flatten4(a + b) == Flatten4(a) + Flatten4(b)
  {
    var l := Flatten4(a + b);
    var r := Flatten4(a) + Flatten4(b);
    assert |l| == |r|;
    forall j | 0 <= j < |l|
      ensures l[j] == r[j]
    {
      var k := j / 4;
      assert j == 4 * k || j == 4 * k + 1 || j == 4 * k + 2 || j == 4 * k + 3;
      if k < |a| {
        assert (a + b)[k] == a[k];
      } else {
        assert (a + b)[k] == b[k - |a|];
        assert j - 4 * |a| == 4 * (k - |a|) + (j - 4 * k);
      }
    }
  }
}
