/** What the one-normal blocks (4, 5 and 6) produce. A one-normal triangle
    stores its normal once. A one-normal fan or strip either stores a normal
    per point, and then decodes exactly as blocks 2 and 3 do, or carries the
    NormalSingle flag, and then every corner gets the primitive's first
    normal and only vertex indexes follow. */
module TessOneNormal {
  import opened Bits
  import opened Wrappers
  import opened TessMesh
  import opened TessDecode
  import opened TessBlocks

  // ---------------------------------------------------------------------
  // Block 4: one normal per triangle
  // ---------------------------------------------------------------------

  /** One vertex read at `i` with the normal `n`. */
  lemma VertexStep(tri: seq<u32>, n: u32, j: nat, j1: nat, i: nat, i1: nat, sz: nat, m: Mesh)
    requires j == j1 + 1 && i1 == i + 1 && i < |tri|
    ensures VertexRun(tri, n, j, St(i, sz, m)) == VertexRun(tri, n, j1, St(i1, sz, Push(m, Corner(n, [], tri[i]))))
  {
  }

  /** The triangle of the one-normal layout at `i`. */
  function NormalTriangleAt(tri: seq<u32>, i: nat): Triangle
    requires i + 4 <= |tri|
  {
    var n := tri[i];
    Triangle(Corner(n, [], tri[i + 1]), Corner(n, [], tri[i + 2]), Corner(n, [], tri[i + 3]))
  }

  /** Block 4 reads a normal and three vertices, then the rest of the list. */
  lemma OneNormalTriangleStep(tri: seq<u32>, count: nat, c: nat, i: nat, j: nat, sz: nat, m: Mesh)
    requires count == c + 1 && j == i + 4 && j <= |tri|
    ensures OneNormalTriangleList(tri, count, St(i, sz, m))
         == OneNormalTriangleList(tri, c, St(j, sz, Emit(m, NormalTriangleAt(tri, i))))
  {
    var n := tri[i];
    var i1: nat := i + 1;
    var i2: nat := i + 2;
    var i3: nat := i + 3;
    var m1 := Push(m, Corner(n, [], tri[i1]));
    var m2 := Push(m1, Corner(n, [], tri[i2]));
    VertexStep(tri, n, 3, 2, i1, i2, sz, m);
    VertexStep(tri, n, 2, 1, i2, i3, sz, m1);
    VertexStep(tri, n, 1, 0, i3, j, sz, m2);
  }

  /** Block 4: `count` one-normal triangles emit the reference triangles,
      each corner carrying its triangle's normal, and move the cursor by 4
      per triangle. */
  lemma {:induction false} OneNormalTriangleListEmits(tri: seq<u32>, count: nat, i: nat, sz: nat, m: Mesh)
    requires i + Span(count, 4) <= |tri|
    ensures Yields(OneNormalTriangleList(tri, count, St(i, sz, m)),
                   i + Span(count, 4), sz, EmitAll(m, NormalTriangles(tri, i, count)))
    decreases count
  {
    if count == 0 {
      assert EmitAll(m, []) == m;
    } else {
      var c: nat := count - 1;
      var j: nat := i + 4;
      SpanStep(count, c, 4);
      var t := NormalTriangleAt(tri, i);
      var m1 := Emit(m, t);
      OneNormalTriangleStep(tri, count, c, i, j, sz, m);
      OneNormalTriangleListEmits(tri, c, j, sz, m1);
      assert NormalTriangles(tri, i, count) == [t] + NormalTriangles(tri, j, c);
      EmitThenAll(m, t, NormalTriangles(tri, j, c));
    }
  }

  // ---------------------------------------------------------------------
  // Blocks 5 and 6 with a normal per point
  // ---------------------------------------------------------------------

  /** With per-point normals the one-normal fan loop is the block 2 loop. */
  lemma {:induction false} OneNormalFanRingPerVertex(tri: seq<u32>, root: Corner, vert: int, last: int, s: St)
    ensures OneNormalFanRing(tri, true, root, vert, last, s) == FanRing(tri, root, vert, last, s)
    decreases last - vert
  {
    if vert < last && 0 <= s.ti && s.ti + 4 <= |tri| {
      var t := Triangle(root, Corner(tri[s.ti], [], tri[s.ti + 1]), Corner(tri[s.ti + 2], [], tri[s.ti + 3]));
      OneNormalFanRingPerVertex(tri, root, vert + 1, last, s.(ti := s.ti + 2, mesh := Emit(s.mesh, t)));
    }
  }

  /** Block 5 without the NormalSingle flag decodes a fan exactly as block 2. */
  lemma OneNormalFanPerVertex(tri: seq<u32>, numPts: u32, s: St)
    ensures OneNormalFanPrimitive(tri, true, numPts, s) == FanPrimitive(tri, numPts, s)
  {
    var rootN := ReadIndex(tri, s.ti);
    var rootV := ReadIndex(tri, s.ti + 1);
    if rootN.Ok? && rootV.Ok? {
      var root := Corner(rootN.value, [], rootV.value);
      var last := RingEnd(numPts);
      var s2 := s.(ti := s.ti + 2);
      OneNormalFanRingPerVertex(tri, root, 1, last, s2);
      var r := FanRing(tri, root, 1, last, s2);
      if r.Ok? {
        assert FanPrimitive(tri, numPts, s) == Ok(r.value.(ti := r.value.ti + 2));
      } else {
        assert FanPrimitive(tri, numPts, s) == Err(r.error);
      }
    }
  }

  /** With per-point normals the one-normal strip loop is the block 3 loop. */
  lemma {:induction false} OneNormalStripeRunPerVertex(tri: seq<u32>, series: u32, vert: int, last: int, s: St)
    ensures OneNormalStripeRun(tri, true, series, vert, last, s) == StripeRun(tri, vert, last, s)
    decreases last - vert
  {
    if vert < last && 2 <= s.ti && s.ti + 4 <= |tri| {
      var t := StripTriangle(vert, Corner(tri[s.ti - 2], [], tri[s.ti - 1]), Corner(tri[s.ti], [], tri[s.ti + 1]),
                             Corner(tri[s.ti + 2], [], tri[s.ti + 3]));
      OneNormalStripeRunPerVertex(tri, series, vert + 1, last, s.(ti := s.ti + 2, mesh := Emit(s.mesh, t)));
    }
  }

  /** Block 6 without the NormalSingle flag decodes a strip exactly as block 3
      (it also looks at the first normal, which must lie in the buffer). */
  lemma OneNormalStripePerVertex(tri: seq<u32>, numPts: u32, s: St)
    requires s.ti < |tri|
    ensures OneNormalStripePrimitive(tri, true, numPts, s) == StripePrimitive(tri, numPts, s)
  {
    OneNormalStripeRunPerVertex(tri, tri[s.ti], 1, RingEnd(numPts), s.(ti := s.ti + 2));
  }

  // ---------------------------------------------------------------------
  // Block 5 with the NormalSingle flag
  // ---------------------------------------------------------------------

  lemma SharedCornerUntextured(tri: seq<u32>, normal: u32, i: nat)
    requires i < |tri|
    ensures Corner(normal, tri[i .. i + 0], tri[i + 0]) == Corner(normal, [], tri[i])
  {
    assert tri[i .. i + 0] == [];
  }

  /** One pass of the shared-normal fan loop at cursor `i`. */
  lemma SharedFanRingStep(tri: seq<u32>, root: Corner, vert: int, v1: int, last: int, i: nat, i1: nat, sz: nat, msh: Mesh)
    requires vert < last && v1 == vert + 1 && i1 == i + 1 && i1 < |tri|
    ensures OneNormalFanRing(tri, false, root, vert, last, St(i, sz, msh))
         == OneNormalFanRing(tri, false, root, v1, last,
              St(i1, sz, Emit(msh, Triangle(root, Corner(root.normal, [], tri[i]), Corner(root.normal, [], tri[i1])))))
  {
  }

  /** The shared-normal fan over `n` points: its first triangle, then the
      fan over the `n1` points after the first. */
  lemma SharedFanEmitStep(tri: seq<u32>, root: Corner, i: nat, i1: nat, n: nat, n1: nat, msh: Mesh)
    requires n == n1 + 1 && n1 >= 1 && i1 == i + 1 && i + Span(n, 1) <= |tri|
    ensures i1 + Span(n1, 1) == i + Span(n, 1) && i1 < |tri|
    ensures EmitAll(Emit(msh, Triangle(root, Corner(root.normal, [], tri[i]), Corner(root.normal, [], tri[i1]))),
                    FanOf(root, SharedPoints(tri, i1, root.normal, 0, n1)))
         == EmitAll(msh, FanOf(root, SharedPoints(tri, i, root.normal, 0, n)))
  {
    var i2: nat := i1 + 1;
    var n2: nat := n1 - 1;
    SharedPointsStep(tri, root.normal, 0, i, i1, n, n1);
    SharedPointsStep(tri, root.normal, 0, i1, i2, n1, n2);
    SharedCornerUntextured(tri, root.normal, i);
    SharedCornerUntextured(tri, root.normal, i1);
    var q := SharedPoints(tri, i, root.normal, 0, n);
    assert q[1..] == SharedPoints(tri, i1, root.normal, 0, n1);
    EmitThenAll(msh, Triangle(root, q[0], q[1]), FanOf(root, q[1..]));
  }

  /** `m` passes of the shared-normal fan loop from cursor `i` emit the fan
      around the root over the `n = m + 1` vertex-only points from `i` on,
      every one carrying the root's normal. */
  lemma {:induction false} SharedFanRingEmitsFan(tri: seq<u32>, root: Corner, vert: int, last: int, m: nat, n: nat, i: nat, sz: nat, msh: Mesh)
    requires vert + m == last && n == m + 1 && i + Span(n, 1) <= |tri|
    ensures Yields(OneNormalFanRing(tri, false, root, vert, last, St(i, sz, msh)),
                   i + Span(m, 1), sz, EmitAll(msh, FanOf(root, SharedPoints(tri, i, root.normal, 0, n))))
    decreases m
  {
    if m == 0 {
      var none := FanOf(root, SharedPoints(tri, i, root.normal, 0, n));
      assert none == [];
      assert EmitAll(msh, none) == msh;
    } else {
      var v1 := vert + 1;
      var i1: nat := i + 1;
      var m1: nat := m - 1;
      SharedFanEmitStep(tri, root, i, i1, n, m, msh);
      var msh1 := Emit(msh, Triangle(root, Corner(root.normal, [], tri[i]), Corner(root.normal, [], tri[i1])));
      SharedFanRingStep(tri, root, vert, v1, last, i, i1, sz, msh);
      SharedFanRingEmitsFan(tri, root, v1, last, m1, m, i1, sz, msh1);
      SpanStep(m, m1, 1);
    }
  }

  /** A shared-normal fan primitive reads its root, runs the fan loop two
      entries further on and then steps over the last vertex. */
  lemma SharedFanPrimitiveStep(tri: seq<u32>, numPts: u32, i: nat, i2: nat, sz: nat, msh: Mesh, ti: nat, mesh: Mesh)
    requires i2 == i + 2 && i2 <= |tri|
    requires Yields(OneNormalFanRing(tri, false, Corner(tri[i], [], tri[i + 1]), 1, RingEnd(numPts), St(i2, sz, msh)), ti, sz, mesh)
    ensures Yields(OneNormalFanPrimitive(tri, false, numPts, St(i, sz, msh)), ti + 1, sz, mesh)
  {
    var r := OneNormalFanRing(tri, false, Corner(tri[i], [], tri[i + 1]), 1, RingEnd(numPts), St(i2, sz, msh));
    assert OneNormalFanPrimitive(tri, false, numPts, St(i, sz, msh)) == Ok(r.value.(ti := r.value.ti + 1));
  }

  /** Block 5 with the NormalSingle flag: a fan of `N >= 2` points emits the
      fan around its first point over the `N - 1` vertex indexes that follow
      the root, all corners carrying the root's normal, and moves the cursor
      by N + 1. */
  lemma SharedFanPrimitiveEmitsFan(tri: seq<u32>, numPts: u32, i: nat, sz: nat, msh: Mesh)
    requires numPts >= 2 && i + 2 + Span(numPts - 1, 1) <= |tri|
    ensures Yields(OneNormalFanPrimitive(tri, false, numPts, St(i, sz, msh)),
                   i + numPts + 1, sz,
                   EmitAll(msh, FanOf(Corner(tri[i], [], tri[i + 1]), SharedPoints(tri, i + 2, tri[i], 0, numPts - 1))))
  {
    var N: nat := numPts;
    var last: int := N - 1;
    var m: nat := N - 2;
    var n: nat := N - 1;
    var i2: nat := i + 2;
    RingEndOf(numPts, last);
    SpanIsProduct(m, 1);
    var root := Corner(tri[i], [], tri[i + 1]);
    SharedFanRingEmitsFan(tri, root, 1, last, m, n, i2, sz, msh);
    SharedFanPrimitiveStep(tri, numPts, i, i2, sz, msh, i2 + Span(m, 1), EmitAll(msh, FanOf(root, SharedPoints(tri, i2, root.normal, 0, n))));
  }

  // ---------------------------------------------------------------------
  // Block 6 with the NormalSingle flag
  // ---------------------------------------------------------------------

  /** One pass of the shared-normal strip loop: the previous vertex at `h`,
      the current one at `i`, the next one at `i1`. */
  lemma SharedStripeRunStep(tri: seq<u32>, series: u32, vert: int, v1: int, last: int, h: nat, i: nat, i1: nat, sz: nat, msh: Mesh)
    requires vert < last && v1 == vert + 1 && i == h + 1 && i1 == i + 1 && i1 < |tri|
    ensures OneNormalStripeRun(tri, false, series, vert, last, St(i, sz, msh))
         == OneNormalStripeRun(tri, false, series, v1, last,
              St(i1, sz, Emit(msh, StripTriangle(vert, Corner(series, [], tri[h]), Corner(series, [], tri[i]), Corner(series, [], tri[i1])))))
  {
  }

  /** The shared-normal strip over `n` points from `h`: its first triangle,
      then the strip over the `n1` points after the first. */
  lemma SharedStripEmitStep(tri: seq<u32>, series: u32, vert: int, v1: int, h: nat, i: nat, i1: nat, n: nat, n1: nat, msh: Mesh)
    requires n == n1 + 1 && n1 >= 2 && v1 == vert + 1 && i == h + 1 && i1 == i + 1 && h + Span(n, 1) <= |tri|
    ensures i + Span(n1, 1) == h + Span(n, 1) && i1 < |tri|
    ensures EmitAll(Emit(msh, StripTriangle(vert, Corner(series, [], tri[h]), Corner(series, [], tri[i]), Corner(series, [], tri[i1]))),
                    StripFrom(v1, SharedPoints(tri, i, series, 0, n1)))
         == EmitAll(msh, StripFrom(vert, SharedPoints(tri, h, series, 0, n)))
  {
    var i2: nat := i1 + 1;
    var n2: nat := n1 - 1;
    var n3: nat := n2 - 1;
    SharedPointsStep(tri, series, 0, h, i, n, n1);
    SharedPointsStep(tri, series, 0, i, i1, n1, n2);
    SharedPointsStep(tri, series, 0, i1, i2, n2, n3);
    SharedCornerUntextured(tri, series, h);
    SharedCornerUntextured(tri, series, i);
    SharedCornerUntextured(tri, series, i1);
    var x := Corner(series, [], tri[h]);
    var q := SharedPoints(tri, i, series, 0, n1);
    StripCons(vert, x, q);
    EmitThenAll(msh, StripTriangle(vert, x, q[0], q[1]), StripFrom(v1, q));
  }

  /** `m` passes of the shared-normal strip loop from cursor `i` emit the
      strip over the vertex before the cursor and the `m + 1` from `i` on
      (`n = m + 2` points from `h = i - 1`), all with the normal `series`. */
  lemma {:induction false} SharedStripeRunEmitsStrip(tri: seq<u32>, series: u32, vert: int, last: int, m: nat, n: nat, h: nat, i: nat, sz: nat, msh: Mesh)
    requires vert + m == last && n == m + 2 && i == h + 1 && h + Span(n, 1) <= |tri|
    ensures Yields(OneNormalStripeRun(tri, false, series, vert, last, St(i, sz, msh)),
                   i + Span(m, 1), sz, EmitAll(msh, StripFrom(vert, SharedPoints(tri, h, series, 0, n))))
    decreases m
  {
    if m == 0 {
      var none := StripFrom(vert, SharedPoints(tri, h, series, 0, n));
      assert none == [];
      assert EmitAll(msh, none) == msh;
    } else {
      var v1 := vert + 1;
      var i1: nat := i + 1;
      var m1: nat := m - 1;
      var n1: nat := n - 1;
      SharedStripEmitStep(tri, series, vert, v1, h, i, i1, n, n1, msh);
      var msh1 := Emit(msh, StripTriangle(vert, Corner(series, [], tri[h]), Corner(series, [], tri[i]), Corner(series, [], tri[i1])));
      SharedStripeRunStep(tri, series, vert, v1, last, h, i, i1, sz, msh);
      SharedStripeRunEmitsStrip(tri, series, v1, last, m1, n1, i, i1, sz, msh1);
      SpanStep(m, m1, 1);
    }
  }

  /** A shared-normal strip primitive reads the series normal, runs the strip
      loop two entries further on and then steps over the last vertex. */
  lemma SharedStripePrimitiveStep(tri: seq<u32>, numPts: u32, i: nat, i2: nat, sz: nat, msh: Mesh, ti: nat, mesh: Mesh)
    requires i2 == i + 2 && i < |tri|
    requires Yields(OneNormalStripeRun(tri, false, tri[i], 1, RingEnd(numPts), St(i2, sz, msh)), ti, sz, mesh)
    ensures Yields(OneNormalStripePrimitive(tri, false, numPts, St(i, sz, msh)), ti + 1, sz, mesh)
  {
    var r := OneNormalStripeRun(tri, false, tri[i], 1, RingEnd(numPts), St(i2, sz, msh));
    assert OneNormalStripePrimitive(tri, false, numPts, St(i, sz, msh)) == Ok(r.value.(ti := r.value.ti + 1));
  }

  /** Block 6 with the NormalSingle flag: a strip of `N >= 2` points emits
      the standard strip over the `N` vertex indexes after the series normal,
      all corners carrying that normal, and moves the cursor by N + 1. */
  lemma SharedStripePrimitiveEmitsStrip(tri: seq<u32>, numPts: u32, i: nat, sz: nat, msh: Mesh)
    requires numPts >= 2 && i + 1 + Span(numPts, 1) <= |tri|
    ensures Yields(OneNormalStripePrimitive(tri, false, numPts, St(i, sz, msh)),
                   i + numPts + 1, sz, EmitAll(msh, Strip(SharedPoints(tri, i + 1, tri[i], 0, numPts))))
  {
    var N: nat := numPts;
    var last: int := N - 1;
    var m: nat := N - 2;
    var h: nat := i + 1;
    var i2: nat := i + 2;
    RingEndOf(numPts, last);
    SpanIsProduct(m, 1);
    var p := SharedPoints(tri, h, tri[i], 0, N);
    SharedStripeRunEmitsStrip(tri, tri[i], 1, last, m, N, h, i2, sz, msh);
    SharedStripePrimitiveStep(tri, numPts, i, i2, sz, msh, i2 + Span(m, 1), EmitAll(msh, StripFrom(1, p)));
    assert i2 + Span(m, 1) + 1 == i + numPts + 1;
    assert Strip(p) == StripFrom(1, p);
  }

  // ---------------------------------------------------------------------
  // Normals of the shared-normal primitives
  // ---------------------------------------------------------------------

  /** Every corner of a fan over shared-normal points carries the root's normal. */
  lemma SharedFanNormals(tri: seq<u32>, root: Corner, start: nat, n: nat, k: nat)
    requires start + Span(n, 1) <= |tri| && k + 1 < n
    ensures var t := FanOf(root, SharedPoints(tri, start, root.normal, 0, n))[k];
            t.a == root && t.b.normal == root.normal && t.c.normal == root.normal
  {
    FanOfAt(root, SharedPoints(tri, start, root.normal, 0, n), k);
    SharedPointsNormal(tri, start, root.normal, 0, n, k);
    SharedPointsNormal(tri, start, root.normal, 0, n, k + 1);
  }

  /** Every corner of a strip over shared-normal points carries the series normal. */
  lemma SharedStripNormals(tri: seq<u32>, series: u32, start: nat, n: nat, k: nat)
    requires n >= 2 && start + Span(n, 1) <= |tri| && k + 2 < n
    ensures var t := Strip(SharedPoints(tri, start, series, 0, n))[k];
            t.a.normal == series && t.b.normal == series && t.c.normal == series
  {
    SharedPointsNormal(tri, start, series, 0, n, k);
    SharedPointsNormal(tri, start, series, 0, n, k + 1);
    SharedPointsNormal(tri, start, series, 0, n, k + 2);
  }
}
