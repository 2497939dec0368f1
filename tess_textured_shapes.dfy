/** The triangles the textured blocks (8 to 12) emit, compared with the
    reference triangulations. Under the bounds that make every read land
    inside the index buffer:
    - block 8 consumes two points per triangle, all sharing the fan's root;
    - block 9 is the standard strip, starting one point before the cursor;
    - block 10 is independent triangles, per-vertex or with one shared normal;
    - block 11 with a normal per point is the standard fan;
    - block 12 with a normal per point is the standard strip with the
      texture indexes skipped.
    The NormalSingle forms of blocks 11 and 12 look at the next point with
    the offsets of the per-vertex layout, so no reference layout describes
    them; `TessTextured` states what they push. */
module TessTexturedShapes {
  import opened Bits
  import opened Wrappers
  import opened TessMesh
  import opened TessDecode
  import opened TessBlocks
  import opened TessHelper

  /** `T` entries from `i` inside the buffer are read as they are. */
  lemma ReadRunAt(tri: seq<u32>, i: int, T: nat)
    requires 0 <= i && i + T <= |tri|
    ensures ReadRun(tri, i, T) == Ok(tri[i .. i + T])
  {
    if T == 0 {
      assert tri[i .. i] == [];
    }
  }

  // ---------------------------------------------------------------------
  // Block 8: textured fans
  // ---------------------------------------------------------------------

  /** One pass of the textured fan loop at cursor `i`: the triangle (root,
      point at `i`, point at `i1`) is emitted and the cursor moves past both. */
  lemma TexturedFanRingStep(tri: seq<u32>, T: nat, root: Corner, vert: int, v1: int, last: int, i: nat, i1: nat, i2: nat, sz: nat, msh: Mesh)
    requires vert < last && v1 == vert + 1 && i1 == i + (2 + T) && i2 == i1 + (2 + T) && i2 <= |tri|
    ensures TexturedFanRing(tri, T, root, vert, last, St(i, sz, msh))
         == TexturedFanRing(tri, T, root, v1, last, St(i2, sz, Emit(msh, Triangle(root, CornerAt(tri, i, T), CornerAt(tri, i1, T)))))
  {
    ReadCornerAt(tri, i, T);
    ReadCornerAt(tri, i1, T);
    TexturedFanRingNext(tri, T, root, vert, last, St(i, sz, msh), CornerAt(tri, i, T), CornerAt(tri, i1, T));
  }

  /** The root's triangles over `n` points: the first pair, then the `n2`
      points after it. */
  lemma RootedPairsEmitStep(tri: seq<u32>, T: nat, root: Corner, i: nat, i1: nat, i2: nat, n: nat, n2: nat, msh: Mesh)
    requires n == n2 + 2 && n2 % 2 == 0 && i1 == i + (2 + T) && i2 == i1 + (2 + T) && i + Span(n, 2 + T) <= |tri|
    ensures i2 + Span(n2, 2 + T) == i + Span(n, 2 + T) && i2 <= |tri|
    ensures EmitAll(Emit(msh, Triangle(root, CornerAt(tri, i, T), CornerAt(tri, i1, T))), RootedPairs(root, Points(tri, i2, T, n2)))
         == EmitAll(msh, RootedPairs(root, Points(tri, i, T, n)))
  {
    var n1: nat := n - 1;
    PointsStep(tri, T, i, i1, n, n1);
    PointsStep(tri, T, i1, i2, n1, n2);
    var q := Points(tri, i, T, n);
    assert q[2..] == Points(tri, i2, T, n2);
    EmitThenAll(msh, Triangle(root, q[0], q[1]), RootedPairs(root, q[2..]));
  }

  /** `m` passes of the textured fan loop from cursor `i` read `n = 2m`
      points and emit one triangle per pair of them, all around the root. */
  lemma {:induction false} TexturedFanRingEmitsPairs(tri: seq<u32>, T: nat, root: Corner, vert: int, last: int, m: nat, n: nat, i: nat, sz: nat, msh: Mesh)
    requires vert + m == last && n == 2 * m && i + Span(n, 2 + T) <= |tri|
    ensures Yields(TexturedFanRing(tri, T, root, vert, last, St(i, sz, msh)),
                   i + Span(n, 2 + T), sz, EmitAll(msh, RootedPairs(root, Points(tri, i, T, n))))
    decreases m
  {
    if m == 0 {
      var none := RootedPairs(root, Points(tri, i, T, n));
      assert none == [];
      assert EmitAll(msh, none) == msh;
    } else {
      var v1 := vert + 1;
      var i1: nat := i + (2 + T);
      var i2: nat := i1 + (2 + T);
      var m1: nat := m - 1;
      var n2: nat := n - 2;
      RootedPairsEmitStep(tri, T, root, i, i1, i2, n, n2, msh);
      var msh1 := Emit(msh, Triangle(root, CornerAt(tri, i, T), CornerAt(tri, i1, T)));
      TexturedFanRingStep(tri, T, root, vert, v1, last, i, i1, i2, sz, msh);
      TexturedFanRingEmitsPairs(tri, T, root, v1, last, m1, n2, i2, sz, msh1);
    }
  }

  /** Block 8: a textured fan of `N >= 2` points reads its root, then two
      points per triangle: it emits the N - 2 triangles (root, q[2k],
      q[2k + 1]) over the 2(N - 2) points q after the root and moves the
      cursor past all of them. */
  lemma TexturedFanPrimitiveEmitsPairs(tri: seq<u32>, T: nat, numPts: u32, i: nat, sz: nat, msh: Mesh)
    requires numPts >= 2 && i + (2 + T) + Span(2 * (numPts - 2), 2 + T) <= |tri|
    ensures Yields(TexturedFanPrimitive(tri, T, numPts, St(i, sz, msh)),
                   i + (2 + T) + Span(2 * (numPts - 2), 2 + T), sz,
                   EmitAll(msh, RootedPairs(CornerAt(tri, i, T), Points(tri, i + (2 + T), T, 2 * (numPts - 2)))))
  {
    var last: int := numPts - 1;
    var m: nat := numPts - 2;
    var i1: nat := i + (2 + T);
    var root := CornerAt(tri, i, T);
    RingEndOf(numPts, last);
    ReadCornerAt(tri, i, T);
    TexturedFanRingEmitsPairs(tri, T, root, 1, last, m, 2 * m, i1, sz, msh);
    var r := TexturedFanRing(tri, T, root, 1, RingEnd(numPts), St(i1, sz, msh));
    TexturedFanPrimitiveNext(tri, T, numPts, St(i, sz, msh), root, r.value);
  }

  // ---------------------------------------------------------------------
  // Block 9: textured strips
  // ---------------------------------------------------------------------

  /** One pass of the textured strip loop with the previous point at `h`, the
      current one at `i` and the next one at `i1`. */
  lemma TexturedStripeRunStep(tri: seq<u32>, T: nat, vert: int, v1: int, last: int, h: nat, i: nat, i1: nat, sz: nat, msh: Mesh)
    requires vert < last && v1 == vert + 1 && i == h + (2 + T) && i1 == i + (2 + T) && i1 + (2 + T) <= |tri|
    ensures TexturedStripeRun(tri, T, vert, last, St(i, sz, msh))
         == TexturedStripeRun(tri, T, v1, last,
              St(i1, sz, Emit(msh, StripTriangle(vert, CornerAt(tri, h, T), CornerAt(tri, i, T), CornerAt(tri, i1, T)))))
  {
    ReadCornerAt(tri, h, T);
    ReadCornerAt(tri, i, T);
    ReadCornerAt(tri, i1, T);
    TexturedStripeRunNext(tri, T, vert, last, St(i, sz, msh), CornerAt(tri, h, T), CornerAt(tri, i, T), CornerAt(tri, i1, T));
  }

  /** `m` passes of the textured strip loop from cursor `i` emit the strip,
      starting at loop position `vert`, over the point before the cursor and
      the `m + 1` points from `i` on (`n = m + 2` points from `h`). */
  lemma {:induction false} TexturedStripeRunEmitsStrip(tri: seq<u32>, T: nat, vert: int, last: int, m: nat, n: nat, h: nat, i: nat, sz: nat, msh: Mesh)
    requires vert + m == last && n == m + 2 && i == h + (2 + T) && h + Span(n, 2 + T) <= |tri|
    ensures Yields(TexturedStripeRun(tri, T, vert, last, St(i, sz, msh)),
                   i + Span(m, 2 + T), sz, EmitAll(msh, StripFrom(vert, Points(tri, h, T, n))))
    decreases m
  {
    if m == 0 {
      var none := StripFrom(vert, Points(tri, h, T, n));
      assert none == [];
      assert EmitAll(msh, none) == msh;
    } else {
      var v1 := vert + 1;
      var i1: nat := i + (2 + T);
      var m1: nat := m - 1;
      var n1: nat := n - 1;
      StripEmitStep(tri, T, vert, v1, h, i, i1, n, n1, msh);
      var msh1 := Emit(msh, StripTriangle(vert, CornerAt(tri, h, T), CornerAt(tri, i, T), CornerAt(tri, i1, T)));
      TexturedStripeRunStep(tri, T, vert, v1, last, h, i, i1, sz, msh);
      TexturedStripeRunEmitsStrip(tri, T, v1, last, m1, n1, i, i1, sz, msh1);
      SpanStep(m, m1, 2 + T);
    }
  }

  /** Block 9: a textured strip of `N >= 2` points has no initial skip: its
      first point is the one stored just before the cursor. It emits the
      standard strip over the N points from there and leaves the cursor on
      the last of them, `N - 2` points further on. */
  lemma TexturedStripePrimitiveEmitsStrip(tri: seq<u32>, T: nat, numPts: u32, h: nat, i: nat, sz: nat, msh: Mesh)
    requires numPts >= 2 && i == h + (2 + T) && h + Span(numPts, 2 + T) <= |tri|
    ensures Yields(TexturedStripePrimitive(tri, T, numPts, St(i, sz, msh)),
                   i + Span(numPts - 2, 2 + T), sz, EmitAll(msh, Strip(Points(tri, h, T, numPts))))
  {
    var last: int := numPts - 1;
    RingEndOf(numPts, last);
    TexturedStripePrimitiveIs(tri, T, numPts, St(i, sz, msh));
    TexturedStripeRunEmitsStrip(tri, T, 1, last, numPts - 2, numPts, h, i, sz, msh);
  }

  // ---------------------------------------------------------------------
  // Block 10: one-normal textured triangles
  // ---------------------------------------------------------------------

  /** With a normal per point, block 10 reads a point exactly as block 7 does. */
  lemma {:induction false} PerVertexCornerRunIsTextured(tri: seq<u32>, T: nat, series: u32, j: nat, s: St)
    ensures OneNormalTexturedCornerRun(tri, T, true, series, j, s) == TexturedCornerRun(tri, T, j, s)
    decreases j
  {
    if j > 0 {
      var r := ReadCorner(tri, s.ti, T);
      if r.Ok? {
        var s1 := s.(ti := s.ti + 2 + T, mesh := Push(s.mesh, r.value));
        PerVertexCornerRunIsTextured(tri, T, series, j - 1, s1);
        assert OneNormalTexturedCornerRun(tri, T, true, series, j, s) == OneNormalTexturedCornerRun(tri, T, true, series, j - 1, s1);
      }
    }
  }

  /** With a normal per point, block 10 reads a triangle as block 7 does. */
  lemma PerVertexListStep(tri: seq<u32>, T: nat, series: u32, count: nat, c: nat, i: nat, j: nat, sz: nat, m: Mesh)
    requires count == c + 1 && j == i + 3 * (2 + T) && j <= |tri|
    ensures OneNormalTexturedTriangleList(tri, T, true, series, count, St(i, sz, m))
         == OneNormalTexturedTriangleList(tri, T, true, series, c, St(j, sz, Emit(m, TripleAt(tri, i, T))))
  {
    PerVertexCornerRunIsTextured(tri, T, series, 3, St(i, sz, m));
    TexturedTriple(tri, T, i, j, sz, m);
    OneNormalTexturedTriangleListNext(tri, T, true, series, count, St(i, sz, m), St(j, sz, Emit(m, TripleAt(tri, i, T))));
  }

  /** With a normal per point, `count` triangles are the independent
      triangles of the `n = 3 * count` points from `i`, exactly as block 7
      reads them. */
  lemma {:induction false} PerVertexTriangleListEmitsGroups(tri: seq<u32>, T: nat, series: u32, count: nat, n: nat, i: nat, sz: nat, m: Mesh)
    requires n == 3 * count && i + Span(n, 2 + T) <= |tri|
    ensures Yields(OneNormalTexturedTriangleList(tri, T, true, series, count, St(i, sz, m)),
                   i + Span(n, 2 + T), sz, EmitAll(m, Groups(Points(tri, i, T, n))))
    decreases count
  {
    if count == 0 {
      assert Points(tri, i, T, 0) == [];
    } else {
      var c: nat := count - 1;
      var n3: nat := n - 3;
      var j: nat := i + 3 * (2 + T);
      EmitGroupsStep(tri, T, n, n3, i, j, m);
      PerVertexListStep(tri, T, series, count, c, i, j, sz, m);
      PerVertexTriangleListEmitsGroups(tri, T, series, c, n3, j, sz, Emit(m, TripleAt(tri, i, T)));
    }
  }

  /** A point sharing the normal `normal`: `T` texture indexes, then the vertex. */
  function SharedCornerAt(tri: seq<u32>, i: int, normal: u32, T: nat): Corner
    requires 0 <= i && i + 1 + T <= |tri|
  {
    Corner(normal, tri[i .. i + T], tri[i + T])
  }

  /** One shared-normal point read at `i` moves the cursor to `i1`. */
  lemma SharedCornerStep(tri: seq<u32>, T: nat, series: u32, k: nat, k1: nat, i: nat, i1: nat, sz: nat, m: Mesh)
    requires k == k1 + 1 && i1 == i + (1 + T) && i1 <= |tri|
    ensures OneNormalTexturedCornerRun(tri, T, false, series, k, St(i, sz, m))
         == OneNormalTexturedCornerRun(tri, T, false, series, k1, St(i1, sz, Push(m, SharedCornerAt(tri, i, series, T))))
  {
    ReadRunAt(tri, i, T);
    OneNormalTexturedCornerRunNext(tri, T, false, series, k, St(i, sz, m), i, series, tri[i .. i + T], tri[i + T]);
  }

  /** The shared-normal triangle of three consecutive points from `i`. */
  function SharedTripleAt(tri: seq<u32>, i: int, normal: u32, T: nat): Triangle
    requires 0 <= i && i + 3 * (1 + T) <= |tri|
  {
    Triangle(SharedCornerAt(tri, i, normal, T), SharedCornerAt(tri, i + (1 + T), normal, T),
             SharedCornerAt(tri, i + 2 * (1 + T), normal, T))
  }

  /** Three shared-normal points read in a row make one triangle. */
  lemma SharedTriple(tri: seq<u32>, T: nat, series: u32, i: nat, j: nat, sz: nat, m: Mesh)
    requires j == i + 3 * (1 + T) && j <= |tri|
    ensures OneNormalTexturedCornerRun(tri, T, false, series, 3, St(i, sz, m))
         == Ok(St(j, sz, Emit(m, SharedTripleAt(tri, i, series, T))))
  {
    var i1: nat := i + (1 + T);
    var i2: nat := i + 2 * (1 + T);
    var t := SharedTripleAt(tri, i, series, T);
    var m1 := Push(m, t.a);
    var m2 := Push(m1, t.b);
    SharedCornerStep(tri, T, series, 3, 2, i, i1, sz, m);
    SharedCornerStep(tri, T, series, 2, 1, i1, i2, sz, m1);
    SharedCornerStep(tri, T, series, 1, 0, i2, j, sz, m2);
    assert Push(m2, t.c) == Emit(m, t);
  }

  /** The independent triangles of a shared-normal run: the first triple,
      then the rest. */
  lemma EmitSharedGroupsStep(tri: seq<u32>, T: nat, normal: u32, n: nat, n3: nat, i: nat, j: nat, m: Mesh)
    requires n == n3 + 3 && j == i + 3 * (1 + T) && i + Span(n, 1 + T) <= |tri|
    ensures j + Span(n3, 1 + T) == i + Span(n, 1 + T)
    ensures EmitAll(Emit(m, SharedTripleAt(tri, i, normal, T)), Groups(SharedPoints(tri, j, normal, T, n3)))
         == EmitAll(m, Groups(SharedPoints(tri, i, normal, T, n)))
  {
    var i1: nat := i + (1 + T);
    var i2: nat := i + 2 * (1 + T);
    SharedPointsStep(tri, normal, T, i, i1, n, n - 1);
    SharedPointsStep(tri, normal, T, i1, i2, n - 1, n - 2);
    SharedPointsStep(tri, normal, T, i2, j, n - 2, n3);
    var t := SharedTripleAt(tri, i, normal, T);
    var rest := SharedPoints(tri, j, normal, T, n3);
    assert SharedPoints(tri, i, normal, T, n) == [t.a, t.b, t.c] + rest;
    GroupsCons(t, rest);
    EmitThenAll(m, t, Groups(rest));
  }

  /** A shared-normal list reads its first triangle, then the rest. */
  lemma SharedListStep(tri: seq<u32>, T: nat, series: u32, count: nat, c: nat, i: nat, j: nat, sz: nat, m: Mesh)
    requires count == c + 1 && j == i + 3 * (1 + T) && j <= |tri|
    ensures OneNormalTexturedTriangleList(tri, T, false, series, count, St(i, sz, m))
         == OneNormalTexturedTriangleList(tri, T, false, series, c, St(j, sz, Emit(m, SharedTripleAt(tri, i, series, T))))
  {
    SharedTriple(tri, T, series, i, j, sz, m);
    OneNormalTexturedTriangleListNext(tri, T, false, series, count, St(i, sz, m), St(j, sz, Emit(m, SharedTripleAt(tri, i, series, T))));
  }

  /** Block 10 with the NormalSingle flag: `count` triangles are the
      independent triangles of the `n = 3 * count` points from `i`, every one
      carrying the series normal, and the cursor moves by `1 + T` per point. */
  lemma {:induction false} SharedTriangleListEmitsGroups(tri: seq<u32>, T: nat, series: u32, count: nat, n: nat, i: nat, sz: nat, m: Mesh)
    requires n == 3 * count && i + Span(n, 1 + T) <= |tri|
    ensures Yields(OneNormalTexturedTriangleList(tri, T, false, series, count, St(i, sz, m)),
                   i + Span(n, 1 + T), sz, EmitAll(m, Groups(SharedPoints(tri, i, series, T, n))))
    decreases count
  {
    if count == 0 {
      assert SharedPoints(tri, i, series, T, 0) == [];
    } else {
      var c: nat := count - 1;
      var n3: nat := n - 3;
      var j: nat := i + 3 * (1 + T);
      EmitSharedGroupsStep(tri, T, series, n, n3, i, j, m);
      SharedListStep(tri, T, series, count, c, i, j, sz, m);
      SharedTriangleListEmitsGroups(tri, T, series, c, n3, j, sz, Emit(m, SharedTripleAt(tri, i, series, T)));
    }
  }

  /** Block 10 with a normal per point (the block's count entry has no
      NormalSingle flag): the list is the independent triangles of the
      `3 * count` points from the cursor, `count` being the entry's raw value. */
  lemma PerVertexTriangleBlockEmitsGroups(d: FaceView, tri: seq<u32>, T: nat, count: nat, i: nat, sz: nat, m: Mesh)
    requires sz < |d.sizesTriangulated| && !d.sizesTriangulated[sz].normalSingle
    requires T == d.textureCoordIndexesSize && count == d.sizesTriangulated[sz].value
    requires i < |tri| && i + Span(3 * count, 2 + T) <= |tri|
    ensures Yields(OneNormalTexturedTriangleBlock(d, tri, St(i, sz, m)),
                   i + Span(3 * count, 2 + T), sz + 1, EmitAll(m, Groups(Points(tri, i, T, 3 * count))))
  {
    OneNormalTexturedTriangleBlockNext(d, tri, St(i, sz, m), d.sizesTriangulated[sz], tri[i]);
    PerVertexTriangleListEmitsGroups(tri, T, tri[i], count, 3 * count, i, sz + 1, m);
  }

  /** Block 10 with the NormalSingle flag: every point carries the normal
      stored at the cursor, which is looked at and then read again as the
      first point's first texture index (or its vertex when there are no
      texture channels); the list is the independent triangles of the
      `3 * count` shared-normal points from the cursor. */
  lemma SharedTriangleBlockEmitsGroups(d: FaceView, tri: seq<u32>, T: nat, count: nat, i: nat, sz: nat, m: Mesh)
    requires sz < |d.sizesTriangulated| && d.sizesTriangulated[sz].normalSingle
    requires T == d.textureCoordIndexesSize && count == d.sizesTriangulated[sz].value
    requires i < |tri| && i + Span(3 * count, 1 + T) <= |tri|
    ensures Yields(OneNormalTexturedTriangleBlock(d, tri, St(i, sz, m)),
                   i + Span(3 * count, 1 + T), sz + 1, EmitAll(m, Groups(SharedPoints(tri, i, tri[i], T, 3 * count))))
  {
    OneNormalTexturedTriangleBlockNext(d, tri, St(i, sz, m), d.sizesTriangulated[sz], tri[i]);
    SharedTriangleListEmitsGroups(tri, T, tri[i], count, 3 * count, i, sz + 1, m);
  }

  // ---------------------------------------------------------------------
  // Block 11 with a normal per point
  // ---------------------------------------------------------------------

  /** One pass of the per-vertex fan loop at cursor `i`: the triangle (root,
      point at `i`, point at `i1`) is emitted and the cursor moves to `i1`. */
  lemma PerVertexFanRingStep(tri: seq<u32>, T: nat, root: Corner, vert: int, v1: int, last: int, i: nat, i1: nat, sz: nat, msh: Mesh)
    requires vert < last && v1 == vert + 1 && i1 == i + (2 + T) && i1 + (2 + T) <= |tri|
    ensures OneNormalTexturedFanRing(tri, T, true, root, vert, last, St(i, sz, msh))
         == OneNormalTexturedFanRing(tri, T, true, root, v1, last,
              St(i1, sz, Emit(msh, Triangle(root, CornerAt(tri, i, T), CornerAt(tri, i1, T)))))
  {
    ReadRunAt(tri, i + 1, T);
    ReadRunAt(tri, i1 + 1, T);
    OneNormalTexturedFanRingNext(tri, T, true, root, vert, last, St(i, sz, msh), i + 1, i1,
                                 tri[i], tri[i + 1 .. i + 1 + T], tri[i + 1 + T],
                                 tri[i1], tri[i1 + 1 .. i1 + 1 + T], tri[i1 + 1 + T]);
  }

  /** `m` passes of the per-vertex fan loop from cursor `i` emit the fan
      around the root over the `n = m + 1` points from `i` on, and move the
      cursor over `m` of them (the last is only looked at). */
  lemma {:induction false} PerVertexFanRingEmitsFan(tri: seq<u32>, T: nat, root: Corner, vert: int, last: int, m: nat, n: nat, i: nat, sz: nat, msh: Mesh)
    requires vert + m == last && n == m + 1 && i + Span(n, 2 + T) <= |tri|
    ensures Yields(OneNormalTexturedFanRing(tri, T, true, root, vert, last, St(i, sz, msh)),
                   i + Span(m, 2 + T), sz, EmitAll(msh, FanOf(root, Points(tri, i, T, n))))
    decreases m
  {
    if m == 0 {
      var none := FanOf(root, Points(tri, i, T, n));
      assert none == [];
      assert EmitAll(msh, none) == msh;
    } else {
      var v1 := vert + 1;
      var i1: nat := i + (2 + T);
      var m1: nat := m - 1;
      FanEmitStep(tri, T, root, i, i1, n, m, msh);
      var msh1 := Emit(msh, Triangle(root, CornerAt(tri, i, T), CornerAt(tri, i1, T)));
      PerVertexFanRingStep(tri, T, root, vert, v1, last, i, i1, sz, msh);
      PerVertexFanRingEmitsFan(tri, T, root, v1, last, m1, m, i1, sz, msh1);
      SpanStep(m, m1, 2 + T);
    }
  }

  /** Block 11: a fan whose size entry (read after its root) has no
      NormalSingle flag and `N >= 2` points emits the standard fan over the N
      points from the cursor, root first, and leaves the cursor on the last
      of them: the fan loop never steps past the point it only looks at. */
  lemma PerVertexTexturedFanEmitsFan(d: FaceView, tri: seq<u32>, i: nat, sz: nat, msh: Mesh)
    requires sz < |d.sizesTriangulated|
    requires !d.sizesTriangulated[sz].normalSingle && d.sizesTriangulated[sz].points >= 2
    requires i + Span(d.sizesTriangulated[sz].points, 2 + d.textureCoordIndexesSize) <= |tri|
    ensures var N := d.sizesTriangulated[sz].points;
            var T := d.textureCoordIndexesSize;
            Yields(OneNormalTexturedFan(d, tri, St(i, sz, msh)),
                   i + Span(N - 1, 2 + T), sz + 1, EmitAll(msh, Fan(Points(tri, i, T, N))))
  {
    var e := d.sizesTriangulated[sz];
    var T: nat := d.textureCoordIndexesSize;
    var N: nat := e.points;
    var n: nat := N - 1;
    var last: int := N - 1;
    var i1: nat := i + (2 + T);
    var root := CornerAt(tri, i, T);
    PointsStep(tri, T, i, i1, N, n);
    ReadCornerAt(tri, i, T);
    RingEndOf(e.points, last);
    PerVertexFanRingEmitsFan(tri, T, root, 1, last, N - 2, n, i1, sz + 1, msh);
    OneNormalTexturedFanPrimitiveIs(tri, T, true, root, e.points, St(i1, sz + 1, msh));
    var r := OneNormalTexturedFanRing(tri, T, true, root, 1, last, St(i1, sz + 1, msh));
    RootedOneNormalTexturedFanNext(d, tri, root, St(i1, sz, msh), e, r.value);
    OneNormalTexturedFanNext(d, tri, St(i, sz, msh), root, r.value);
    SpanStep(n, N - 2, 2 + T);
    var p := Points(tri, i, T, N);
    assert p[0] == root && p[1..] == Points(tri, i1, T, n);
  }

  // ---------------------------------------------------------------------
  // Block 12 with a normal per point
  // ---------------------------------------------------------------------

  /** A point with its texture indexes left out. */
  function Bare(c: Corner): Corner {
    c.(texture := [])
  }

  /** The points `p` with their texture indexes left out. */
  function Untextured(p: seq<Corner>): (r: seq<Corner>)
    ensures |r| == |p|
  {
    seq(|p|, k requires 0 <= k < |p| => Bare(p[k]))
  }

  /** One pass of the per-vertex strip loop with the previous point at `h`,
      the current one at `i` and the next one at `i1`. */
  lemma PerVertexStripeRunStep(tri: seq<u32>, T: nat, series: u32, vert: int, v1: int, last: int, h: nat, i: nat, i1: nat, sz: nat, msh: Mesh)
    requires vert < last && v1 == vert + 1 && i == h + (2 + T) && i1 == i + (2 + T) && i1 + (2 + T) <= |tri|
    ensures OneNormalTexturedStripeRun(tri, T, true, series, vert, last, St(i, sz, msh))
         == OneNormalTexturedStripeRun(tri, T, true, series, v1, last,
              St(i1, sz, Emit(msh, StripTriangle(vert, Bare(CornerAt(tri, h, T)), Bare(CornerAt(tri, i, T)), Bare(CornerAt(tri, i1, T))))))
  {
    OneNormalTexturedStripeRunNext(tri, T, true, series, vert, last, St(i, sz, msh), i + 1 + T, i1,
                                   tri[h], tri[i - 1], tri[i], tri[i + 1 + T], tri[i1], tri[i1 + 1 + T]);
  }

  /** The untextured strip over `n` points from `h`: its first triangle, then
      the strip over the `n1` points after the first. */
  lemma BareStripEmitStep(tri: seq<u32>, T: nat, vert: int, v1: int, h: nat, i: nat, i1: nat, n: nat, n1: nat, msh: Mesh)
    requires n == n1 + 1 && n1 >= 2 && v1 == vert + 1 && i == h + (2 + T) && i1 == i + (2 + T) && h + Span(n, 2 + T) <= |tri|
    ensures i + Span(n1, 2 + T) == h + Span(n, 2 + T) && i1 + (2 + T) <= |tri|
    ensures EmitAll(Emit(msh, StripTriangle(vert, Bare(CornerAt(tri, h, T)), Bare(CornerAt(tri, i, T)), Bare(CornerAt(tri, i1, T)))),
                    StripFrom(v1, Untextured(Points(tri, i, T, n1))))
         == EmitAll(msh, StripFrom(vert, Untextured(Points(tri, h, T, n))))
  {
    var i2: nat := i1 + (2 + T);
    var n2: nat := n1 - 1;
    var n3: nat := n2 - 1;
    PointsStep(tri, T, h, i, n, n1);
    PointsStep(tri, T, i, i1, n1, n2);
    PointsStep(tri, T, i1, i2, n2, n3);
    var x := Bare(CornerAt(tri, h, T));
    var q := Untextured(Points(tri, i, T, n1));
    assert Untextured(Points(tri, h, T, n)) == [x] + q;
    StripCons(vert, x, q);
    EmitThenAll(msh, StripTriangle(vert, x, q[0], q[1]), StripFrom(v1, q));
  }

  /** `m` passes of the per-vertex strip loop from cursor `i` emit the
      untextured strip over the point before the cursor and the `m + 1`
      points from `i` on. */
  lemma {:induction false} PerVertexStripeRunEmitsStrip(tri: seq<u32>, T: nat, series: u32, vert: int, last: int, m: nat, n: nat, h: nat, i: nat, sz: nat, msh: Mesh)
    requires vert + m == last && n == m + 2 && i == h + (2 + T) && h + Span(n, 2 + T) <= |tri|
    ensures Yields(OneNormalTexturedStripeRun(tri, T, true, series, vert, last, St(i, sz, msh)),
                   i + Span(m, 2 + T), sz, EmitAll(msh, StripFrom(vert, Untextured(Points(tri, h, T, n)))))
    decreases m
  {
    if m == 0 {
      var none := StripFrom(vert, Untextured(Points(tri, h, T, n)));
      assert none == [];
      assert EmitAll(msh, none) == msh;
    } else {
      var v1 := vert + 1;
      var i1: nat := i + (2 + T);
      var m1: nat := m - 1;
      var n1: nat := n - 1;
      BareStripEmitStep(tri, T, vert, v1, h, i, i1, n, n1, msh);
      var msh1 := Emit(msh, StripTriangle(vert, Bare(CornerAt(tri, h, T)), Bare(CornerAt(tri, i, T)), Bare(CornerAt(tri, i1, T))));
      PerVertexStripeRunStep(tri, T, series, vert, v1, last, h, i, i1, sz, msh);
      PerVertexStripeRunEmitsStrip(tri, T, series, v1, last, m1, n1, i, i1, sz, msh1);
      SpanStep(m, m1, 2 + T);
    }
  }

  /** Block 12 with a normal per point: a strip of `N >= 2` points looks at
      the entry under the cursor, skips `2 + m_uiStyleIndexesSize` entries and
      emits the standard strip, without texture indexes, over the N points
      whose second one starts there; the cursor ends on the last of them. */
  lemma PerVertexStripePrimitiveEmitsStrip(tri: seq<u32>, T: nat, styles: nat, numPts: u32, i: nat, h: nat, sz: nat, msh: Mesh)
    requires numPts >= 2 && i < |tri| && h + (2 + T) == i + 2 + styles && h + Span(numPts, 2 + T) <= |tri|
    ensures Yields(OneNormalTexturedStripePrimitive(tri, T, styles, true, numPts, St(i, sz, msh)),
                   i + 2 + styles + Span(numPts - 2, 2 + T), sz, EmitAll(msh, Strip(Untextured(Points(tri, h, T, numPts)))))
  {
    var last: int := numPts - 1;
    var i1: nat := i + 2 + styles;
    RingEndOf(numPts, last);
    PerVertexStripeRunEmitsStrip(tri, T, tri[i], 1, last, numPts - 2, numPts, h, i1, sz, msh);
    var r := OneNormalTexturedStripeRun(tri, T, true, tri[i], 1, last, St(i1, sz, msh));
    OneNormalTexturedStripePrimitiveNext(tri, T, styles, true, numPts, St(i, sz, msh), tri[i], r.value);
  }
}
