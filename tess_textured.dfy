/** What the textured blocks (7 to 12) add to the lists beyond what their
    decoders' own postconditions say: how far each moves the cursor, how many
    texture indexes it pushes and, in the shared-normal forms, which normal
    every corner carries. These facts hold for every successful decoding and
    need no bounds on the buffer. */
module TessTextured {
  import opened Bits
  import opened Wrappers
  import opened TessMesh
  import opened TessDecode
  import opened TessBlocks
  import opened TessHelper

  // ---------------------------------------------------------------------
  // Block 7: textured triangles
  // ---------------------------------------------------------------------

  lemma SpanThree(n: nat, n3: nat, w: nat)
    requires n == n3 + 3
    ensures Span(n, w) == Span(3, w) + Span(n3, w)
  {
    SpanAdd(3, n3, w);
  }

  /** Block 7: `count` textured triangles add 3 vertices per triangle and
      `T` texture indexes per vertex, and move the cursor by 2 + T per vertex. */
  lemma {:induction false} TexturedTriangleListSizes(tri: seq<u32>, T: nat, count: nat, n: nat, s: St)
    requires n == 3 * count
    ensures var r := TexturedTriangleList(tri, T, count, s);
            r.Ok? ==>
              && |r.value.mesh.vertices| == |s.mesh.vertices| + n
              && |r.value.mesh.texture| == |s.mesh.texture| + Span(n, T)
              && r.value.ti == s.ti + Span(n, 2 + T)
    decreases count
  {
    if count > 0 {
      TexturedTriangleListFails(tri, T, count, s);
      if TexturedTriangleList(tri, T, count, s).Ok? {
        var s1 := TexturedCornerRun(tri, T, 3, s).value;
        var c: nat := count - 1;
        var n3: nat := n - 3;
        TexturedTriangleListNext(tri, T, count, s, s1);
        TexturedTriangleListSizes(tri, T, c, n3, s1);
        SpanThree(n, n3, T);
        SpanThree(n, n3, 2 + T);
      }
    }
  }

  // ---------------------------------------------------------------------
  // Block 8: textured fans
  // ---------------------------------------------------------------------

  /** Each pass of the textured fan loop consumes two whole points and pushes
      the texture indexes of three: the root's and those of the two it read. */
  lemma {:induction false} TexturedFanRingCursor(tri: seq<u32>, T: nat, root: Corner, vert: int, last: int, s: St)
    requires |root.texture| == T
    ensures var r := TexturedFanRing(tri, T, root, vert, last, s);
            r.Ok? ==> && r.value.ti == s.ti + Span(Iterations(vert, last), 2 * (2 + T))
                      && |r.value.mesh.texture| == |s.mesh.texture| + Span(Iterations(vert, last), 3 * T)
    decreases last - vert
  {
    if vert < last {
      TexturedFanRingFails(tri, T, root, vert, last, s);
      if TexturedFanRing(tri, T, root, vert, last, s).Ok? {
        var c1 := ReadCorner(tri, s.ti, T).value;
        var c2 := ReadCorner(tri, s.ti + 2 + T, T).value;
        var s1 := s.(ti := s.ti + 2 * (2 + T), mesh := Emit(s.mesh, Triangle(root, c1, c2)));
        assert |s1.mesh.texture| == |s.mesh.texture| + 3 * T;
        TexturedFanRingNext(tri, T, root, vert, last, s, c1, c2);
        TexturedFanRingCursor(tri, T, root, vert + 1, last, s1);
        SpanStep(Iterations(vert, last), Iterations(vert + 1, last), 2 * (2 + T));
        SpanStep(Iterations(vert, last), Iterations(vert + 1, last), 3 * T);
      }
    }
  }

  /** Block 8: a fan of N >= 2 points adds N - 2 triangles, `3 * T` texture
      indexes per triangle, and moves the cursor over its root and then over
      two points per triangle, with no trailing step. */
  lemma TexturedFanCursor(tri: seq<u32>, T: nat, numPts: u32, s: St)
    requires numPts >= 2
    ensures var r := TexturedFanPrimitive(tri, T, numPts, s);
            r.Ok? ==> && |r.value.mesh.vertices| == |s.mesh.vertices| + 3 * (numPts - 2)
                      && |r.value.mesh.texture| == |s.mesh.texture| + Span(numPts - 2, 3 * T)
                      && r.value.ti == s.ti + (2 + T) + Span(numPts - 2, 2 * (2 + T))
  {
    var root := ReadCorner(tri, s.ti, T);
    if root.Ok? {
      RingEndOf(numPts, numPts - 1);
      TexturedFanRingCursor(tri, T, root.value, 1, numPts - 1, s.(ti := s.ti + 2 + T));
    }
  }

  // ---------------------------------------------------------------------
  // Block 9: textured strips
  // ---------------------------------------------------------------------

  /** A strip triangle pushes the texture indexes of its three points. */
  lemma StripTriangleTexture(m: Mesh, vert: int, prev: Corner, cur: Corner, next: Corner)
    ensures |Emit(m, StripTriangle(vert, prev, cur, next)).texture|
         == |m.texture| + |prev.texture| + |cur.texture| + |next.texture|
  {
  }

  /** Each pass of the textured strip loop consumes one whole point and
      pushes the texture indexes of three. */
  lemma {:induction false} TexturedStripeRunCursor(tri: seq<u32>, T: nat, vert: int, last: int, s: St)
    ensures var r := TexturedStripeRun(tri, T, vert, last, s);
            r.Ok? ==> && r.value.ti == s.ti + Span(Iterations(vert, last), 2 + T)
                      && |r.value.mesh.texture| == |s.mesh.texture| + Span(Iterations(vert, last), 3 * T)
    decreases last - vert
  {
    if vert < last {
      TexturedStripeRunFails(tri, T, vert, last, s);
      if TexturedStripeRun(tri, T, vert, last, s).Ok? {
        var prev := ReadCorner(tri, s.ti - (2 + T), T).value;
        var cur := ReadCorner(tri, s.ti, T).value;
        var next := ReadCorner(tri, s.ti + 2 + T, T).value;
        var s1 := s.(ti := s.ti + 2 + T, mesh := Emit(s.mesh, StripTriangle(vert, prev, cur, next)));
        StripTriangleTexture(s.mesh, vert, prev, cur, next);
        TexturedStripeRunNext(tri, T, vert, last, s, prev, cur, next);
        TexturedStripeRunCursor(tri, T, vert + 1, last, s1);
        SpanStep(Iterations(vert, last), Iterations(vert + 1, last), 2 + T);
        SpanStep(Iterations(vert, last), Iterations(vert + 1, last), 3 * T);
      }
    }
  }

  /** Block 9: a strip of N >= 2 points adds N - 2 triangles, `3 * T`
      texture indexes per triangle, and moves the cursor over N - 2 points:
      the first two are the ones read behind it. */
  lemma TexturedStripeCursor(tri: seq<u32>, T: nat, numPts: u32, s: St)
    requires numPts >= 2
    ensures var r := TexturedStripePrimitive(tri, T, numPts, s);
            r.Ok? ==> && |r.value.mesh.vertices| == |s.mesh.vertices| + 3 * (numPts - 2)
                      && |r.value.mesh.texture| == |s.mesh.texture| + Span(numPts - 2, 3 * T)
                      && r.value.ti == s.ti + Span(numPts - 2, 2 + T)
  {
    RingEndOf(numPts, numPts - 1);
    TexturedStripeRunCursor(tri, T, 1, numPts - 1, s);
  }

  // ---------------------------------------------------------------------
  // Block 10: one-normal textured triangles
  // ---------------------------------------------------------------------

  /** `j` shared-normal points: every normal pushed is `series`. */
  lemma {:induction false} SharedTexturedCornerRunNormals(tri: seq<u32>, T: nat, series: u32, j: nat, s: St)
    ensures var r := OneNormalTexturedCornerRun(tri, T, false, series, j, s);
            r.Ok? ==> r.value.mesh.normals == s.mesh.normals + seq(j, _ => series)
    decreases j
  {
    if j > 0 {
      var t := ReadRun(tri, s.ti, T);
      var v := ReadIndex(tri, s.ti + T);
      if t.Ok? && v.Ok? {
        var s1 := s.(ti := s.ti + T + 1, mesh := Push(s.mesh, Corner(series, t.value, v.value)));
        SharedTexturedCornerRunNormals(tri, T, series, j - 1, s1);
        assert s.mesh.normals + seq(j, _ => series) == s1.mesh.normals + seq(j - 1, _ => series);
      }
    }
  }

  lemma SharedTexturedListStep(tri: seq<u32>, T: nat, series: u32, count: nat, c: nat, s: St, s1: St)
    requires count == c + 1 && OneNormalTexturedCornerRun(tri, T, false, series, 3, s) == Ok(s1)
    ensures OneNormalTexturedTriangleList(tri, T, false, series, count, s)
         == OneNormalTexturedTriangleList(tri, T, false, series, c, s1)
  {
  }

  /** Block 10 with the NormalSingle flag: every normal of every triangle is
      the shared normal, one per vertex. */
  lemma {:induction false} SharedTexturedTriangleListNormals(tri: seq<u32>, T: nat, series: u32, count: nat, s: St)
    ensures var r := OneNormalTexturedTriangleList(tri, T, false, series, count, s);
            r.Ok? ==> r.value.mesh.normals == s.mesh.normals + seq(3 * count, _ => series)
    decreases count
  {
    if count > 0 {
      var r1 := OneNormalTexturedCornerRun(tri, T, false, series, 3, s);
      SharedTexturedCornerRunNormals(tri, T, series, 3, s);
      if r1.Ok? {
        var c: nat := count - 1;
        SharedTexturedListStep(tri, T, series, count, c, s, r1.value);
        SharedTexturedTriangleListNormals(tri, T, series, c, r1.value);
        assert seq(3, _ => series) + seq(3 * c, _ => series) == seq(3 * count, _ => series);
      }
    }
  }

  /** Entries per point in the one-normal textured layouts: the point's own
      normal when it stores one, then `T` texture indexes and the vertex. */
  function Stride(hvn: bool, T: nat): nat {
    (if hvn then 2 else 1) + T
  }

  /** `j` points of block 10 move the cursor by `Stride` each and push `T`
      texture indexes each. */
  lemma {:induction false} OneNormalTexturedCornerRunSizes(tri: seq<u32>, T: nat, hvn: bool, series: u32, j: nat, s: St)
    ensures var r := OneNormalTexturedCornerRun(tri, T, hvn, series, j, s);
            r.Ok? ==> && r.value.ti == s.ti + Span(j, Stride(hvn, T))
                      && |r.value.mesh.texture| == |s.mesh.texture| + Span(j, T)
    decreases j
  {
    if j > 0 {
      OneNormalTexturedCornerRunFails(tri, T, hvn, series, j, s);
      if OneNormalTexturedCornerRun(tri, T, hvn, series, j, s).Ok? {
        var c1: nat := if hvn then s.ti + 1 else s.ti;
        var n := (if hvn then ReadIndex(tri, s.ti) else Ok(series)).value;
        var t := ReadRun(tri, c1, T).value;
        var v := ReadIndex(tri, c1 + T).value;
        OneNormalTexturedCornerRunNext(tri, T, hvn, series, j, s, c1, n, t, v);
        var s1 := s.(ti := c1 + T + 1, mesh := Push(s.mesh, Corner(n, t, v)));
        OneNormalTexturedCornerRunSizes(tri, T, hvn, series, j - 1, s1);
        SpanStep(j, j - 1, Stride(hvn, T));
        SpanStep(j, j - 1, T);
      }
    }
  }

  /** Block 10: `count` triangles push `T` texture indexes per vertex and
      move the cursor by `3 * count` points of `Stride` entries: 2 + T per
      point with per-point normals, 1 + T with the NormalSingle flag (the
      shared normal is looked at, never consumed). */
  lemma {:induction false} OneNormalTexturedTriangleListSizes(tri: seq<u32>, T: nat, hvn: bool, series: u32, count: nat, n: nat, s: St)
    requires n == 3 * count
    ensures var r := OneNormalTexturedTriangleList(tri, T, hvn, series, count, s);
            r.Ok? ==> && |r.value.mesh.vertices| == |s.mesh.vertices| + n
                      && |r.value.mesh.texture| == |s.mesh.texture| + Span(n, T)
                      && r.value.ti == s.ti + Span(n, Stride(hvn, T))
    decreases count
  {
    if count > 0 {
      OneNormalTexturedTriangleListFails(tri, T, hvn, series, count, s);
      var r1 := OneNormalTexturedCornerRun(tri, T, hvn, series, 3, s);
      if r1.Ok? {
        var c: nat := count - 1;
        var n3: nat := n - 3;
        OneNormalTexturedCornerRunSizes(tri, T, hvn, series, 3, s);
        OneNormalTexturedTriangleListNext(tri, T, hvn, series, count, s, r1.value);
        OneNormalTexturedTriangleListSizes(tri, T, hvn, series, c, n3, r1.value);
        SpanThree(n, n3, T);
        SpanThree(n, n3, Stride(hvn, T));
      }
    }
  }

  // ---------------------------------------------------------------------
  // Block 11: one-normal textured fans
  // ---------------------------------------------------------------------

  /** Each pass of the one-normal textured fan loop consumes one point of
      `Stride` entries and pushes the texture indexes of three. */
  lemma {:induction false} OneNormalTexturedFanRingSizes(tri: seq<u32>, T: nat, hvn: bool, root: Corner, vert: int, last: int, s: St)
    requires |root.texture| == T
    ensures var r := OneNormalTexturedFanRing(tri, T, hvn, root, vert, last, s);
            r.Ok? ==> && r.value.ti == s.ti + Span(Iterations(vert, last), Stride(hvn, T))
                      && |r.value.mesh.texture| == |s.mesh.texture| + Span(Iterations(vert, last), 3 * T)
    decreases last - vert
  {
    if vert < last {
      OneNormalTexturedFanRingFails(tri, T, hvn, root, vert, last, s);
      if OneNormalTexturedFanRing(tri, T, hvn, root, vert, last, s).Ok? {
        var c1: nat := if hvn then s.ti + 1 else s.ti;
        var c2: nat := c1 + T + 1;
        var n := (if hvn then ReadIndex(tri, s.ti) else Ok(root.normal)).value;
        var t := ReadRun(tri, c1, T).value;
        var v := ReadIndex(tri, c1 + T).value;
        var nextN := (if hvn then ReadIndex(tri, c2) else Ok(root.normal)).value;
        var nextT := ReadRun(tri, c2 + 1, T).value;
        var nextV := ReadIndex(tri, c2 + 1 + (if hvn then T else 0)).value;
        OneNormalTexturedFanRingNext(tri, T, hvn, root, vert, last, s, c1, c2, n, t, v, nextN, nextT, nextV);
        var s1 := s.(ti := c2, mesh := Emit(s.mesh, Triangle(root, Corner(n, t, v), Corner(nextN, nextT, nextV))));
        OneNormalTexturedFanRingSizes(tri, T, hvn, root, vert + 1, last, s1);
        SpanStep(Iterations(vert, last), Iterations(vert + 1, last), Stride(hvn, T));
        SpanStep(Iterations(vert, last), Iterations(vert + 1, last), 3 * T);
      }
    }
  }

  /** With the NormalSingle flag every normal the fan loop pushes is the root's. */
  lemma {:induction false} SharedTexturedFanRingNormals(tri: seq<u32>, T: nat, root: Corner, vert: int, last: int, s: St)
    ensures var r := OneNormalTexturedFanRing(tri, T, false, root, vert, last, s);
            r.Ok? ==> r.value.mesh.normals == s.mesh.normals + seq(3 * Iterations(vert, last), _ => root.normal)
    decreases last - vert
  {
    if vert < last {
      OneNormalTexturedFanRingFails(tri, T, false, root, vert, last, s);
      if OneNormalTexturedFanRing(tri, T, false, root, vert, last, s).Ok? {
        var c2: nat := s.ti + T + 1;
        var t := ReadRun(tri, s.ti, T).value;
        var v := ReadIndex(tri, s.ti + T).value;
        var nextT := ReadRun(tri, c2 + 1, T).value;
        var nextV := ReadIndex(tri, c2 + 1).value;
        var x := root.normal;
        OneNormalTexturedFanRingNext(tri, T, false, root, vert, last, s, s.ti, c2, x, t, v, x, nextT, nextV);
        var s1 := s.(ti := c2, mesh := Emit(s.mesh, Triangle(root, Corner(x, t, v), Corner(x, nextT, nextV))));
        SharedTexturedFanRingNormals(tri, T, root, vert + 1, last, s1);
        var k := Iterations(vert + 1, last);
        assert s.mesh.normals + seq(3 * (k + 1), _ => x) == s1.mesh.normals + seq(3 * k, _ => x);
      }
    }
  }

  /** Block 11: once its root is read, a fan of N >= 2 points (N the masked
      size entry) adds N - 2 triangles, pushes `3 * T` texture indexes per
      triangle and moves the cursor by one point of `Stride` entries per
      triangle, with no trailing step; with the NormalSingle flag every
      corner carries the root's normal. */
  lemma OneNormalTexturedFanPrimitiveSizes(tri: seq<u32>, T: nat, hvn: bool, root: Corner, numPts: u32, s: St)
    requires numPts >= 2 && |root.texture| == T
    ensures var r := OneNormalTexturedFanPrimitive(tri, T, hvn, root, numPts, s);
            r.Ok? ==> && |r.value.mesh.vertices| == |s.mesh.vertices| + 3 * (numPts - 2)
                      && |r.value.mesh.texture| == |s.mesh.texture| + Span(numPts - 2, 3 * T)
                      && r.value.ti == s.ti + Span(numPts - 2, Stride(hvn, T))
                      && (!hvn ==> r.value.mesh.normals == s.mesh.normals + seq(3 * (numPts - 2), _ => root.normal))
  {
    RingEndOf(numPts, numPts - 1);
    OneNormalTexturedFanPrimitiveIs(tri, T, hvn, root, numPts, s);
    OneNormalTexturedFanRingSizes(tri, T, hvn, root, 1, numPts - 1, s);
    if !hvn {
      SharedTexturedFanRingNormals(tri, T, root, 1, numPts - 1, s);
    }
  }

  // ---------------------------------------------------------------------
  // Block 12: one-normal textured strips
  // ---------------------------------------------------------------------

  /** Each pass of the one-normal textured strip loop consumes one point of
      `Stride` entries. */
  lemma {:induction false} OneNormalTexturedStripeRunCursor(tri: seq<u32>, T: nat, hvn: bool, series: u32, vert: int, last: int, s: St)
    ensures var r := OneNormalTexturedStripeRun(tri, T, hvn, series, vert, last, s);
            r.Ok? ==> r.value.ti == s.ti + Span(Iterations(vert, last), Stride(hvn, T))
    decreases last - vert
  {
    if vert < last {
      OneNormalTexturedStripeRunFails(tri, T, hvn, series, vert, last, s);
      if OneNormalTexturedStripeRun(tri, T, hvn, series, vert, last, s).Ok? {
        var c1: nat := (if hvn then s.ti + 1 else s.ti) + T;
        var c2: nat := c1 + 1;
        var prevN := (if hvn then ReadIndex(tri, s.ti - (2 + T)) else Ok(series)).value;
        var prevV := ReadIndex(tri, s.ti - 1).value;
        var curN := (if hvn then ReadIndex(tri, s.ti) else Ok(series)).value;
        var curV := ReadIndex(tri, c1).value;
        var nextN := (if hvn then ReadIndex(tri, c2) else Ok(series)).value;
        var nextV := ReadIndex(tri, c2 + 1 + (if hvn then T else 0)).value;
        OneNormalTexturedStripeRunNext(tri, T, hvn, series, vert, last, s, c1, c2, prevN, prevV, curN, curV, nextN, nextV);
        var s1 := s.(ti := c2, mesh := Emit(s.mesh,
                   StripTriangle(vert, Corner(prevN, [], prevV), Corner(curN, [], curV), Corner(nextN, [], nextV))));
        OneNormalTexturedStripeRunCursor(tri, T, hvn, series, vert + 1, last, s1);
        SpanStep(Iterations(vert, last), Iterations(vert + 1, last), Stride(hvn, T));
      }
    }
  }

  /** With the NormalSingle flag every normal the strip loop pushes is the
      series normal. */
  lemma {:induction false} SharedTexturedStripeRunNormals(tri: seq<u32>, T: nat, hvn: bool, series: u32, vert: int, last: int, s: St)
    requires !hvn
    ensures var r := OneNormalTexturedStripeRun(tri, T, hvn, series, vert, last, s);
            r.Ok? ==> r.value.mesh.normals == s.mesh.normals + seq(3 * Iterations(vert, last), _ => series)
    decreases last - vert
  {
    if vert < last {
      OneNormalTexturedStripeRunFails(tri, T, hvn, series, vert, last, s);
      if OneNormalTexturedStripeRun(tri, T, hvn, series, vert, last, s).Ok? {
        var c1: nat := (if hvn then s.ti + 1 else s.ti) + T;
        var c2: nat := c1 + 1;
        var prevN := (if hvn then ReadIndex(tri, s.ti - (2 + T)) else Ok(series)).value;
        var prevV := ReadIndex(tri, s.ti - 1).value;
        var curN := (if hvn then ReadIndex(tri, s.ti) else Ok(series)).value;
        var curV := ReadIndex(tri, c1).value;
        var nextN := (if hvn then ReadIndex(tri, c2) else Ok(series)).value;
        var nextV := ReadIndex(tri, c2 + 1 + (if hvn then T else 0)).value;
        OneNormalTexturedStripeRunNext(tri, T, hvn, series, vert, last, s, c1, c2, prevN, prevV, curN, curV, nextN, nextV);
        var s1 := s.(ti := c2, mesh := Emit(s.mesh,
                   StripTriangle(vert, Corner(prevN, [], prevV), Corner(curN, [], curV), Corner(nextN, [], nextV))));
        SharedTexturedStripeRunNormals(tri, T, hvn, series, vert + 1, last, s1);
        var k := Iterations(vert + 1, last);
        assert s.mesh.normals + seq(3 * (k + 1), _ => series) == s1.mesh.normals + seq(3 * k, _ => series);
      }
    }
  }

  /** Block 12: a strip of N >= 2 points (N the masked size entry) looks at
      its series normal, skips `2 + m_uiStyleIndexesSize` entries, then adds
      N - 2 triangles and no texture index, moving the cursor by one point of
      `Stride` entries per triangle; with the NormalSingle flag every corner
      carries the series normal. */
  lemma OneNormalTexturedStripePrimitiveSizes(tri: seq<u32>, T: nat, styles: nat, hvn: bool, numPts: u32, series: u32, s: St)
    requires numPts >= 2 && ReadIndex(tri, s.ti) == Ok(series)
    ensures var r := OneNormalTexturedStripePrimitive(tri, T, styles, hvn, numPts, s);
            r.Ok? ==> && |r.value.mesh.vertices| == |s.mesh.vertices| + 3 * (numPts - 2)
                      && r.value.mesh.texture == s.mesh.texture
                      && r.value.ti == s.ti + 2 + styles + Span(numPts - 2, Stride(hvn, T))
                      && (!hvn ==> r.value.mesh.normals == s.mesh.normals + seq(3 * (numPts - 2), _ => series))
  {
    RingEndOf(numPts, numPts - 1);
    var s2 := s.(ti := s.ti + 2 + styles);
    OneNormalTexturedStripeRunCursor(tri, T, hvn, series, 1, numPts - 1, s2);
    if !hvn {
      SharedTexturedStripeRunNormals(tri, T, hvn, series, 1, numPts - 1, s2);
    }
    var r := OneNormalTexturedStripeRun(tri, T, hvn, series, 1, numPts - 1, s2);
    if r.Ok? {
      OneNormalTexturedStripePrimitiveNext(tri, T, styles, hvn, numPts, s, series, r.value);
    } else {
      OneNormalTexturedStripePrimitiveFails(tri, T, styles, hvn, numPts, s);
    }
  }
}
