/** What each block of the triangle decoder produces: under the bounds that
    make every read land inside the index buffer, a block's loop is `Ok`,
    moves the cursor by the size of the points it covers and appends exactly
    the reference triangulation of those points (a fan, a strip or
    independent triangles). */
module TessBlocks {
  import opened Bits
  import opened Wrappers
  import opened TessMesh
  import opened TessDecode

  // ---------------------------------------------------------------------
  // Reads inside the buffer
  // ---------------------------------------------------------------------

  lemma ReadCornerAt(tri: seq<u32>, i: int, T: nat)
    requires 0 <= i && i + 2 + T <= |tri|
    ensures ReadCorner(tri, i, T) == Ok(CornerAt(tri, i, T))
  {
    if T == 0 {
      assert tri[i + 1 .. i + 1] == [];
    }
  }

  /** Without texture channels a point is a (normal, vertex) pair. */
  lemma CornerAtUntextured(tri: seq<u32>, i: int)
    requires 0 <= i && i + 2 <= |tri|
    ensures CornerAt(tri, i, 0) == Corner(tri[i], [], tri[i + 1])
  {
    assert tri[i + 1 .. i + 1] == [];
  }

  // ---------------------------------------------------------------------
  // Independent triangles (blocks 1 and 7)
  // ---------------------------------------------------------------------

  /** Block 1 reads a point as block 7 does with no texture channel. */
  lemma {:induction false} PairRunIsUntexturedRun(tri: seq<u32>, j: nat, s: St)
    ensures PairRun(tri, j, s) == TexturedCornerRun(tri, 0, j, s)
    decreases j
  {
    if j > 0 && 0 <= s.ti && s.ti + 2 <= |tri| {
      var k: nat := j - 1;
      CornerAtUntextured(tri, s.ti);
      ReadCornerAt(tri, s.ti, 0);
      var s1 := s.(ti := s.ti + 2, mesh := Push(s.mesh, CornerAt(tri, s.ti, 0)));
      PairRunIsUntexturedRun(tri, k, s1);
      assert PairRun(tri, j, s) == PairRun(tri, k, s1);
      assert TexturedCornerRun(tri, 0, j, s) == TexturedCornerRun(tri, 0, k, s1);
    }
  }

  /** The triangle of three consecutive points from `i`. */
  function TripleAt(tri: seq<u32>, i: int, T: nat): Triangle
    requires 0 <= i && i + 3 * (2 + T) <= |tri|
  {
    Triangle(CornerAt(tri, i, T), CornerAt(tri, i + (2 + T), T), CornerAt(tri, i + 2 * (2 + T), T))
  }

  /** One textured point read at `i` moves the cursor to `i1`. */
  lemma TexturedCornerStep(tri: seq<u32>, T: nat, k: nat, k1: nat, i: nat, i1: nat, sz: nat, m: Mesh)
    requires k == k1 + 1 && i1 == i + (2 + T) && i1 <= |tri|
    ensures TexturedCornerRun(tri, T, k, St(i, sz, m)) == TexturedCornerRun(tri, T, k1, St(i1, sz, Push(m, CornerAt(tri, i, T))))
  {
    ReadCornerAt(tri, i, T);
  }

  /** Three textured points read in a row make one triangle. */
  lemma TexturedTriple(tri: seq<u32>, T: nat, i: nat, j: nat, sz: nat, m: Mesh)
    requires j == i + 3 * (2 + T) && j <= |tri|
    ensures TexturedCornerRun(tri, T, 3, St(i, sz, m)) == Ok(St(j, sz, Emit(m, TripleAt(tri, i, T))))
  {
    var i1: nat := i + (2 + T);
    var i2: nat := i + 2 * (2 + T);
    var t := TripleAt(tri, i, T);
    var m1 := Push(m, t.a);
    var m2 := Push(m1, t.b);
    TexturedCornerStep(tri, T, 3, 2, i, i1, sz, m);
    TexturedCornerStep(tri, T, 2, 1, i1, i2, sz, m1);
    TexturedCornerStep(tri, T, 1, 0, i2, j, sz, m2);
    var m3 := Push(m2, t.c);
    assert TexturedCornerRun(tri, T, 0, St(j, sz, m3)) == Ok(St(j, sz, m3));
    assert m3 == Emit(m, t);
  }

  /** The first three points of a run, then the rest. */
  lemma PointsTriple(tri: seq<u32>, T: nat, start: nat, j: nat, n: nat, n3: nat)
    requires n == n3 + 3 && j == start + 3 * (2 + T) && start + Span(n, 2 + T) <= |tri|
    ensures j + Span(n3, 2 + T) == start + Span(n, 2 + T)
    ensures Points(tri, start, T, n)
         == [TripleAt(tri, start, T).a, TripleAt(tri, start, T).b, TripleAt(tri, start, T).c] + Points(tri, j, T, n3)
  {
    var s1: nat := start + (2 + T);
    var s2: nat := start + 2 * (2 + T);
    var n1: nat := n - 1;
    var n2: nat := n - 2;
    PointsStep(tri, T, start, s1, n, n1);
    PointsStep(tri, T, s1, s2, n1, n2);
    PointsStep(tri, T, s2, j, n2, n3);
  }

  /** Independent triangles of the first three corners, then of the rest. */
  lemma GroupsCons(t: Triangle, rest: seq<Corner>)
    ensures Groups([t.a, t.b, t.c] + rest) == [t] + Groups(rest)
  {
    assert ([t.a, t.b, t.c] + rest)[3..] == rest;
  }

  /** Block 7 reads its first triangle, then the rest of the list. */
  lemma TexturedTriangleListStep(tri: seq<u32>, T: nat, count: nat, c: nat, s: St, s1: St)
    requires count == c + 1 && TexturedCornerRun(tri, T, 3, s) == Ok(s1)
    ensures TexturedTriangleList(tri, T, count, s) == TexturedTriangleList(tri, T, c, s1)
  {
  }

  /** The triangles of a run of points: the first triple, then the rest. */
  lemma EmitGroupsStep(tri: seq<u32>, T: nat, n: nat, n3: nat, i: nat, j: nat, m: Mesh)
    requires n == n3 + 3 && j == i + 3 * (2 + T) && i + Span(n, 2 + T) <= |tri|
    ensures j + Span(n3, 2 + T) == i + Span(n, 2 + T)
    ensures EmitAll(Emit(m, TripleAt(tri, i, T)), Groups(Points(tri, j, T, n3)))
         == EmitAll(m, Groups(Points(tri, i, T, n)))
  {
    PointsTriple(tri, T, i, j, n, n3);
    var t := TripleAt(tri, i, T);
    var rest := Points(tri, j, T, n3);
    GroupsCons(t, rest);
    EmitThenAll(m, t, Groups(rest));
  }

  /** Block 7: `count` textured triangles read in a row are the independent
      triangles of the `3 * count` points they cover. */
  lemma {:induction false} TexturedTriangleListEmitsGroups(tri: seq<u32>, T: nat, count: nat, i: nat, sz: nat, m: Mesh)
    requires i + Span(3 * count, 2 + T) <= |tri|
    ensures Yields(TexturedTriangleList(tri, T, count, St(i, sz, m)),
                   i + Span(3 * count, 2 + T), sz, EmitAll(m, Groups(Points(tri, i, T, 3 * count))))
    decreases count
  {
    if count == 0 {
      assert Points(tri, i, T, 0) == [];
    } else {
      var c: nat := count - 1;
      var j: nat := i + 3 * (2 + T);
      var n: nat := 3 * count;
      var n3: nat := 3 * c;
      EmitGroupsStep(tri, T, n, n3, i, j, m);
      var m1 := Emit(m, TripleAt(tri, i, T));
      TexturedTriple(tri, T, i, j, sz, m);
      TexturedTriangleListStep(tri, T, count, c, St(i, sz, m), St(j, sz, m1));
      TexturedTriangleListEmitsGroups(tri, T, c, j, sz, m1);
    }
  }

  /** Block 1 is block 7 with no texture channel. */
  lemma {:induction false} TriangleListIsUntextured(tri: seq<u32>, count: nat, s: St)
    ensures TriangleList(tri, count, s) == TexturedTriangleList(tri, 0, count, s)
    decreases count
  {
    if count > 0 {
      var c: nat := count - 1;
      PairRunIsUntexturedRun(tri, 3, s);
      var r := PairRun(tri, 3, s);
      if r.Ok? {
        var s1 := r.value;
        TriangleListIsUntextured(tri, c, s1);
        assert TriangleList(tri, count, s) == TriangleList(tri, c, s1);
        assert TexturedTriangleList(tri, 0, count, s) == TexturedTriangleList(tri, 0, c, s1);
      }
    }
  }

  /** Block 1: `count` triangles of (normal, vertex) pairs are the independent
      triangles of the `3 * count` points they cover (`Span(n, 2)` is `2 * n`). */
  lemma TriangleListEmitsGroups(tri: seq<u32>, count: nat, i: nat, sz: nat, m: Mesh)
    requires i + Span(3 * count, 2) <= |tri|
    ensures Yields(TriangleList(tri, count, St(i, sz, m)),
                   i + Span(3 * count, 2), sz, EmitAll(m, Groups(Points(tri, i, 0, 3 * count))))
  {
    TriangleListIsUntextured(tri, count, St(i, sz, m));
    TexturedTriangleListEmitsGroups(tri, 0, count, i, sz, m);
  }

  // ---------------------------------------------------------------------
  // Fans and strips with a normal per point (blocks 2 and 3)
  // ---------------------------------------------------------------------

  /** One pass of the fan loop at cursor `i`: the triangle (root, point at
      `i`, point at `i1`) is emitted and the cursor moves to `i1`. */
  lemma FanRingStep(tri: seq<u32>, root: Corner, vert: int, v1: int, last: int, i: nat, i1: nat, sz: nat, msh: Mesh)
    requires vert < last && v1 == vert + 1 && i1 == i + 2 && i1 + 2 <= |tri|
    ensures FanRing(tri, root, vert, last, St(i, sz, msh))
         == FanRing(tri, root, v1, last, St(i1, sz, Emit(msh, Triangle(root, CornerAt(tri, i, 0), CornerAt(tri, i1, 0)))))
  {
    CornerAtUntextured(tri, i);
    CornerAtUntextured(tri, i1);
  }

  /** The fan around the root over `n` points: its first triangle, then the
      fan over the `n1` points after the first. */
  lemma FanEmitStep(tri: seq<u32>, T: nat, root: Corner, i: nat, i1: nat, n: nat, n1: nat, msh: Mesh)
    requires n == n1 + 1 && n1 >= 1 && i1 == i + (2 + T) && i + Span(n, 2 + T) <= |tri|
    ensures i1 + Span(n1, 2 + T) == i + Span(n, 2 + T) && i1 + (2 + T) <= |tri|
    ensures EmitAll(Emit(msh, Triangle(root, CornerAt(tri, i, T), CornerAt(tri, i1, T))), FanOf(root, Points(tri, i1, T, n1)))
         == EmitAll(msh, FanOf(root, Points(tri, i, T, n)))
  {
    var i2: nat := i1 + (2 + T);
    var n2: nat := n1 - 1;
    PointsStep(tri, T, i, i1, n, n1);
    PointsStep(tri, T, i1, i2, n1, n2);
    var q := Points(tri, i, T, n);
    assert q[1..] == Points(tri, i1, T, n1);
    EmitThenAll(msh, Triangle(root, q[0], q[1]), FanOf(root, q[1..]));
  }

  /** `m` passes of the fan loop from cursor `i` emit the fan around the root
      over the `n = m + 1` points from `i` on, and move the cursor over `m` of
      them (the last is only looked at). */
  lemma {:induction false} FanRingEmitsFan(tri: seq<u32>, root: Corner, vert: int, last: int, m: nat, n: nat, i: nat, sz: nat, msh: Mesh)
    requires vert + m == last && n == m + 1 && i + Span(n, 2) <= |tri|
    ensures Yields(FanRing(tri, root, vert, last, St(i, sz, msh)),
                   i + Span(m, 2), sz, EmitAll(msh, FanOf(root, Points(tri, i, 0, n))))
    decreases m
  {
    if m == 0 {
      var none := FanOf(root, Points(tri, i, 0, n));
      assert none == [];
      assert EmitAll(msh, none) == msh;
    } else {
      var v1 := vert + 1;
      var i1: nat := i + 2;
      var m1: nat := m - 1;
      FanEmitStep(tri, 0, root, i, i1, n, m, msh);
      var msh1 := Emit(msh, Triangle(root, CornerAt(tri, i, 0), CornerAt(tri, i1, 0)));
      FanRingStep(tri, root, vert, v1, last, i, i1, sz, msh);
      FanRingEmitsFan(tri, root, v1, last, m1, m, i1, sz, msh1);
      SpanStep(m, m1, 2);
    }
  }

  /** The fan loop's bound `num_pts - 1u` for a fan of at least two points. */
  lemma RingEndOf(numPts: u32, last: int)
    requires numPts >= 1 && last == numPts - 1
    ensures RingEnd(numPts) == last
  {
  }

  /** A fan primitive reads its root, runs the fan loop from one point
      further on and then steps over the last point. */
  lemma FanPrimitiveStep(tri: seq<u32>, numPts: u32, i: nat, i1: nat, sz: nat, msh: Mesh, ti: nat, mesh: Mesh)
    requires i1 == i + 2 && i1 <= |tri|
    requires Yields(FanRing(tri, CornerAt(tri, i, 0), 1, RingEnd(numPts), St(i1, sz, msh)), ti, sz, mesh)
    ensures Yields(FanPrimitive(tri, numPts, St(i, sz, msh)), ti + 2, sz, mesh)
  {
    CornerAtUntextured(tri, i);
  }

  /** Block 2: a fan of `N >= 2` points with a normal each emits the standard
      fan over them, N - 2 triangles sharing the first point, and moves the
      cursor past all of them, 2N entries. */
  lemma FanPrimitiveEmitsFan(tri: seq<u32>, numPts: u32, i: nat, sz: nat, msh: Mesh)
    requires numPts >= 2 && i + Span(numPts, 2) <= |tri|
    ensures Yields(FanPrimitive(tri, numPts, St(i, sz, msh)),
                   i + 2 * numPts, sz, EmitAll(msh, Fan(Points(tri, i, 0, numPts))))
  {
    var N: nat := numPts;
    var last: int := N - 1;
    var m: nat := N - 2;
    var n: nat := N - 1;
    var i1: nat := i + 2;
    RingEndOf(numPts, last);
    SpanIsProduct(N, 2);
    PointsStep(tri, 0, i, i1, N, n);
    var root := CornerAt(tri, i, 0);
    FanRingEmitsFan(tri, root, 1, last, m, n, i1, sz, msh);
    SpanStep(n, m, 2);
    var q := Points(tri, i1, 0, n);
    FanPrimitiveStep(tri, numPts, i, i1, sz, msh, i1 + Span(m, 2), EmitAll(msh, FanOf(root, q)));
    var p := Points(tri, i, 0, N);
    assert p[0] == root && p[1..] == q;
    assert Fan(p) == FanOf(root, q);
    assert i1 + Span(m, 2) + 2 == i + 2 * numPts;
  }

  /** One pass of the strip loop with the previous point at `h`, the current
      one at `i` and the next one at `i1`. */
  lemma StripeRunStep(tri: seq<u32>, vert: int, v1: int, last: int, h: nat, i: nat, i1: nat, sz: nat, msh: Mesh)
    requires vert < last && v1 == vert + 1 && i == h + 2 && i1 == i + 2 && i1 + 2 <= |tri|
    ensures StripeRun(tri, vert, last, St(i, sz, msh))
         == StripeRun(tri, v1, last, St(i1, sz, Emit(msh, StripTriangle(vert, CornerAt(tri, h, 0), CornerAt(tri, i, 0), CornerAt(tri, i1, 0)))))
  {
    CornerAtUntextured(tri, h);
    CornerAtUntextured(tri, i);
    CornerAtUntextured(tri, i1);
  }

  /** The strip over `n` points from `h`: its first triangle, then the strip
      over the `n1` points after the first. */
  lemma StripEmitStep(tri: seq<u32>, T: nat, vert: int, v1: int, h: nat, i: nat, i1: nat, n: nat, n1: nat, msh: Mesh)
    requires n == n1 + 1 && n1 >= 2 && v1 == vert + 1 && i == h + (2 + T) && i1 == i + (2 + T) && h + Span(n, 2 + T) <= |tri|
    ensures i + Span(n1, 2 + T) == h + Span(n, 2 + T) && i1 + (2 + T) <= |tri|
    ensures EmitAll(Emit(msh, StripTriangle(vert, CornerAt(tri, h, T), CornerAt(tri, i, T), CornerAt(tri, i1, T))), StripFrom(v1, Points(tri, i, T, n1)))
         == EmitAll(msh, StripFrom(vert, Points(tri, h, T, n)))
  {
    var i2: nat := i1 + (2 + T);
    var n2: nat := n1 - 1;
    var n3: nat := n2 - 1;
    PointsStep(tri, T, h, i, n, n1);
    PointsStep(tri, T, i, i1, n1, n2);
    PointsStep(tri, T, i1, i2, n2, n3);
    var x := CornerAt(tri, h, T);
    var q := Points(tri, i, T, n1);
    StripCons(vert, x, q);
    EmitThenAll(msh, StripTriangle(vert, x, q[0], q[1]), StripFrom(v1, q));
  }

  /** The strip loop with no pass left emits nothing. */
  lemma StripeRunDone(tri: seq<u32>, vert: int, last: int, n: nat, h: nat, i: nat, sz: nat, msh: Mesh)
    requires vert == last && n == 2 && h + Span(n, 2) <= |tri|
    ensures Yields(StripeRun(tri, vert, last, St(i, sz, msh)),
                   i + Span(0, 2), sz, EmitAll(msh, StripFrom(vert, Points(tri, h, 0, n))))
  {
    var none := StripFrom(vert, Points(tri, h, 0, n));
    assert none == [];
    assert EmitAll(msh, none) == msh;
  }

  /** `m` passes of the strip loop from cursor `i` emit the strip, starting at
      loop position `vert`, over the point before the cursor and the `m + 1`
      points from `i` on (`n = m + 2` points from `h = i - 2`). */
  lemma {:induction false} StripeRunEmitsStrip(tri: seq<u32>, vert: int, last: int, m: nat, n: nat, h: nat, i: nat, sz: nat, msh: Mesh)
    requires vert + m == last && n == m + 2 && i == h + 2 && h + Span(n, 2) <= |tri|
    ensures Yields(StripeRun(tri, vert, last, St(i, sz, msh)),
                   i + Span(m, 2), sz, EmitAll(msh, StripFrom(vert, Points(tri, h, 0, n))))
    decreases m
  {
    if m == 0 {
      StripeRunDone(tri, vert, last, n, h, i, sz, msh);
    } else {
      var v1 := vert + 1;
      var i1: nat := i + 2;
      var m1: nat := m - 1;
      var n1: nat := n - 1;
      StripEmitStep(tri, 0, vert, v1, h, i, i1, n, n1, msh);
      var msh1 := Emit(msh, StripTriangle(vert, CornerAt(tri, h, 0), CornerAt(tri, i, 0), CornerAt(tri, i1, 0)));
      StripeRunStep(tri, vert, v1, last, h, i, i1, sz, msh);
      StripeRunEmitsStrip(tri, v1, last, m1, n1, i, i1, sz, msh1);
      SpanStep(m, m1, 2);
    }
  }

  /** A strip primitive runs the strip loop from one point further on and
      then steps over the last point. */
  lemma StripePrimitiveStep(tri: seq<u32>, numPts: u32, i: nat, i1: nat, sz: nat, msh: Mesh, ti: nat, mesh: Mesh)
    requires i1 == i + 2
    requires Yields(StripeRun(tri, 1, RingEnd(numPts), St(i1, sz, msh)), ti, sz, mesh)
    ensures Yields(StripePrimitive(tri, numPts, St(i, sz, msh)), ti + 2, sz, mesh)
  {
    var r := StripeRun(tri, 1, RingEnd(numPts), St(i1, sz, msh));
    assert StripePrimitive(tri, numPts, St(i, sz, msh)) == Ok(r.value.(ti := r.value.ti + 2));
  }

  /** Block 3: a strip of `N >= 2` points with a normal each emits the
      standard strip over them, N - 2 triangles of alternating winding, and
      moves the cursor past all of them, 2N entries. */
  lemma StripePrimitiveEmitsStrip(tri: seq<u32>, numPts: u32, i: nat, sz: nat, msh: Mesh)
    requires numPts >= 2 && i + Span(numPts, 2) <= |tri|
    ensures Yields(StripePrimitive(tri, numPts, St(i, sz, msh)),
                   i + 2 * numPts, sz, EmitAll(msh, Strip(Points(tri, i, 0, numPts))))
  {
    var N: nat := numPts;
    var last: int := N - 1;
    var m: nat := N - 2;
    var i1: nat := i + 2;
    RingEndOf(numPts, last);
    SpanIsProduct(N, 2);
    var p := Points(tri, i, 0, N);
    StripeRunEmitsStrip(tri, 1, last, m, N, i, i1, sz, msh);
    StripePrimitiveStep(tri, numPts, i, i1, sz, msh, i1 + Span(m, 2), EmitAll(msh, StripFrom(1, p)));
    SpanAdd(1, m, 2);
    assert i1 + Span(m, 2) + 2 == i + 2 * numPts;
    assert Strip(p) == StripFrom(1, p);
  }
}
