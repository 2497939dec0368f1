/** The decoded per-face mesh: three flat index lists filled corner by corner,
    and the reference triangulations (fan, strip, independent triangles) that
    the decoders are proved to produce. */
module TessMesh {
  import opened Bits

  /** One corner of an emitted triangle: a normal index, the texture-coordinate
      indexes of all texture channels (empty when untextured) and a vertex index. */
  datatype Corner = Corner(normal: u32, texture: seq<u32>, vertex: u32)

  datatype Triangle = Triangle(a: Corner, b: Corner, c: Corner)

  /** The helper's `_normals`, `_vertices` and `_texture` lists. */
  datatype Mesh = Mesh(normals: seq<u32>, vertices: seq<u32>, texture: seq<u32>)

  const EmptyMesh := Mesh([], [], [])

  /** One `push_back` of a normal and a vertex, with the corner's texture indexes. */
  function Push(m: Mesh, c: Corner): Mesh {
    Mesh(m.normals + [c.normal], m.vertices + [c.vertex], m.texture + c.texture)
  }

  /** The three corners of `t`, pushed in order. */
  function Emit(m: Mesh, t: Triangle): Mesh {
    Push(Push(Push(m, t.a), t.b), t.c)
  }

  /** The triangles `ts`, emitted in order. */
  function EmitAll(m: Mesh, ts: seq<Triangle>): (r: Mesh)
    ensures Extends(m, r)
    ensures |r.vertices| == |m.vertices| + 3 * |ts|
    decreases |ts|
  {
    if ts == [] then m else EmitAll(Emit(m, ts[0]), ts[1..])
  }

  /** `r` is `m` followed by whole triangles: every list only grew at its end,
      the normal and vertex lists by the same number of entries, a multiple of 3. */
  predicate Extends(m: Mesh, r: Mesh) {
    && m.normals <= r.normals
    && m.vertices <= r.vertices
    && m.texture <= r.texture
    && |r.normals| - |m.normals| == |r.vertices| - |m.vertices|
    && (|r.vertices| - |m.vertices|) % 3 == 0
  }

  /** `r` is `m` followed by exactly `k` corners. */
  predicate Grows(m: Mesh, r: Mesh, k: nat) {
    && m.normals <= r.normals
    && m.vertices <= r.vertices
    && m.texture <= r.texture
    && |r.normals| == |m.normals| + k
    && |r.vertices| == |m.vertices| + k
  }

  /** The invariant the accessors document: as many normals as vertices,
      and both read as whole triangles. */
  predicate Balanced(m: Mesh) {
    |m.normals| == |m.vertices| && |m.vertices| % 3 == 0
  }

  /** Whatever was pushed between `m` and `r` keeps a balanced mesh balanced. */
  predicate KeepsBalance(m: Mesh, r: Mesh) {
    Balanced(m) ==> Balanced(r)
  }

  lemma {:induction false} EmitAllAppend(m: Mesh, xs: seq<Triangle>, ys: seq<Triangle>)
    ensures EmitAll(EmitAll(m, xs), ys) == EmitAll(m, xs + ys)
    decreases |xs|
  {
    if xs != [] {
      assert (xs + ys)[0] == xs[0];
      assert (xs + ys)[1..] == xs[1..] + ys;
      EmitAllAppend(Emit(m, xs[0]), xs[1..], ys);
    } else {
      assert xs + ys == ys;
    }
  }

  /** Emitting one triangle and then a list is emitting the longer list. */
  lemma EmitThenAll(m: Mesh, t: Triangle, ts: seq<Triangle>)
    ensures EmitAll(Emit(m, t), ts) == EmitAll(m, [t] + ts)
  {
    assert ([t] + ts)[0] == t;
    assert ([t] + ts)[1..] == ts;
  }

  // ---------------------------------------------------------------------
  // Index layouts
  // ---------------------------------------------------------------------

  /** The number of index entries taken by `n` points of `w` entries each:
      `n * w`, written as repeated addition so that bounds stay linear. */
  function Span(n: nat, w: nat): nat
    decreases n
  {
    if n == 0 then 0 else w + Span(n - 1, w)
  }

  lemma {:induction false} SpanIsProduct(n: nat, w: nat)
    ensures Span(n, w) == n * w
    decreases n
  {
    if n > 0 {
      SpanIsProduct(n - 1, w);
    }
  }

  lemma {:induction false} SpanAdd(a: nat, b: nat, w: nat)
    ensures Span(a + b, w) == Span(a, w) + Span(b, w)
    decreases a
  {
    if a > 0 {
      SpanAdd(a - 1, b, w);
    }
  }

  lemma SpanStep(n: nat, n1: nat, w: nat)
    requires n == n1 + 1
    ensures Span(n, w) == w + Span(n1, w)
  {
  }

  /** A point stored with its own normal: the normal index, then `T` texture
      indexes, then the vertex index, starting at `i`. */
  function CornerAt(tri: seq<u32>, i: int, T: nat): Corner
    requires 0 <= i && i + 2 + T <= |tri|
  {
    Corner(tri[i], tri[i + 1 .. i + 1 + T], tri[i + 1 + T])
  }

  /** `n` consecutive points in the per-vertex-normal layout starting at `start`. */
  function Points(tri: seq<u32>, start: int, T: nat, n: nat): (p: seq<Corner>)
    requires 0 <= start && start + Span(n, 2 + T) <= |tri|
    ensures |p| == n
    decreases n
  {
    if n == 0 then []
    else
      [CornerAt(tri, start, T)] + Points(tri, start + 2 + T, T, n - 1)
  }

  /** `n` consecutive points that share the normal `normal`: each stores `T`
      texture indexes, then the vertex index, starting at `start`. */
  function SharedPoints(tri: seq<u32>, start: int, normal: u32, T: nat, n: nat): (p: seq<Corner>)
    requires 0 <= start && start + Span(n, 1 + T) <= |tri|
    ensures |p| == n
    decreases n
  {
    if n == 0 then []
    else
      [Corner(normal, tri[start .. start + T], tri[start + T])]
        + SharedPoints(tri, start + 1 + T, normal, T, n - 1)
  }

  /** `count` triangles in the one-normal layout from `start`: each is a
      normal index followed by three vertex indexes, and all three corners
      carry that normal. */
  function NormalTriangles(tri: seq<u32>, start: int, count: nat): (r: seq<Triangle>)
    requires 0 <= start && start + Span(count, 4) <= |tri|
    ensures |r| == count
    decreases count
  {
    if count == 0 then []
    else
      var n := tri[start];
      [Triangle(Corner(n, [], tri[start + 1]), Corner(n, [], tri[start + 2]), Corner(n, [], tri[start + 3]))]
        + NormalTriangles(tri, start + 4, count - 1)
  }

  // ---------------------------------------------------------------------
  // Reference triangulations
  // ---------------------------------------------------------------------

  /** Independent triangles: consecutive corner triples. */
  function Groups(p: seq<Corner>): (r: seq<Triangle>)
    ensures 3 * |r| <= |p| < 3 * |r| + 3
    decreases |p|
  {
    if |p| < 3 then [] else [Triangle(p[0], p[1], p[2])] + Groups(p[3..])
  }

  /** The fan around `root` over the ring `q`: (root, q[0], q[1]),
      (root, q[1], q[2]), ... */
  function FanOf(root: Corner, q: seq<Corner>): (r: seq<Triangle>)
    ensures |q| >= 1 ==> |r| == |q| - 1
    decreases |q|
  {
    if |q| < 2 then [] else [Triangle(root, q[0], q[1])] + FanOf(root, q[1..])
  }

  /** The standard fan over points `p`: triangle `k` (from 0) is
      (p[0], p[k + 1], p[k + 2]). */
  function Fan(p: seq<Corner>): (r: seq<Triangle>)
    requires |p| >= 2
    ensures |r| == |p| - 2
  {
    FanOf(p[0], p[1..])
  }

  /** The triangle a strip emits at loop position `vert` (counted from 1) from
      the previous, current and next points: odd positions give
      (current, next, previous), even ones (current, previous, next). */
  function StripTriangle(vert: int, prev: Corner, cur: Corner, next: Corner): Triangle {
    if vert % 2 == 1 then Triangle(cur, next, prev) else Triangle(cur, prev, next)
  }

  /** The strip over points `p` whose first triangle sits at loop position `vert`. */
  function StripFrom(vert: int, p: seq<Corner>): (r: seq<Triangle>)
    requires |p| >= 2
    ensures |r| == |p| - 2
  {
    seq(|p| - 2, k requires 0 <= k < |p| - 2 => StripTriangle(vert + k, p[k], p[k + 1], p[k + 2]))
  }

  /** The standard strip over points `p`: triangle `k` uses p[k], p[k + 1], p[k + 2]
      with alternating winding. */
  function Strip(p: seq<Corner>): (r: seq<Triangle>)
    requires |p| >= 2
    ensures |r| == |p| - 2
  {
    StripFrom(1, p)
  }

  /** Triangles that all share `root` and take the points of `q` two at a
      time: (root, q[0], q[1]), (root, q[2], q[3]), ... */
  function RootedPairs(root: Corner, q: seq<Corner>): (r: seq<Triangle>)
    requires |q| % 2 == 0
    ensures |r| == |q| / 2
    decreases |q|
  {
    if q == [] then [] else [Triangle(root, q[0], q[1])] + RootedPairs(root, q[2..])
  }

  // ---------------------------------------------------------------------
  // Facts about the reference triangulations
  // ---------------------------------------------------------------------

  /** Triangle `i` of the independent triangles is made of corners
      3i, 3i + 1 and 3i + 2. */
  lemma {:induction false} GroupsAt(p: seq<Corner>, i: nat)
    requires 3 * i + 3 <= |p|
    ensures Groups(p)[i] == Triangle(p[3 * i], p[3 * i + 1], p[3 * i + 2])
    decreases |p|
  {
    if i > 0 {
      GroupsAt(p[3..], i - 1);
      assert p[3..][3 * (i - 1)] == p[3 * i];
      assert p[3..][3 * (i - 1) + 1] == p[3 * i + 1];
      assert p[3..][3 * (i - 1) + 2] == p[3 * i + 2];
    }
  }

  /** Triangle `k` of a rooted-pairs fan is the root with points 2k and 2k + 1. */
  lemma {:induction false} RootedPairsAt(root: Corner, q: seq<Corner>, k: nat)
    requires |q| % 2 == 0 && k < |q| / 2
    ensures RootedPairs(root, q)[k] == Triangle(root, q[2 * k], q[2 * k + 1])
    decreases |q|
  {
    if k > 0 {
      RootedPairsAt(root, q[2..], k - 1);
      assert q[2..][2 * (k - 1)] == q[2 * k];
      assert q[2..][2 * (k - 1) + 1] == q[2 * k + 1];
    }
  }

  /** A strip's first triangle, then the strip from the next point on. */
  lemma StripCons(vert: int, x: Corner, q: seq<Corner>)
    requires |q| >= 2
    ensures StripFrom(vert, [x] + q) == [StripTriangle(vert, x, q[0], q[1])] + StripFrom(vert + 1, q)
  {
    var p := [x] + q;
    var lhs, rhs := StripFrom(vert, p), [StripTriangle(vert, x, q[0], q[1])] + StripFrom(vert + 1, q);
    assert |lhs| == |rhs|;
    forall k | 0 <= k < |lhs| ensures lhs[k] == rhs[k] {
      if k > 0 {
        assert p[k] == q[k - 1] && p[k + 1] == q[k] && p[k + 2] == q[k + 1];
      }
    }
  }

  /** `t` has the directed edge x -> y in its winding. */
  predicate HasDirectedEdge(t: Triangle, x: Corner, y: Corner) {
    (t.a == x && t.b == y) || (t.b == x && t.c == y) || (t.c == x && t.a == y)
  }

  /** Alternating winding: two consecutive strip triangles run their shared
      edge p[k + 1]–p[k + 2] in opposite directions, so the strip is
      consistently oriented. */
  lemma StripWindingAlternates(p: seq<Corner>, k: nat)
    requires |p| >= 2 && k + 1 < |Strip(p)|
    ensures
      || (HasDirectedEdge(Strip(p)[k], p[k + 1], p[k + 2]) && HasDirectedEdge(Strip(p)[k + 1], p[k + 2], p[k + 1]))
      || (HasDirectedEdge(Strip(p)[k], p[k + 2], p[k + 1]) && HasDirectedEdge(Strip(p)[k + 1], p[k + 1], p[k + 2]))
  {
    var s := Strip(p);
    assert s[k] == StripTriangle(1 + k, p[k], p[k + 1], p[k + 2]);
    assert s[k + 1] == StripTriangle(1 + k + 1, p[k + 1], p[k + 2], p[k + 3]);
    if (1 + k) % 2 == 1 {
      assert (1 + k + 1) % 2 == 0;
    } else {
      assert (1 + k + 1) % 2 == 1;
    }
  }

  /** Triangle `k` of a fan around `root` is the root with ring points k
      and k + 1. */
  lemma {:induction false} FanOfAt(root: Corner, q: seq<Corner>, k: nat)
    requires k + 1 < |q|
    ensures FanOf(root, q)[k] == Triangle(root, q[k], q[k + 1])
    decreases |q|
  {
    if k > 0 {
      FanOfAt(root, q[1..], k - 1);
    }
  }

  /** Every triangle of a fan starts at the first point, and triangle `k`
      continues with points k + 1 and k + 2. */
  lemma FanSharesRoot(p: seq<Corner>, k: nat)
    requires |p| >= 2 && k < |Fan(p)|
    ensures Fan(p)[k].a == p[0]
    ensures Fan(p)[k].b == p[k + 1] && Fan(p)[k].c == p[k + 2]
  {
    FanOfAt(p[0], p[1..], k);
  }

  /** Points that share a normal carry it at every corner. */
  lemma {:induction false} SharedPointsNormal(tri: seq<u32>, start: int, normal: u32, T: nat, n: nat, j: nat)
    requires 0 <= start && start + Span(n, 1 + T) <= |tri| && j < n
    ensures SharedPoints(tri, start, normal, T, n)[j].normal == normal
    decreases n
  {
    if j > 0 {
      SharedPointsNormal(tri, start + 1 + T, normal, T, n - 1, j - 1);
    }
  }

  /** A run of points is its first point, then the run one stride further
      (`next` is the start of the second point, `n1` the remaining count). */
  lemma PointsStep(tri: seq<u32>, T: nat, start: nat, next: nat, n: nat, n1: nat)
    requires n == n1 + 1 && next == start + (2 + T) && start + Span(n, 2 + T) <= |tri|
    ensures next + Span(n1, 2 + T) == start + Span(n, 2 + T)
    ensures Points(tri, start, T, n) == [CornerAt(tri, start, T)] + Points(tri, next, T, n1)
  {
  }

  /** A run of points sharing a normal is its first point, then the run one
      stride further. */
  lemma SharedPointsStep(tri: seq<u32>, normal: u32, T: nat, start: nat, next: nat, n: nat, n1: nat)
    requires n == n1 + 1 && next == start + (1 + T) && start + Span(n, 1 + T) <= |tri|
    ensures next + Span(n1, 1 + T) == start + Span(n, 1 + T)
    ensures SharedPoints(tri, start, normal, T, n)
         == [Corner(normal, tri[start .. start + T], tri[start + T])] + SharedPoints(tri, next, normal, T, n1)
  {
  }

  /** Point `j` of a per-vertex-normal run lies `j` strides after its start. */
  lemma {:induction false} PointsAt(tri: seq<u32>, start: int, T: nat, n: nat, j: nat)
    requires 0 <= start && start + Span(n, 2 + T) <= |tri| && j < n
    ensures start + Span(j + 1, 2 + T) <= |tri|
    ensures Points(tri, start, T, n)[j] == CornerAt(tri, start + Span(j, 2 + T), T)
    decreases n
  {
    var n1: nat := n - 1;
    var next := start + 2 + T;
    PointsStep(tri, T, start, next, n, n1);
    SpanStep(j + 1, j, 2 + T);
    if j > 0 {
      var j1: nat := j - 1;
      PointsAt(tri, next, T, n1, j1);
      SpanStep(j, j1, 2 + T);
      assert next + Span(j1, 2 + T) == start + Span(j, 2 + T);
      assert Points(tri, start, T, n)[j] == Points(tri, next, T, n1)[j1];
    }
  }
}
