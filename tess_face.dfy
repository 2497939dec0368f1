/** The `TessFaceDataHelper` class (ExchangeToolkit.h): its constructor runs
    the twelve triangle blocks and the wire loop over the object's lists, and
    its accessors hand the lists out. Every loop of the constructor is a
    method proved to leave the lists as the matching specification function
    of `TessDecode` or `TessWire` says. */
module TessFace {
  import opened Bits
  import opened Wrappers
  import opened TessMesh
  import opened TessDecode
  import opened TessWire
  import opened TessHelper

  /** `n` consecutive entries from `i`, read one at a time, as the source's
      `for (i = 0; i < T; ++i) ...push_back(triangulatedIndexes[ti_index++])`. */
  method ReadIndexes(tri: seq<u32>, i: nat, n: nat) returns (t: seq<u32>)
    requires i + n <= |tri|
    ensures ReadRun(tri, i, n) == Ok(t)
  {
    t := [];
    var j := 0;
    while j < n
      invariant j <= n
      invariant t == tri[i .. i + j]
    {
      t := t + [tri[i + j]];
      j := j + 1;
    }
    ReadRunIs(tri, i, n);
  }

  /** One point with its own normal: normal, `T` texture indexes, vertex. */
  method ReadPoint(tri: seq<u32>, i: nat, T: nat) returns (c: Corner)
    requires i + 2 + T <= |tri|
    ensures ReadCorner(tri, i, T) == Ok(c)
  {
    var n := tri[i];
    var t := ReadIndexes(tri, i + 1, T);
    var v := tri[i + 1 + T];
    c := Corner(n, t, v);
  }

  /** The `n` wire indexes of one edge, pushed one at a time as the
      source's `for (vidx = 0; vidx < nvertices; ++vidx)` does. */
  method ReadWireIndexes(wire: seq<u32>, wi: nat, n: nat) returns (vs: seq<u32>)
    requires ReadWire(wire, wi, n).Ok?
    ensures ReadWire(wire, wi, n) == Ok(vs)
  {
    vs := [];
    var vidx := 0;
    while vidx < n
      invariant vidx <= n && |vs| == vidx
      invariant forall j :: 0 <= j < vidx ==> vs[j] == wire[wi + j]
    {
      vs := vs + [wire[wi + vidx]];
      vidx := vidx + 1;
    }
    if n > 0 {
      assert vs == wire[wi .. wi + n];
    }
  }

  class TessFaceDataHelper {
    var normals: seq<u32>
    var vertices: seq<u32>
    var texture: seq<u32>
    var loops: seq<TessLoop>

    /** The three index lists as a mesh. */
    function Cur(): Mesh
      reads this
    {
      Mesh(normals, vertices, texture)
    }

    /** What every helper keeps: one normal per vertex, corners in threes,
        and no loop without an edge. */
    ghost predicate Valid()
      reads this
    {
      && Balanced(Cur())
      && forall l :: l in loops ==> |l.edges| > 0
    }

    /** The helper built from a face's data and the two index buffers:
        its lists are exactly what the twelve blocks and the wire loop
        decode. The source reads the buffers unchecked, so every read must
        land inside them. */
    constructor(k: TessConstants, d: TessFaceData, tri: seq<u32>, wire: seq<u32>)
      requires DecodeTriangles(k, d, tri).Ok? && DecodeWires(k, d, wire).Ok?
      ensures Cur() == DecodeTriangles(k, d, tri).value.mesh
      ensures loops == DecodeWires(k, d, wire).value
      ensures Valid()
    {
      normals, vertices, texture, loops := [], [], [], [];
      new;
      var ti, sz := DecodeBlocks(k, View(k, d), tri, d.startTriangulated);
      WireLoop(k, d.sizesWires, wire, d.startWire);
    }

    /** The twelve gated blocks in the source's order, from the cursor at
        `m_uiStartTriangulated` and the first size entry. */
    method DecodeBlocks(k: TessConstants, v: FaceView, tri: seq<u32>, ti0: nat) returns (ti: nat, sz: nat)
      modifies this
      requires BlocksFrom(k, v, tri, 0, St(ti0, 0, Cur())).Ok?
      ensures Yields(BlocksFrom(k, v, tri, 0, St(ti0, 0, old(Cur()))), ti, sz, Cur()) && loops == old(loops)
    {
      ti, sz := SixBlocks(k, v, tri, 0, ti0, 0);
      ti, sz := SixBlocks(k, v, tri, 6, ti, sz);
    }

    /** Blocks `i` to `i + 5`, one after the other. */
    method SixBlocks(k: TessConstants, v: FaceView, tri: seq<u32>, i: nat, ti0: nat, sz0: nat) returns (ti: nat, sz: nat)
      modifies this
      requires i + 6 <= 12 && BlocksFrom(k, v, tri, i, St(ti0, sz0, Cur())).Ok?
      ensures BlocksFrom(k, v, tri, i + 6, St(ti, sz, Cur())) == BlocksFrom(k, v, tri, i, St(ti0, sz0, old(Cur())))
      ensures loops == old(loops)
    {
      ti, sz := ThreeBlocks(k, v, tri, i, ti0, sz0);
      ti, sz := ThreeBlocks(k, v, tri, i + 3, ti, sz);
    }

    /** Blocks `i`, `i + 1` and `i + 2`, one after the other. */
    method ThreeBlocks(k: TessConstants, v: FaceView, tri: seq<u32>, i: nat, ti0: nat, sz0: nat) returns (ti: nat, sz: nat)
      modifies this
      requires i + 3 <= 12 && BlocksFrom(k, v, tri, i, St(ti0, sz0, Cur())).Ok?
      ensures BlocksFrom(k, v, tri, i + 3, St(ti, sz, Cur())) == BlocksFrom(k, v, tri, i, St(ti0, sz0, old(Cur())))
      ensures loops == old(loops)
    {
      ti, sz := GatedBlock(k, v, tri, i, ti0, sz0);
      ti, sz := GatedBlock(k, v, tri, i + 1, ti, sz);
      ti, sz := GatedBlock(k, v, tri, i + 2, ti, sz);
    }

    /** `vertices()`: a multiple of 3, as its documentation promises. */
    function Vertices(): (r: seq<u32>)
      reads this
      requires Valid()
      ensures r == vertices && |r| % 3 == 0
    {
      vertices
    }

    /** `normals()`: one normal index per vertex index, so a multiple of 3. */
    function Normals(): (r: seq<u32>)
      reads this
      requires Valid()
      ensures r == normals && |r| == |vertices| && |r| % 3 == 0
    {
      normals
    }

    /** `textures()`: the texture indexes pushed by the textured blocks. */
    function Textures(): (r: seq<u32>)
      reads this
      ensures r == texture
    {
      texture
    }

    /** `loops()`: the edge loops bounding the face, none of them empty. */
    function Loops(): (r: seq<TessLoop>)
      reads this
      requires Valid()
      ensures r == loops && forall l :: l in r ==> |l.edges| > 0
    {
      loops
    }

    /** Block `i` behind its gate: the plain-triangle block checks only its
        entity flag, every later one also an unread size entry. */
    method GatedBlock(k: TessConstants, v: FaceView, tri: seq<u32>, i: nat, ti0: nat, sz0: nat) returns (ti: nat, sz: nat)
      modifies this
      requires i < 12 && BlocksFrom(k, v, tri, i, St(ti0, sz0, Cur())).Ok?
      ensures BlocksFrom(k, v, tri, i + 1, St(ti, sz, Cur())) == BlocksFrom(k, v, tri, i, St(ti0, sz0, old(Cur())))
      ensures loops == old(loops)
    {
      ghost var s := St(ti0, sz0, Cur());
      ti, sz := ti0, sz0;
      if (i == 0 || |v.sizesTriangulated| > sz0) && v.usedEntitiesFlags & Flag(k, i) != 0 {
        FlagSetRuns(k, v, tri, i, s);
        if i == 0 {
          ti, sz := TriangleBlockLoop(v, tri, ti0, sz0);
        } else if i == 1 {
          ti, sz := FanBlockLoop(v, tri, ti0, sz0);
        } else if i == 2 {
          ti, sz := StripeBlockLoop(v, tri, ti0, sz0);
        } else if i == 3 {
          ti, sz := OneNormalTriangleBlockLoop(v, tri, ti0, sz0);
        } else if i == 4 {
          ti, sz := OneNormalFanBlockLoop(v, tri, ti0, sz0);
        } else if i == 5 {
          ti, sz := OneNormalStripeBlockLoop(v, tri, ti0, sz0);
        } else if i == 6 {
          ti, sz := TexturedTriangleBlockLoop(v, tri, ti0, sz0);
        } else if i == 7 {
          ti, sz := TexturedFanBlockLoop(v, tri, ti0, sz0);
        } else if i == 8 {
          ti, sz := TexturedStripeBlockLoop(v, tri, ti0, sz0);
        } else if i == 9 {
          ti, sz := OneNormalTexturedTriangleBlockLoop(v, tri, ti0, sz0);
        } else if i == 10 {
          ti, sz := OneNormalTexturedFanBlockLoop(v, tri, ti0, sz0);
        } else {
          ti, sz := OneNormalTexturedStripeBlockLoop(v, tri, ti0, sz0);
        }
      } else if v.usedEntitiesFlags & Flag(k, i) == 0 {
        FlagClearSkips(k, v, tri, i, s);
      } else {
        ExhaustedSkipsRest(k, v, tri, i, s);
        ExhaustedSkipsRest(k, v, tri, i + 1, s);
      }
    }

    /** One size entry of the wire loop: its edge joins the open loop, and a
        closing entry hands that loop over to `loops` and starts a new one. */
    method WireEntry(k: TessConstants, sizes: seq<bv32>, wire: seq<u32>, idx: nat, wi0: nat, current0: seq<TessEdge>)
      returns (wi: nat, current: seq<TessEdge>)
      modifies this
      requires idx < |sizes| && WireFrom(k, sizes, wire, idx, wi0, current0, loops).Ok?
      ensures WireFrom(k, sizes, wire, idx + 1, wi, current, loops) == WireFrom(k, sizes, wire, idx, wi0, current0, old(loops))
      ensures forall l :: l in loops ==> l in old(loops) || |l.edges| > 0
      ensures Cur() == old(Cur())
    {
      WireFails(k, sizes, wire, idx, wi0, current0, loops);
      var entry := sizes[idx];
      var nvertices := EdgeLength(k, entry);
      var edge := ReadWireIndexes(wire, wi0, nvertices);
      WireNext(k, sizes, wire, idx, wi0, current0, loops, edge);
      current := current0 + [TessEdge(edge, !Hidden(k, entry))];
      if Closes(k, entry) {
        loops := loops + [TessLoop(current)];
        current := [];
      }
      wi := wi0 + nvertices;
    }

    /** The wire loop from `m_uiStartWire`, over every wire size entry. */
    method WireLoop(k: TessConstants, sizes: seq<bv32>, wire: seq<u32>, wi0: nat)
      modifies this
      requires WireFrom(k, sizes, wire, 0, wi0, [], loops).Ok?
      ensures WireFrom(k, sizes, wire, 0, wi0, [], old(loops)) == Ok(loops)
      ensures (forall l :: l in old(loops) ==> |l.edges| > 0) ==> forall l :: l in loops ==> |l.edges| > 0
      ensures Cur() == old(Cur())
    {
      ghost var target := WireFrom(k, sizes, wire, 0, wi0, [], loops);
      ghost var nonEmpty := forall l :: l in loops ==> |l.edges| > 0;
      var wi: nat := wi0;
      var currentLoop: seq<TessEdge> := [];
      var idx := 0;
      while idx < |sizes|
        invariant idx <= |sizes|
        invariant WireFrom(k, sizes, wire, idx, wi, currentLoop, loops) == target
        invariant nonEmpty ==> forall l :: l in loops ==> |l.edges| > 0
        invariant Cur() == old(Cur())
      {
        wi, currentLoop := WireEntry(k, sizes, wire, idx, wi, currentLoop);
        idx := idx + 1;
      }
    }

    // -------------------------------------------------------------------
    // Pushes
    // -------------------------------------------------------------------

    /** `_normals.push_back(n)`, the texture indexes, `_vertices.push_back(v)`. */
    method PushCorner(c: Corner)
      modifies this
      ensures Cur() == Push(old(Cur()), c) && loops == old(loops)
    {
      normals := normals + [c.normal];
      texture := texture + c.texture;
      vertices := vertices + [c.vertex];
    }

    /** The three corners of `t`, in order. */
    method PushTriangle(t: Triangle)
      modifies this
      ensures Cur() == Emit(old(Cur()), t) && loops == old(loops)
    {
      PushCorner(t.a);
      PushCorner(t.b);
      PushCorner(t.c);
    }

    // -------------------------------------------------------------------
    // Block 1: kA3DTessFaceDataTriangle
    // -------------------------------------------------------------------

    /** `for (vert = 0; vert < 3; vert++)`: `j` (normal, vertex) pairs. */
    method PairLoop(tri: seq<u32>, j: nat, ti0: nat, ghost sz: nat) returns (ti: nat)
      modifies this
      requires PairRun(tri, j, St(ti0, sz, Cur())).Ok?
      ensures Yields(PairRun(tri, j, St(ti0, sz, old(Cur()))), ti, sz, Cur()) && loops == old(loops)
    {
      ghost var target := PairRun(tri, j, St(ti0, sz, Cur()));
      ti := ti0;
      var left := j;
      while left > 0
        invariant PairRun(tri, left, St(ti, sz, Cur())) == target && loops == old(loops)
      {
        ghost var s := St(ti, sz, Cur());
        PairRunFails(tri, left, s);
        var n := tri[ti];
        var v := tri[ti + 1];
        PairRunNext(tri, left, s, n, v);
        PushCorner(Corner(n, [], v));
        ti := ti + 2;
        left := left - 1;
      }
    }

    /** One triangle: three (normal, vertex) pairs. */
    method TriangleStep(tri: seq<u32>, count: nat, ti0: nat, ghost sz: nat) returns (ti: nat)
      modifies this
      requires count > 0 && TriangleList(tri, count, St(ti0, sz, Cur())).Ok?
      ensures TriangleList(tri, count - 1, St(ti, sz, Cur())) == TriangleList(tri, count, St(ti0, sz, old(Cur())))
      ensures loops == old(loops)
    {
      ghost var s := St(ti0, sz, Cur());
      TriangleListFails(tri, count, s);
      ti := PairLoop(tri, 3, ti0, sz);
      TriangleListNext(tri, count, s, St(ti, sz, Cur()));
    }

    /** `for (tri = 0; tri < numTris; tri++)`. */
    method TriangleListLoop(tri: seq<u32>, count: nat, ti0: nat, ghost sz: nat) returns (ti: nat)
      modifies this
      requires TriangleList(tri, count, St(ti0, sz, Cur())).Ok?
      ensures Yields(TriangleList(tri, count, St(ti0, sz, old(Cur()))), ti, sz, Cur()) && loops == old(loops)
    {
      ghost var target := TriangleList(tri, count, St(ti0, sz, Cur()));
      ti := ti0;
      var left := count;
      while left > 0
        invariant TriangleList(tri, left, St(ti, sz, Cur())) == target && loops == old(loops)
      {
        ti := TriangleStep(tri, left, ti, sz);
        left := left - 1;
      }
    }

    /** The block: its triangle count, then the triangles. */
    method TriangleBlockLoop(d: FaceView, tri: seq<u32>, ti0: nat, sz0: nat) returns (ti: nat, sz: nat)
      modifies this
      requires TriangleBlock(d, tri, St(ti0, sz0, Cur())).Ok?
      ensures Yields(TriangleBlock(d, tri, St(ti0, sz0, old(Cur()))), ti, sz, Cur()) && loops == old(loops)
    {
      TriangleBlockFails(d, tri, St(ti0, sz0, Cur()));
      var numTris := d.sizesTriangulated[sz0];
      TriangleBlockNext(d, tri, St(ti0, sz0, Cur()), numTris);
      sz := sz0 + 1;
      ti := TriangleListLoop(tri, numTris.value, ti0, sz);
    }

    // -------------------------------------------------------------------
    // Block 2: kA3DTessFaceDataTriangleFan
    // -------------------------------------------------------------------

    /** `for (vert = 1; vert < num_pts - 1u; vert++)` of a fan. */
    method FanLoop(tri: seq<u32>, root: Corner, last: int, ti0: nat, ghost sz: nat) returns (ti: nat)
      modifies this
      requires FanRing(tri, root, 1, last, St(ti0, sz, Cur())).Ok?
      ensures Yields(FanRing(tri, root, 1, last, St(ti0, sz, old(Cur()))), ti, sz, Cur()) && loops == old(loops)
    {
      ghost var target := FanRing(tri, root, 1, last, St(ti0, sz, Cur()));
      ti := ti0;
      var vert := 1;
      while vert < last
        invariant FanRing(tri, root, vert, last, St(ti, sz, Cur())) == target && loops == old(loops)
        decreases last - vert
      {
        ghost var s := St(ti, sz, Cur());
        FanRingFails(tri, root, vert, last, s);
        var n := tri[ti];
        var v := tri[ti + 1];
        var nextN := tri[ti + 2];
        var nextV := tri[ti + 3];
        FanRingNext(tri, root, vert, last, s, n, v, nextN, nextV);
        PushTriangle(Triangle(root, Corner(n, [], v), Corner(nextN, [], nextV)));
        ti := ti + 2;
        vert := vert + 1;
      }
    }

    /** One fan: its root pair, then the ring. */
    method FanPrimitiveStep(tri: seq<u32>, numPts: u32, ti0: nat, ghost sz: nat) returns (ti: nat)
      modifies this
      requires FanPrimitive(tri, numPts, St(ti0, sz, Cur())).Ok?
      ensures Yields(FanPrimitive(tri, numPts, St(ti0, sz, old(Cur()))), ti, sz, Cur()) && loops == old(loops)
    {
      ghost var s := St(ti0, sz, Cur());
      FanPrimitiveFails(tri, numPts, s);
      var rootN := tri[ti0];
      var rootV := tri[ti0 + 1];
      var ti1 := FanLoop(tri, Corner(rootN, [], rootV), RingEnd(numPts), ti0 + 2, sz);
      FanPrimitiveNext(tri, numPts, s, rootN, rootV, St(ti1, sz, Cur()));
      ti := ti1 + 2;
    }

    /** One fan with its size entry. */
    method OneFanStep(d: FaceView, tri: seq<u32>, ti0: nat, sz0: nat) returns (ti: nat, sz: nat)
      modifies this
      requires OneFan(d, tri, St(ti0, sz0, Cur())).Ok?
      ensures Yields(OneFan(d, tri, St(ti0, sz0, old(Cur()))), ti, sz, Cur()) && loops == old(loops)
    {
      ghost var s := St(ti0, sz0, Cur());
      OneFanFails(d, tri, s);
      var numPts := d.sizesTriangulated[sz0];
      sz := sz0 + 1;
      ti := FanPrimitiveStep(tri, numPts.value, ti0, sz);
      OneFanNext(d, tri, s, numPts, St(ti, sz, Cur()));
    }

    /** `for (fan = 0; fan < numFans; fan++)`. */
    method FanBlockLoop(d: FaceView, tri: seq<u32>, ti0: nat, sz0: nat) returns (ti: nat, sz: nat)
      modifies this
      requires FanBlock(d, tri, St(ti0, sz0, Cur())).Ok?
      ensures Yields(FanBlock(d, tri, St(ti0, sz0, old(Cur()))), ti, sz, Cur()) && loops == old(loops)
    {
      ghost var target := FanBlock(d, tri, St(ti0, sz0, Cur()));
      FanBlockFails(d, tri, St(ti0, sz0, Cur()));
      var numFans := d.sizesTriangulated[sz0];
      FanBlockNext(d, tri, St(ti0, sz0, Cur()), numFans);
      ti, sz := ti0, sz0 + 1;
      var fan: nat := 0;
      while fan < numFans.value
        invariant fan <= numFans.value
        invariant Repeat(EachFan(d, tri), numFans.value - fan, St(ti, sz, Cur())) == target && loops == old(loops)
      {
        ghost var s := St(ti, sz, Cur());
        RepeatFails(EachFan(d, tri), numFans.value - fan, s);
        ti, sz := OneFanStep(d, tri, ti, sz);
        RepeatNext(EachFan(d, tri), numFans.value - fan, s, St(ti, sz, Cur()));
        fan := fan + 1;
      }
    }

    // -------------------------------------------------------------------
    // Block 3: kA3DTessFaceDataTriangleStripe
    // -------------------------------------------------------------------

    /** `for (vert = 1; vert < num_pts - 1u; vert++)` of a strip. */
    method StripeLoop(tri: seq<u32>, last: int, ti0: nat, ghost sz: nat) returns (ti: nat)
      modifies this
      requires StripeRun(tri, 1, last, St(ti0, sz, Cur())).Ok?
      ensures Yields(StripeRun(tri, 1, last, St(ti0, sz, old(Cur()))), ti, sz, Cur()) && loops == old(loops)
    {
      ghost var target := StripeRun(tri, 1, last, St(ti0, sz, Cur()));
      ti := ti0;
      var vert := 1;
      while vert < last
        invariant StripeRun(tri, vert, last, St(ti, sz, Cur())) == target && loops == old(loops)
        decreases last - vert
      {
        ghost var s := St(ti, sz, Cur());
        StripeRunFails(tri, vert, last, s);
        var prevN, prevV := tri[ti - 2], tri[ti - 1];
        var curN, curV := tri[ti], tri[ti + 1];
        var nextN, nextV := tri[ti + 2], tri[ti + 3];
        StripeRunNext(tri, vert, last, s, prevN, prevV, curN, curV, nextN, nextV);
        PushTriangle(StripTriangle(vert, Corner(prevN, [], prevV), Corner(curN, [], curV), Corner(nextN, [], nextV)));
        ti := ti + 2;
        vert := vert + 1;
      }
    }

    /** One strip: its first point is skipped over, the loop reads back. */
    method StripePrimitiveStep(tri: seq<u32>, numPts: u32, ti0: nat, ghost sz: nat) returns (ti: nat)
      modifies this
      requires StripePrimitive(tri, numPts, St(ti0, sz, Cur())).Ok?
      ensures Yields(StripePrimitive(tri, numPts, St(ti0, sz, old(Cur()))), ti, sz, Cur()) && loops == old(loops)
    {
      ghost var s := St(ti0, sz, Cur());
      StripePrimitiveFails(tri, numPts, s);
      var ti1 := StripeLoop(tri, RingEnd(numPts), ti0 + 2, sz);
      StripePrimitiveNext(tri, numPts, s, St(ti1, sz, Cur()));
      ti := ti1 + 2;
    }

    method OneStripeStep(d: FaceView, tri: seq<u32>, ti0: nat, sz0: nat) returns (ti: nat, sz: nat)
      modifies this
      requires OneStripe(d, tri, St(ti0, sz0, Cur())).Ok?
      ensures Yields(OneStripe(d, tri, St(ti0, sz0, old(Cur()))), ti, sz, Cur()) && loops == old(loops)
    {
      ghost var s := St(ti0, sz0, Cur());
      OneStripeFails(d, tri, s);
      var numPts := d.sizesTriangulated[sz0];
      sz := sz0 + 1;
      ti := StripePrimitiveStep(tri, numPts.value, ti0, sz);
      OneStripeNext(d, tri, s, numPts, St(ti, sz, Cur()));
    }

    /** `for (stripe = 0; stripe < numStripes; stripe++)`. */
    method StripeBlockLoop(d: FaceView, tri: seq<u32>, ti0: nat, sz0: nat) returns (ti: nat, sz: nat)
      modifies this
      requires StripeBlock(d, tri, St(ti0, sz0, Cur())).Ok?
      ensures Yields(StripeBlock(d, tri, St(ti0, sz0, old(Cur()))), ti, sz, Cur()) && loops == old(loops)
    {
      ghost var target := StripeBlock(d, tri, St(ti0, sz0, Cur()));
      StripeBlockFails(d, tri, St(ti0, sz0, Cur()));
      var numStripes := d.sizesTriangulated[sz0];
      StripeBlockNext(d, tri, St(ti0, sz0, Cur()), numStripes);
      ti, sz := ti0, sz0 + 1;
      var stripe: nat := 0;
      while stripe < numStripes.value
        invariant stripe <= numStripes.value
        invariant Repeat(EachStripe(d, tri), numStripes.value - stripe, St(ti, sz, Cur())) == target && loops == old(loops)
      {
        ghost var s := St(ti, sz, Cur());
        RepeatFails(EachStripe(d, tri), numStripes.value - stripe, s);
        ti, sz := OneStripeStep(d, tri, ti, sz);
        RepeatNext(EachStripe(d, tri), numStripes.value - stripe, s, St(ti, sz, Cur()));
        stripe := stripe + 1;
      }
    }

    // -------------------------------------------------------------------
    // Block 4: kA3DTessFaceDataTriangleOneNormal
    // -------------------------------------------------------------------

    /** `j` vertex indexes, each pushed with the normal `n`. */
    method VertexLoop(tri: seq<u32>, n: u32, j: nat, ti0: nat, ghost sz: nat) returns (ti: nat)
      modifies this
      requires VertexRun(tri, n, j, St(ti0, sz, Cur())).Ok?
      ensures Yields(VertexRun(tri, n, j, St(ti0, sz, old(Cur()))), ti, sz, Cur()) && loops == old(loops)
    {
      ghost var target := VertexRun(tri, n, j, St(ti0, sz, Cur()));
      ti := ti0;
      var left := j;
      while left > 0
        invariant VertexRun(tri, n, left, St(ti, sz, Cur())) == target && loops == old(loops)
      {
        ghost var s := St(ti, sz, Cur());
        VertexRunFails(tri, n, left, s);
        var v := tri[ti];
        VertexRunNext(tri, n, left, s, v);
        PushCorner(Corner(n, [], v));
        ti := ti + 1;
        left := left - 1;
      }
    }

    /** One triangle: its normal, then its three vertex indexes. */
    method OneNormalTriangleStep(tri: seq<u32>, count: nat, ti0: nat, ghost sz: nat) returns (ti: nat)
      modifies this
      requires count > 0 && OneNormalTriangleList(tri, count, St(ti0, sz, Cur())).Ok?
      ensures OneNormalTriangleList(tri, count - 1, St(ti, sz, Cur())) == OneNormalTriangleList(tri, count, St(ti0, sz, old(Cur())))
      ensures loops == old(loops)
    {
      ghost var s := St(ti0, sz, Cur());
      OneNormalTriangleListFails(tri, count, s);
      var n := tri[ti0];
      ti := VertexLoop(tri, n, 3, ti0 + 1, sz);
      OneNormalTriangleListNext(tri, count, s, n, St(ti, sz, Cur()));
    }

    /** `for (tri = 0; tri < numTris; tri++)`. */
    method OneNormalTriangleListLoop(tri: seq<u32>, count: nat, ti0: nat, ghost sz: nat) returns (ti: nat)
      modifies this
      requires OneNormalTriangleList(tri, count, St(ti0, sz, Cur())).Ok?
      ensures Yields(OneNormalTriangleList(tri, count, St(ti0, sz, old(Cur()))), ti, sz, Cur()) && loops == old(loops)
    {
      ghost var target := OneNormalTriangleList(tri, count, St(ti0, sz, Cur()));
      ti := ti0;
      var left := count;
      while left > 0
        invariant OneNormalTriangleList(tri, left, St(ti, sz, Cur())) == target && loops == old(loops)
      {
        ti := OneNormalTriangleStep(tri, left, ti, sz);
        left := left - 1;
      }
    }

    method OneNormalTriangleBlockLoop(d: FaceView, tri: seq<u32>, ti0: nat, sz0: nat) returns (ti: nat, sz: nat)
      modifies this
      requires OneNormalTriangleBlock(d, tri, St(ti0, sz0, Cur())).Ok?
      ensures Yields(OneNormalTriangleBlock(d, tri, St(ti0, sz0, old(Cur()))), ti, sz, Cur()) && loops == old(loops)
    {
      OneNormalTriangleBlockFails(d, tri, St(ti0, sz0, Cur()));
      var numTris := d.sizesTriangulated[sz0];
      OneNormalTriangleBlockNext(d, tri, St(ti0, sz0, Cur()), numTris);
      sz := sz0 + 1;
      ti := OneNormalTriangleListLoop(tri, numTris.value, ti0, sz);
    }

    // -------------------------------------------------------------------
    // Block 5: kA3DTessFaceDataTriangleFanOneNormal
    // -------------------------------------------------------------------

    /** The fan loop; with `hvn` every point carries its own normal. */
    method OneNormalFanLoop(tri: seq<u32>, hvn: bool, root: Corner, last: int, ti0: nat, ghost sz: nat) returns (ti: nat)
      modifies this
      requires OneNormalFanRing(tri, hvn, root, 1, last, St(ti0, sz, Cur())).Ok?
      ensures Yields(OneNormalFanRing(tri, hvn, root, 1, last, St(ti0, sz, old(Cur()))), ti, sz, Cur()) && loops == old(loops)
    {
      ghost var target := OneNormalFanRing(tri, hvn, root, 1, last, St(ti0, sz, Cur()));
      ti := ti0;
      var vert := 1;
      while vert < last
        invariant OneNormalFanRing(tri, hvn, root, vert, last, St(ti, sz, Cur())) == target && loops == old(loops)
        decreases last - vert
      {
        ghost var s := St(ti, sz, Cur());
        OneNormalFanRingFails(tri, hvn, root, vert, last, s);
        var n, c1 := root.normal, ti;
        if hvn {
          n, c1 := tri[ti], ti + 1;
        }
        var v := tri[c1];
        var c2 := c1 + 1;
        var nextN, nextV := root.normal, tri[c2];
        if hvn {
          nextN, nextV := tri[c2], tri[c2 + 1];
        }
        OneNormalFanRingNext(tri, hvn, root, vert, last, s, c1, c2, n, v, nextN, nextV);
        PushTriangle(Triangle(root, Corner(n, [], v), Corner(nextN, [], nextV)));
        ti := c2;
        vert := vert + 1;
      }
    }

    method OneNormalFanPrimitiveStep(tri: seq<u32>, hvn: bool, numPts: u32, ti0: nat, ghost sz: nat) returns (ti: nat)
      modifies this
      requires OneNormalFanPrimitive(tri, hvn, numPts, St(ti0, sz, Cur())).Ok?
      ensures Yields(OneNormalFanPrimitive(tri, hvn, numPts, St(ti0, sz, old(Cur()))), ti, sz, Cur()) && loops == old(loops)
    {
      ghost var s := St(ti0, sz, Cur());
      OneNormalFanPrimitiveFails(tri, hvn, numPts, s);
      var rootN := tri[ti0];
      var rootV := tri[ti0 + 1];
      var ti1 := OneNormalFanLoop(tri, hvn, Corner(rootN, [], rootV), RingEnd(numPts), ti0 + 2, sz);
      OneNormalFanPrimitiveNext(tri, hvn, numPts, s, rootN, rootV, St(ti1, sz, Cur()));
      ti := ti1 + (if hvn then 2 else 1);
    }

    method OneNormalFanStep(d: FaceView, tri: seq<u32>, ti0: nat, sz0: nat) returns (ti: nat, sz: nat)
      modifies this
      requires OneNormalFan(d, tri, St(ti0, sz0, Cur())).Ok?
      ensures Yields(OneNormalFan(d, tri, St(ti0, sz0, old(Cur()))), ti, sz, Cur()) && loops == old(loops)
    {
      ghost var s := St(ti0, sz0, Cur());
      OneNormalFanFails(d, tri, s);
      var entry := d.sizesTriangulated[sz0];
      sz := sz0 + 1;
      ti := OneNormalFanPrimitiveStep(tri, !entry.normalSingle, entry.points, ti0, sz);
      OneNormalFanNext(d, tri, s, entry, St(ti, sz, Cur()));
    }

    method OneNormalFanBlockLoop(d: FaceView, tri: seq<u32>, ti0: nat, sz0: nat) returns (ti: nat, sz: nat)
      modifies this
      requires OneNormalFanBlock(d, tri, St(ti0, sz0, Cur())).Ok?
      ensures Yields(OneNormalFanBlock(d, tri, St(ti0, sz0, old(Cur()))), ti, sz, Cur()) && loops == old(loops)
    {
      ghost var target := OneNormalFanBlock(d, tri, St(ti0, sz0, Cur()));
      OneNormalFanBlockFails(d, tri, St(ti0, sz0, Cur()));
      var numFans := d.sizesTriangulated[sz0];
      OneNormalFanBlockNext(d, tri, St(ti0, sz0, Cur()), numFans);
      ti, sz := ti0, sz0 + 1;
      var fan: nat := 0;
      while fan < numFans.value
        invariant fan <= numFans.value
        invariant Repeat(EachOneNormalFan(d, tri), numFans.value - fan, St(ti, sz, Cur())) == target && loops == old(loops)
      {
        ghost var s := St(ti, sz, Cur());
        RepeatFails(EachOneNormalFan(d, tri), numFans.value - fan, s);
        ti, sz := OneNormalFanStep(d, tri, ti, sz);
        RepeatNext(EachOneNormalFan(d, tri), numFans.value - fan, s, St(ti, sz, Cur()));
        fan := fan + 1;
      }
    }

    // -------------------------------------------------------------------
    // Block 6: kA3DTessFaceDataTriangleStripeOneNormal
    // -------------------------------------------------------------------

    /** The strip loop; without `hvn` every normal is `series`. */
    method OneNormalStripeLoop(tri: seq<u32>, hvn: bool, series: u32, last: int, ti0: nat, ghost sz: nat) returns (ti: nat)
      modifies this
      requires OneNormalStripeRun(tri, hvn, series, 1, last, St(ti0, sz, Cur())).Ok?
      ensures Yields(OneNormalStripeRun(tri, hvn, series, 1, last, St(ti0, sz, old(Cur()))), ti, sz, Cur()) && loops == old(loops)
    {
      ghost var target := OneNormalStripeRun(tri, hvn, series, 1, last, St(ti0, sz, Cur()));
      ti := ti0;
      var vert := 1;
      while vert < last
        invariant OneNormalStripeRun(tri, hvn, series, vert, last, St(ti, sz, Cur())) == target && loops == old(loops)
        decreases last - vert
      {
        ghost var s := St(ti, sz, Cur());
        OneNormalStripeRunFails(tri, hvn, series, vert, last, s);
        var prevN, prevV, curN, c1 := series, tri[ti - 1], series, ti;
        if hvn {
          prevN, curN, c1 := tri[ti - 2], tri[ti], ti + 1;
        }
        var curV := tri[c1];
        var c2 := c1 + 1;
        var nextN, nextV := series, tri[c2];
        if hvn {
          nextN, nextV := tri[c2], tri[c2 + 1];
        }
        OneNormalStripeRunNext(tri, hvn, series, vert, last, s, c1, c2, prevN, prevV, curN, curV, nextN, nextV);
        PushTriangle(StripTriangle(vert, Corner(prevN, [], prevV), Corner(curN, [], curV), Corner(nextN, [], nextV)));
        ti := c2;
        vert := vert + 1;
      }
    }

    method OneNormalStripePrimitiveStep(tri: seq<u32>, hvn: bool, numPts: u32, ti0: nat, ghost sz: nat) returns (ti: nat)
      modifies this
      requires OneNormalStripePrimitive(tri, hvn, numPts, St(ti0, sz, Cur())).Ok?
      ensures Yields(OneNormalStripePrimitive(tri, hvn, numPts, St(ti0, sz, old(Cur()))), ti, sz, Cur()) && loops == old(loops)
    {
      ghost var s := St(ti0, sz, Cur());
      OneNormalStripePrimitiveFails(tri, hvn, numPts, s);
      var series := tri[ti0];
      var ti1 := OneNormalStripeLoop(tri, hvn, series, RingEnd(numPts), ti0 + 2, sz);
      OneNormalStripePrimitiveNext(tri, hvn, numPts, s, series, St(ti1, sz, Cur()));
      ti := ti1 + (if hvn then 2 else 1);
    }

    method OneNormalStripeStep(d: FaceView, tri: seq<u32>, ti0: nat, sz0: nat) returns (ti: nat, sz: nat)
      modifies this
      requires OneNormalStripe(d, tri, St(ti0, sz0, Cur())).Ok?
      ensures Yields(OneNormalStripe(d, tri, St(ti0, sz0, old(Cur()))), ti, sz, Cur()) && loops == old(loops)
    {
      ghost var s := St(ti0, sz0, Cur());
      OneNormalStripeFails(d, tri, s);
      var entry := d.sizesTriangulated[sz0];
      sz := sz0 + 1;
      ti := OneNormalStripePrimitiveStep(tri, !entry.normalSingle, entry.points, ti0, sz);
      OneNormalStripeNext(d, tri, s, entry, St(ti, sz, Cur()));
    }

    method OneNormalStripeBlockLoop(d: FaceView, tri: seq<u32>, ti0: nat, sz0: nat) returns (ti: nat, sz: nat)
      modifies this
      requires OneNormalStripeBlock(d, tri, St(ti0, sz0, Cur())).Ok?
      ensures Yields(OneNormalStripeBlock(d, tri, St(ti0, sz0, old(Cur()))), ti, sz, Cur()) && loops == old(loops)
    {
      ghost var target := OneNormalStripeBlock(d, tri, St(ti0, sz0, Cur()));
      OneNormalStripeBlockFails(d, tri, St(ti0, sz0, Cur()));
      var numStripes := d.sizesTriangulated[sz0];
      OneNormalStripeBlockNext(d, tri, St(ti0, sz0, Cur()), numStripes);
      ti, sz := ti0, sz0 + 1;
      var stripe: nat := 0;
      while stripe < numStripes.value
        invariant stripe <= numStripes.value
        invariant Repeat(EachOneNormalStripe(d, tri), numStripes.value - stripe, St(ti, sz, Cur())) == target && loops == old(loops)
      {
        ghost var s := St(ti, sz, Cur());
        RepeatFails(EachOneNormalStripe(d, tri), numStripes.value - stripe, s);
        ti, sz := OneNormalStripeStep(d, tri, ti, sz);
        RepeatNext(EachOneNormalStripe(d, tri), numStripes.value - stripe, s, St(ti, sz, Cur()));
        stripe := stripe + 1;
      }
    }

    // -------------------------------------------------------------------
    // Block 7: kA3DTessFaceDataTriangleTextured
    // -------------------------------------------------------------------

    /** `j` points, each a normal, `T` texture indexes and a vertex. */
    method TexturedCornerLoop(tri: seq<u32>, T: nat, j: nat, ti0: nat, ghost sz: nat) returns (ti: nat)
      modifies this
      requires TexturedCornerRun(tri, T, j, St(ti0, sz, Cur())).Ok?
      ensures Yields(TexturedCornerRun(tri, T, j, St(ti0, sz, old(Cur()))), ti, sz, Cur()) && loops == old(loops)
    {
      ghost var target := TexturedCornerRun(tri, T, j, St(ti0, sz, Cur()));
      ti := ti0;
      var left := j;
      while left > 0
        invariant TexturedCornerRun(tri, T, left, St(ti, sz, Cur())) == target && loops == old(loops)
      {
        ghost var s := St(ti, sz, Cur());
        TexturedCornerRunFails(tri, T, left, s);
        var c := ReadPoint(tri, ti, T);
        TexturedCornerRunNext(tri, T, left, s, c);
        PushCorner(c);
        ti := ti + 2 + T;
        left := left - 1;
      }
    }

    method TexturedTriangleStep(tri: seq<u32>, T: nat, count: nat, ti0: nat, ghost sz: nat) returns (ti: nat)
      modifies this
      requires count > 0 && TexturedTriangleList(tri, T, count, St(ti0, sz, Cur())).Ok?
      ensures TexturedTriangleList(tri, T, count - 1, St(ti, sz, Cur())) == TexturedTriangleList(tri, T, count, St(ti0, sz, old(Cur())))
      ensures loops == old(loops)
    {
      ghost var s := St(ti0, sz, Cur());
      TexturedTriangleListFails(tri, T, count, s);
      ti := TexturedCornerLoop(tri, T, 3, ti0, sz);
      TexturedTriangleListNext(tri, T, count, s, St(ti, sz, Cur()));
    }

    /** `for (tri = 0; tri < numTris; tri++)`. */
    method TexturedTriangleListLoop(tri: seq<u32>, T: nat, count: nat, ti0: nat, ghost sz: nat) returns (ti: nat)
      modifies this
      requires TexturedTriangleList(tri, T, count, St(ti0, sz, Cur())).Ok?
      ensures Yields(TexturedTriangleList(tri, T, count, St(ti0, sz, old(Cur()))), ti, sz, Cur()) && loops == old(loops)
    {
      ghost var target := TexturedTriangleList(tri, T, count, St(ti0, sz, Cur()));
      ti := ti0;
      var left := count;
      while left > 0
        invariant TexturedTriangleList(tri, T, left, St(ti, sz, Cur())) == target && loops == old(loops)
      {
        ti := TexturedTriangleStep(tri, T, left, ti, sz);
        left := left - 1;
      }
    }

    method TexturedTriangleBlockLoop(d: FaceView, tri: seq<u32>, ti0: nat, sz0: nat) returns (ti: nat, sz: nat)
      modifies this
      requires TexturedTriangleBlock(d, tri, St(ti0, sz0, Cur())).Ok?
      ensures Yields(TexturedTriangleBlock(d, tri, St(ti0, sz0, old(Cur()))), ti, sz, Cur()) && loops == old(loops)
    {
      TexturedTriangleBlockFails(d, tri, St(ti0, sz0, Cur()));
      var numTris := d.sizesTriangulated[sz0];
      TexturedTriangleBlockNext(d, tri, St(ti0, sz0, Cur()), numTris);
      sz := sz0 + 1;
      ti := TexturedTriangleListLoop(tri, d.textureCoordIndexesSize, numTris.value, ti0, sz);
    }

    // -------------------------------------------------------------------
    // Block 8: kA3DTessFaceDataTriangleFanTextured
    // -------------------------------------------------------------------

    /** The textured fan loop: the current and the next point are both consumed. */
    method TexturedFanLoop(tri: seq<u32>, T: nat, root: Corner, last: int, ti0: nat, ghost sz: nat) returns (ti: nat)
      modifies this
      requires TexturedFanRing(tri, T, root, 1, last, St(ti0, sz, Cur())).Ok?
      ensures Yields(TexturedFanRing(tri, T, root, 1, last, St(ti0, sz, old(Cur()))), ti, sz, Cur()) && loops == old(loops)
    {
      ghost var target := TexturedFanRing(tri, T, root, 1, last, St(ti0, sz, Cur()));
      ti := ti0;
      var vert := 1;
      while vert < last
        invariant TexturedFanRing(tri, T, root, vert, last, St(ti, sz, Cur())) == target && loops == old(loops)
        decreases last - vert
      {
        ghost var s := St(ti, sz, Cur());
        TexturedFanRingFails(tri, T, root, vert, last, s);
        var c1 := ReadPoint(tri, ti, T);
        var c2 := ReadPoint(tri, ti + 2 + T, T);
        TexturedFanRingNext(tri, T, root, vert, last, s, c1, c2);
        PushTriangle(Triangle(root, c1, c2));
        ti := ti + 2 * (2 + T);
        vert := vert + 1;
      }
    }

    method TexturedFanPrimitiveStep(tri: seq<u32>, T: nat, numPts: u32, ti0: nat, ghost sz: nat) returns (ti: nat)
      modifies this
      requires TexturedFanPrimitive(tri, T, numPts, St(ti0, sz, Cur())).Ok?
      ensures Yields(TexturedFanPrimitive(tri, T, numPts, St(ti0, sz, old(Cur()))), ti, sz, Cur()) && loops == old(loops)
    {
      ghost var s := St(ti0, sz, Cur());
      TexturedFanPrimitiveFails(tri, T, numPts, s);
      var root := ReadPoint(tri, ti0, T);
      ti := TexturedFanLoop(tri, T, root, RingEnd(numPts), ti0 + 2 + T, sz);
      TexturedFanPrimitiveNext(tri, T, numPts, s, root, St(ti, sz, Cur()));
    }

    method OneTexturedFanStep(d: FaceView, tri: seq<u32>, ti0: nat, sz0: nat) returns (ti: nat, sz: nat)
      modifies this
      requires OneTexturedFan(d, tri, St(ti0, sz0, Cur())).Ok?
      ensures Yields(OneTexturedFan(d, tri, St(ti0, sz0, old(Cur()))), ti, sz, Cur()) && loops == old(loops)
    {
      ghost var s := St(ti0, sz0, Cur());
      OneTexturedFanFails(d, tri, s);
      var numPts := d.sizesTriangulated[sz0];
      sz := sz0 + 1;
      ti := TexturedFanPrimitiveStep(tri, d.textureCoordIndexesSize, numPts.value, ti0, sz);
      OneTexturedFanNext(d, tri, s, numPts, St(ti, sz, Cur()));
    }

    method TexturedFanBlockLoop(d: FaceView, tri: seq<u32>, ti0: nat, sz0: nat) returns (ti: nat, sz: nat)
      modifies this
      requires TexturedFanBlock(d, tri, St(ti0, sz0, Cur())).Ok?
      ensures Yields(TexturedFanBlock(d, tri, St(ti0, sz0, old(Cur()))), ti, sz, Cur()) && loops == old(loops)
    {
      ghost var target := TexturedFanBlock(d, tri, St(ti0, sz0, Cur()));
      TexturedFanBlockFails(d, tri, St(ti0, sz0, Cur()));
      var numFans := d.sizesTriangulated[sz0];
      TexturedFanBlockNext(d, tri, St(ti0, sz0, Cur()), numFans);
      ti, sz := ti0, sz0 + 1;
      var fan: nat := 0;
      while fan < numFans.value
        invariant fan <= numFans.value
        invariant Repeat(EachTexturedFan(d, tri), numFans.value - fan, St(ti, sz, Cur())) == target && loops == old(loops)
      {
        ghost var s := St(ti, sz, Cur());
        RepeatFails(EachTexturedFan(d, tri), numFans.value - fan, s);
        ti, sz := OneTexturedFanStep(d, tri, ti, sz);
        RepeatNext(EachTexturedFan(d, tri), numFans.value - fan, s, St(ti, sz, Cur()));
        fan := fan + 1;
      }
    }

    // -------------------------------------------------------------------
    // Block 9: kA3DTessFaceDataTriangleStripeTextured
    // -------------------------------------------------------------------

    /** One pass of the textured strip loop. */
    method TexturedStripeOnce(tri: seq<u32>, T: nat, vert: int, last: int, ti0: nat, ghost sz: nat) returns (ti: nat)
      modifies this
      requires vert < last && TexturedStripeRun(tri, T, vert, last, St(ti0, sz, Cur())).Ok?
      ensures TexturedStripeRun(tri, T, vert + 1, last, St(ti, sz, Cur())) == TexturedStripeRun(tri, T, vert, last, St(ti0, sz, old(Cur())))
      ensures loops == old(loops)
    {
      ghost var s := St(ti0, sz, Cur());
      TexturedStripeRunFails(tri, T, vert, last, s);
      var prev := ReadPoint(tri, ti0 - (2 + T), T);
      var cur := ReadPoint(tri, ti0, T);
      var next := ReadPoint(tri, ti0 + 2 + T, T);
      TexturedStripeRunNext(tri, T, vert, last, s, prev, cur, next);
      PushTriangle(StripTriangle(vert, prev, cur, next));
      ti := ti0 + 2 + T;
    }

    /** The textured strip loop: the previous point is the one just before the cursor. */
    method TexturedStripeLoop(tri: seq<u32>, T: nat, last: int, ti0: nat, ghost sz: nat) returns (ti: nat)
      modifies this
      requires TexturedStripeRun(tri, T, 1, last, St(ti0, sz, Cur())).Ok?
      ensures Yields(TexturedStripeRun(tri, T, 1, last, St(ti0, sz, old(Cur()))), ti, sz, Cur()) && loops == old(loops)
    {
      ghost var target := TexturedStripeRun(tri, T, 1, last, St(ti0, sz, Cur()));
      ti := ti0;
      var vert := 1;
      while vert < last
        invariant TexturedStripeRun(tri, T, vert, last, St(ti, sz, Cur())) == target && loops == old(loops)
        decreases last - vert
      {
        ti := TexturedStripeOnce(tri, T, vert, last, ti, sz);
        vert := vert + 1;
      }
    }

    method TexturedStripePrimitiveStep(tri: seq<u32>, T: nat, numPts: u32, ti0: nat, ghost sz: nat) returns (ti: nat)
      modifies this
      requires TexturedStripePrimitive(tri, T, numPts, St(ti0, sz, Cur())).Ok?
      ensures Yields(TexturedStripePrimitive(tri, T, numPts, St(ti0, sz, old(Cur()))), ti, sz, Cur()) && loops == old(loops)
    {
      TexturedStripePrimitiveIs(tri, T, numPts, St(ti0, sz, Cur()));
      ti := TexturedStripeLoop(tri, T, RingEnd(numPts), ti0, sz);
    }

    method OneTexturedStripeStep(d: FaceView, tri: seq<u32>, ti0: nat, sz0: nat) returns (ti: nat, sz: nat)
      modifies this
      requires OneTexturedStripe(d, tri, St(ti0, sz0, Cur())).Ok?
      ensures Yields(OneTexturedStripe(d, tri, St(ti0, sz0, old(Cur()))), ti, sz, Cur()) && loops == old(loops)
    {
      ghost var s := St(ti0, sz0, Cur());
      OneTexturedStripeFails(d, tri, s);
      var numPts := d.sizesTriangulated[sz0];
      sz := sz0 + 1;
      ti := TexturedStripePrimitiveStep(tri, d.textureCoordIndexesSize, numPts.value, ti0, sz);
      OneTexturedStripeNext(d, tri, s, numPts, St(ti, sz, Cur()));
    }

    method TexturedStripeBlockLoop(d: FaceView, tri: seq<u32>, ti0: nat, sz0: nat) returns (ti: nat, sz: nat)
      modifies this
      requires TexturedStripeBlock(d, tri, St(ti0, sz0, Cur())).Ok?
      ensures Yields(TexturedStripeBlock(d, tri, St(ti0, sz0, old(Cur()))), ti, sz, Cur()) && loops == old(loops)
    {
      ghost var target := TexturedStripeBlock(d, tri, St(ti0, sz0, Cur()));
      TexturedStripeBlockFails(d, tri, St(ti0, sz0, Cur()));
      var numStripes := d.sizesTriangulated[sz0];
      TexturedStripeBlockNext(d, tri, St(ti0, sz0, Cur()), numStripes);
      ti, sz := ti0, sz0 + 1;
      var stripe: nat := 0;
      while stripe < numStripes.value
        invariant stripe <= numStripes.value
        invariant Repeat(EachTexturedStripe(d, tri), numStripes.value - stripe, St(ti, sz, Cur())) == target && loops == old(loops)
      {
        ghost var s := St(ti, sz, Cur());
        RepeatFails(EachTexturedStripe(d, tri), numStripes.value - stripe, s);
        ti, sz := OneTexturedStripeStep(d, tri, ti, sz);
        RepeatNext(EachTexturedStripe(d, tri), numStripes.value - stripe, s, St(ti, sz, Cur()));
        stripe := stripe + 1;
      }
    }

    // -------------------------------------------------------------------
    // Block 10: kA3DTessFaceDataTriangleOneNormalTextured
    // -------------------------------------------------------------------

    /** `j` textured points; without `hvn` every normal is `series`. */
    method OneNormalTexturedCornerLoop(tri: seq<u32>, T: nat, hvn: bool, series: u32, j: nat, ti0: nat, ghost sz: nat)
      returns (ti: nat)
      modifies this
      requires OneNormalTexturedCornerRun(tri, T, hvn, series, j, St(ti0, sz, Cur())).Ok?
      ensures Yields(OneNormalTexturedCornerRun(tri, T, hvn, series, j, St(ti0, sz, old(Cur()))), ti, sz, Cur())
      ensures loops == old(loops)
    {
      ghost var target := OneNormalTexturedCornerRun(tri, T, hvn, series, j, St(ti0, sz, Cur()));
      ti := ti0;
      var left := j;
      while left > 0
        invariant OneNormalTexturedCornerRun(tri, T, hvn, series, left, St(ti, sz, Cur())) == target && loops == old(loops)
      {
        ghost var s := St(ti, sz, Cur());
        OneNormalTexturedCornerRunFails(tri, T, hvn, series, left, s);
        var n, c1 := series, ti;
        if hvn {
          n, c1 := tri[ti], ti + 1;
        }
        var t := ReadIndexes(tri, c1, T);
        var v := tri[c1 + T];
        OneNormalTexturedCornerRunNext(tri, T, hvn, series, left, s, c1, n, t, v);
        PushCorner(Corner(n, t, v));
        ti := c1 + T + 1;
        left := left - 1;
      }
    }

    method OneNormalTexturedTriangleStep(tri: seq<u32>, T: nat, hvn: bool, series: u32, count: nat, ti0: nat, ghost sz: nat)
      returns (ti: nat)
      modifies this
      requires count > 0 && OneNormalTexturedTriangleList(tri, T, hvn, series, count, St(ti0, sz, Cur())).Ok?
      ensures OneNormalTexturedTriangleList(tri, T, hvn, series, count - 1, St(ti, sz, Cur()))
           == OneNormalTexturedTriangleList(tri, T, hvn, series, count, St(ti0, sz, old(Cur())))
      ensures loops == old(loops)
    {
      ghost var s := St(ti0, sz, Cur());
      OneNormalTexturedTriangleListFails(tri, T, hvn, series, count, s);
      ti := OneNormalTexturedCornerLoop(tri, T, hvn, series, 3, ti0, sz);
      OneNormalTexturedTriangleListNext(tri, T, hvn, series, count, s, St(ti, sz, Cur()));
    }

    /** `for (tri = 0; tri < numTris; tri++)`. */
    method OneNormalTexturedTriangleListLoop(tri: seq<u32>, T: nat, hvn: bool, series: u32, count: nat, ti0: nat, ghost sz: nat)
      returns (ti: nat)
      modifies this
      requires OneNormalTexturedTriangleList(tri, T, hvn, series, count, St(ti0, sz, Cur())).Ok?
      ensures Yields(OneNormalTexturedTriangleList(tri, T, hvn, series, count, St(ti0, sz, old(Cur()))), ti, sz, Cur())
      ensures loops == old(loops)
    {
      ghost var target := OneNormalTexturedTriangleList(tri, T, hvn, series, count, St(ti0, sz, Cur()));
      ti := ti0;
      var left := count;
      while left > 0
        invariant OneNormalTexturedTriangleList(tri, T, hvn, series, left, St(ti, sz, Cur())) == target
        invariant loops == old(loops)
        decreases left
      {
        ti := OneNormalTexturedTriangleStep(tri, T, hvn, series, left, ti, sz);
        left := left - 1;
      }
    }

    /** The block: its count entry, the shared normal looked at, then the triangles. */
    method OneNormalTexturedTriangleBlockLoop(d: FaceView, tri: seq<u32>, ti0: nat, sz0: nat) returns (ti: nat, sz: nat)
      modifies this
      requires OneNormalTexturedTriangleBlock(d, tri, St(ti0, sz0, Cur())).Ok?
      ensures Yields(OneNormalTexturedTriangleBlock(d, tri, St(ti0, sz0, old(Cur()))), ti, sz, Cur()) && loops == old(loops)
    {
      OneNormalTexturedTriangleBlockFails(d, tri, St(ti0, sz0, Cur()));
      var entry := d.sizesTriangulated[sz0];
      var series := tri[ti0];
      OneNormalTexturedTriangleBlockNext(d, tri, St(ti0, sz0, Cur()), entry, series);
      sz := sz0 + 1;
      ti := OneNormalTexturedTriangleListLoop(tri, d.textureCoordIndexesSize, !entry.normalSingle, series, entry.value, ti0, sz);
    }

    // -------------------------------------------------------------------
    // Block 11: kA3DTessFaceDataTriangleFanOneNormalTextured
    // -------------------------------------------------------------------

    /** The fan loop: the current point is consumed, the next only looked at. */
    method OneNormalTexturedFanLoop(tri: seq<u32>, T: nat, hvn: bool, root: Corner, last: int, ti0: nat, ghost sz: nat)
      returns (ti: nat)
      modifies this
      requires OneNormalTexturedFanRing(tri, T, hvn, root, 1, last, St(ti0, sz, Cur())).Ok?
      ensures Yields(OneNormalTexturedFanRing(tri, T, hvn, root, 1, last, St(ti0, sz, old(Cur()))), ti, sz, Cur())
      ensures loops == old(loops)
    {
      ghost var target := OneNormalTexturedFanRing(tri, T, hvn, root, 1, last, St(ti0, sz, Cur()));
      ti := ti0;
      var vert := 1;
      while vert < last
        invariant OneNormalTexturedFanRing(tri, T, hvn, root, vert, last, St(ti, sz, Cur())) == target && loops == old(loops)
        decreases last - vert
      {
        ghost var s := St(ti, sz, Cur());
        OneNormalTexturedFanRingFails(tri, T, hvn, root, vert, last, s);
        var n, c1 := root.normal, ti;
        if hvn {
          n, c1 := tri[ti], ti + 1;
        }
        var t := ReadIndexes(tri, c1, T);
        var v := tri[c1 + T];
        var c2 := c1 + T + 1;
        var nextN := root.normal;
        if hvn {
          nextN := tri[c2];
        }
        var nextT := ReadIndexes(tri, c2 + 1, T);
        var nextV := tri[c2 + 1 + (if hvn then T else 0)];
        OneNormalTexturedFanRingNext(tri, T, hvn, root, vert, last, s, c1, c2, n, t, v, nextN, nextT, nextV);
        PushTriangle(Triangle(root, Corner(n, t, v), Corner(nextN, nextT, nextV)));
        ti := c2;
        vert := vert + 1;
      }
    }

    /** The rest of one fan once its root is read: its size entry, then the loop. */
    method RootedOneNormalTexturedFanStep(d: FaceView, tri: seq<u32>, root: Corner, ti0: nat, sz0: nat) returns (ti: nat, sz: nat)
      modifies this
      requires RootedOneNormalTexturedFan(d, tri, root, St(ti0, sz0, Cur())).Ok?
      ensures Yields(RootedOneNormalTexturedFan(d, tri, root, St(ti0, sz0, old(Cur()))), ti, sz, Cur()) && loops == old(loops)
    {
      ghost var s := St(ti0, sz0, Cur());
      RootedOneNormalTexturedFanFails(d, tri, root, s);
      var entry := d.sizesTriangulated[sz0];
      sz := sz0 + 1;
      var T, hvn := d.textureCoordIndexesSize, !entry.normalSingle;
      OneNormalTexturedFanPrimitiveIs(tri, T, hvn, root, entry.points, St(ti0, sz, Cur()));
      ti := OneNormalTexturedFanLoop(tri, T, hvn, root, RingEnd(entry.points), ti0, sz);
      RootedOneNormalTexturedFanNext(d, tri, root, s, entry, St(ti, sz, Cur()));
    }

    method OneNormalTexturedFanStep(d: FaceView, tri: seq<u32>, ti0: nat, sz0: nat) returns (ti: nat, sz: nat)
      modifies this
      requires OneNormalTexturedFan(d, tri, St(ti0, sz0, Cur())).Ok?
      ensures Yields(OneNormalTexturedFan(d, tri, St(ti0, sz0, old(Cur()))), ti, sz, Cur()) && loops == old(loops)
    {
      ghost var s := St(ti0, sz0, Cur());
      OneNormalTexturedFanFails(d, tri, s);
      var T := d.textureCoordIndexesSize;
      var root := ReadPoint(tri, ti0, T);
      ti, sz := RootedOneNormalTexturedFanStep(d, tri, root, ti0 + 2 + T, sz0);
      OneNormalTexturedFanNext(d, tri, s, root, St(ti, sz, Cur()));
    }

    method OneNormalTexturedFanBlockLoop(d: FaceView, tri: seq<u32>, ti0: nat, sz0: nat) returns (ti: nat, sz: nat)
      modifies this
      requires OneNormalTexturedFanBlock(d, tri, St(ti0, sz0, Cur())).Ok?
      ensures Yields(OneNormalTexturedFanBlock(d, tri, St(ti0, sz0, old(Cur()))), ti, sz, Cur()) && loops == old(loops)
    {
      ghost var target := OneNormalTexturedFanBlock(d, tri, St(ti0, sz0, Cur()));
      OneNormalTexturedFanBlockFails(d, tri, St(ti0, sz0, Cur()));
      var numFans := d.sizesTriangulated[sz0];
      OneNormalTexturedFanBlockNext(d, tri, St(ti0, sz0, Cur()), numFans);
      ti, sz := ti0, sz0 + 1;
      var fan: nat := 0;
      while fan < numFans.value
        invariant fan <= numFans.value
        invariant Repeat(EachOneNormalTexturedFan(d, tri), numFans.value - fan, St(ti, sz, Cur())) == target
        invariant loops == old(loops)
      {
        ghost var s := St(ti, sz, Cur());
        RepeatFails(EachOneNormalTexturedFan(d, tri), numFans.value - fan, s);
        ti, sz := OneNormalTexturedFanStep(d, tri, ti, sz);
        RepeatNext(EachOneNormalTexturedFan(d, tri), numFans.value - fan, s, St(ti, sz, Cur()));
        fan := fan + 1;
      }
    }

    // -------------------------------------------------------------------
    // Block 12: kA3DTessFaceDataTriangleStripeOneNormalTextured
    // -------------------------------------------------------------------

    /** The strip loop: texture indexes are stepped over, not pushed. */
    method OneNormalTexturedStripeLoop(tri: seq<u32>, T: nat, hvn: bool, series: u32, last: int, ti0: nat, ghost sz: nat)
      returns (ti: nat)
      modifies this
      requires OneNormalTexturedStripeRun(tri, T, hvn, series, 1, last, St(ti0, sz, Cur())).Ok?
      ensures Yields(OneNormalTexturedStripeRun(tri, T, hvn, series, 1, last, St(ti0, sz, old(Cur()))), ti, sz, Cur())
      ensures loops == old(loops)
    {
      ghost var target := OneNormalTexturedStripeRun(tri, T, hvn, series, 1, last, St(ti0, sz, Cur()));
      ti := ti0;
      var vert := 1;
      while vert < last
        invariant OneNormalTexturedStripeRun(tri, T, hvn, series, vert, last, St(ti, sz, Cur())) == target
        invariant loops == old(loops)
        decreases last - vert
      {
        ghost var s := St(ti, sz, Cur());
        OneNormalTexturedStripeRunFails(tri, T, hvn, series, vert, last, s);
        var prevN, prevV, curN, c1 := series, tri[ti - 1], series, ti + T;
        if hvn {
          prevN, curN, c1 := tri[ti - (2 + T)], tri[ti], ti + 1 + T;
        }
        var curV := tri[c1];
        var c2 := c1 + 1;
        var nextN, nextV := series, tri[c2 + 1];
        if hvn {
          nextN, nextV := tri[c2], tri[c2 + 1 + T];
        }
        OneNormalTexturedStripeRunNext(tri, T, hvn, series, vert, last, s, c1, c2, prevN, prevV, curN, curV, nextN, nextV);
        PushTriangle(StripTriangle(vert, Corner(prevN, [], prevV), Corner(curN, [], curV), Corner(nextN, [], nextV)));
        ti := c2;
        vert := vert + 1;
      }
    }

    method OneNormalTexturedStripePrimitiveStep(tri: seq<u32>, T: nat, styles: nat, hvn: bool, numPts: u32, ti0: nat, ghost sz: nat)
      returns (ti: nat)
      modifies this
      requires OneNormalTexturedStripePrimitive(tri, T, styles, hvn, numPts, St(ti0, sz, Cur())).Ok?
      ensures Yields(OneNormalTexturedStripePrimitive(tri, T, styles, hvn, numPts, St(ti0, sz, old(Cur()))), ti, sz, Cur())
      ensures loops == old(loops)
    {
      ghost var s := St(ti0, sz, Cur());
      OneNormalTexturedStripePrimitiveFails(tri, T, styles, hvn, numPts, s);
      var series := tri[ti0];
      ti := OneNormalTexturedStripeLoop(tri, T, hvn, series, RingEnd(numPts), ti0 + 2 + styles, sz);
      OneNormalTexturedStripePrimitiveNext(tri, T, styles, hvn, numPts, s, series, St(ti, sz, Cur()));
    }

    method OneNormalTexturedStripeStep(d: FaceView, tri: seq<u32>, ti0: nat, sz0: nat) returns (ti: nat, sz: nat)
      modifies this
      requires OneNormalTexturedStripe(d, tri, St(ti0, sz0, Cur())).Ok?
      ensures Yields(OneNormalTexturedStripe(d, tri, St(ti0, sz0, old(Cur()))), ti, sz, Cur()) && loops == old(loops)
    {
      ghost var s := St(ti0, sz0, Cur());
      OneNormalTexturedStripeFails(d, tri, s);
      var entry := d.sizesTriangulated[sz0];
      sz := sz0 + 1;
      ti := OneNormalTexturedStripePrimitiveStep(tri, d.textureCoordIndexesSize, d.styleIndexesSize, !entry.normalSingle,
                                                 entry.points, ti0, sz);
      OneNormalTexturedStripeNext(d, tri, s, entry, St(ti, sz, Cur()));
    }

    method OneNormalTexturedStripeBlockLoop(d: FaceView, tri: seq<u32>, ti0: nat, sz0: nat) returns (ti: nat, sz: nat)
      modifies this
      requires OneNormalTexturedStripeBlock(d, tri, St(ti0, sz0, Cur())).Ok?
      ensures Yields(OneNormalTexturedStripeBlock(d, tri, St(ti0, sz0, old(Cur()))), ti, sz, Cur()) && loops == old(loops)
    {
      ghost var target := OneNormalTexturedStripeBlock(d, tri, St(ti0, sz0, Cur()));
      OneNormalTexturedStripeBlockFails(d, tri, St(ti0, sz0, Cur()));
      var numStripes := d.sizesTriangulated[sz0];
      OneNormalTexturedStripeBlockNext(d, tri, St(ti0, sz0, Cur()), numStripes);
      ti, sz := ti0, sz0 + 1;
      var stripe: nat := 0;
      while stripe < numStripes.value
        invariant stripe <= numStripes.value
        invariant Repeat(EachOneNormalTexturedStripe(d, tri), numStripes.value - stripe, St(ti, sz, Cur())) == target
        invariant loops == old(loops)
      {
        ghost var s := St(ti, sz, Cur());
        RepeatFails(EachOneNormalTexturedStripe(d, tri), numStripes.value - stripe, s);
        ti, sz := OneNormalTexturedStripeStep(d, tri, ti, sz);
        RepeatNext(EachOneNormalTexturedStripe(d, tri), numStripes.value - stripe, s, St(ti, sz, Cur()));
        stripe := stripe + 1;
      }
    }
  }
}
