/** `TessFaceDataHelper` (ExchangeToolkit.h): the constructor decodes a face's
    triangulated and wire index buffers into flat normal, vertex and texture
    lists and a list of edge loops. Each block of the constructor is a method
    that runs the source's loops over the helper's fields and is proved to
    leave them as the block's specification function in `TessDecode` says. */
module TessHelper {
  import opened Bits
  import opened Wrappers
  import opened TessMesh
  import opened TessDecode
  import opened TessWire
  import opened TessBlocks

  // ---------------------------------------------------------------------
  // One step of each specification function. A `...Fails` lemma says which
  // failed read makes the whole function fail; a `...Next` lemma takes the
  // values read and says what is left to do.
  // ---------------------------------------------------------------------

  /** A read of `n` entries from `i` that succeeds is the slice there. */
  lemma ReadRunIs(tri: seq<u32>, i: int, n: nat)
    requires 0 <= i && i + n <= |tri|
    ensures ReadRun(tri, i, n) == Ok(tri[i .. i + n])
  {
    if n == 0 {
      assert tri[i .. i] == [];
    }
  }

  lemma RepeatFails(step: St -> Res, count: nat, s: St)
    requires count > 0
    ensures step(s).Err? ==> Repeat(step, count, s).Err?
  {
  }

  lemma RepeatNext(step: St -> Res, count: nat, s: St, s1: St)
    requires count > 0 && step(s) == Ok(s1)
    ensures Repeat(step, count - 1, s1) == Repeat(step, count, s)
  {
  }

  // Block 1

  lemma TriangleBlockFails(d: FaceView, tri: seq<u32>, s: St)
    ensures ReadSize(d, s.sz).Err? ==> TriangleBlock(d, tri, s).Err?
  {
  }

  lemma TriangleBlockNext(d: FaceView, tri: seq<u32>, s: St, entry: SizeEntry)
    requires ReadSize(d, s.sz) == Ok(entry)
    ensures TriangleBlock(d, tri, s) == TriangleList(tri, entry.value, s.(sz := s.sz + 1))
  {
  }

  lemma TriangleListFails(tri: seq<u32>, count: nat, s: St)
    requires count > 0
    ensures PairRun(tri, 3, s).Err? ==> TriangleList(tri, count, s).Err?
  {
  }

  lemma TriangleListNext(tri: seq<u32>, count: nat, s: St, s1: St)
    requires count > 0 && PairRun(tri, 3, s) == Ok(s1)
    ensures TriangleList(tri, count - 1, s1) == TriangleList(tri, count, s)
  {
  }

  lemma PairRunFails(tri: seq<u32>, j: nat, s: St)
    requires j > 0
    ensures ReadIndex(tri, s.ti).Err? || ReadIndex(tri, s.ti + 1).Err? ==> PairRun(tri, j, s).Err?
  {
  }

  lemma PairRunNext(tri: seq<u32>, j: nat, s: St, n: u32, v: u32)
    requires j > 0 && ReadIndex(tri, s.ti) == Ok(n) && ReadIndex(tri, s.ti + 1) == Ok(v)
    ensures PairRun(tri, j - 1, s.(ti := s.ti + 2, mesh := Push(s.mesh, Corner(n, [], v)))) == PairRun(tri, j, s)
  {
  }

  // Block 2

  lemma FanBlockFails(d: FaceView, tri: seq<u32>, s: St)
    ensures ReadSize(d, s.sz).Err? ==> FanBlock(d, tri, s).Err?
  {
  }

  lemma FanBlockNext(d: FaceView, tri: seq<u32>, s: St, entry: SizeEntry)
    requires ReadSize(d, s.sz) == Ok(entry)
    ensures FanBlock(d, tri, s) == Repeat(EachFan(d, tri), entry.value, s.(sz := s.sz + 1))
  {
  }

  lemma OneFanFails(d: FaceView, tri: seq<u32>, s: St)
    ensures ReadSize(d, s.sz).Err? ==> OneFan(d, tri, s).Err?
    ensures ReadSize(d, s.sz).Ok? && FanPrimitive(tri, ReadSize(d, s.sz).value.value, s.(sz := s.sz + 1)).Err?
            ==> OneFan(d, tri, s).Err?
  {
  }

  lemma OneFanNext(d: FaceView, tri: seq<u32>, s: St, entry: SizeEntry, s1: St)
    requires ReadSize(d, s.sz) == Ok(entry)
    requires FanPrimitive(tri, entry.value, s.(sz := s.sz + 1)) == Ok(s1)
    ensures OneFan(d, tri, s) == Ok(s1)
  {
  }

  lemma FanPrimitiveFails(tri: seq<u32>, numPts: u32, s: St)
    ensures ReadIndex(tri, s.ti).Err? || ReadIndex(tri, s.ti + 1).Err? ==> FanPrimitive(tri, numPts, s).Err?
    ensures ReadIndex(tri, s.ti).Ok? && ReadIndex(tri, s.ti + 1).Ok? &&
            FanRing(tri, Corner(ReadIndex(tri, s.ti).value, [], ReadIndex(tri, s.ti + 1).value), 1, RingEnd(numPts), s.(ti := s.ti + 2)).Err?
            ==> FanPrimitive(tri, numPts, s).Err?
  {
  }

  lemma FanPrimitiveNext(tri: seq<u32>, numPts: u32, s: St, rootN: u32, rootV: u32, s1: St)
    requires ReadIndex(tri, s.ti) == Ok(rootN) && ReadIndex(tri, s.ti + 1) == Ok(rootV)
    requires FanRing(tri, Corner(rootN, [], rootV), 1, RingEnd(numPts), s.(ti := s.ti + 2)) == Ok(s1)
    ensures FanPrimitive(tri, numPts, s) == Ok(s1.(ti := s1.ti + 2))
  {
  }

  lemma FanRingFails(tri: seq<u32>, root: Corner, vert: int, last: int, s: St)
    requires vert < last
    ensures ReadIndex(tri, s.ti).Err? || ReadIndex(tri, s.ti + 1).Err? ||
            ReadIndex(tri, s.ti + 2).Err? || ReadIndex(tri, s.ti + 3).Err?
            ==> FanRing(tri, root, vert, last, s).Err?
  {
  }

  lemma FanRingNext(tri: seq<u32>, root: Corner, vert: int, last: int, s: St, n: u32, v: u32, nextN: u32, nextV: u32)
    requires vert < last
    requires ReadIndex(tri, s.ti) == Ok(n) && ReadIndex(tri, s.ti + 1) == Ok(v)
    requires ReadIndex(tri, s.ti + 2) == Ok(nextN) && ReadIndex(tri, s.ti + 3) == Ok(nextV)
    ensures FanRing(tri, root, vert + 1, last, s.(ti := s.ti + 2, mesh := Emit(s.mesh, Triangle(root, Corner(n, [], v), Corner(nextN, [], nextV)))))
         == FanRing(tri, root, vert, last, s)
  {
  }

  // Block 3

  lemma StripeBlockFails(d: FaceView, tri: seq<u32>, s: St)
    ensures ReadSize(d, s.sz).Err? ==> StripeBlock(d, tri, s).Err?
  {
  }

  lemma StripeBlockNext(d: FaceView, tri: seq<u32>, s: St, entry: SizeEntry)
    requires ReadSize(d, s.sz) == Ok(entry)
    ensures StripeBlock(d, tri, s) == Repeat(EachStripe(d, tri), entry.value, s.(sz := s.sz + 1))
  {
  }

  lemma OneStripeFails(d: FaceView, tri: seq<u32>, s: St)
    ensures ReadSize(d, s.sz).Err? ==> OneStripe(d, tri, s).Err?
    ensures ReadSize(d, s.sz).Ok? && StripePrimitive(tri, ReadSize(d, s.sz).value.value, s.(sz := s.sz + 1)).Err?
            ==> OneStripe(d, tri, s).Err?
  {
  }

  lemma OneStripeNext(d: FaceView, tri: seq<u32>, s: St, entry: SizeEntry, s1: St)
    requires ReadSize(d, s.sz) == Ok(entry)
    requires StripePrimitive(tri, entry.value, s.(sz := s.sz + 1)) == Ok(s1)
    ensures OneStripe(d, tri, s) == Ok(s1)
  {
  }

  lemma StripePrimitiveFails(tri: seq<u32>, numPts: u32, s: St)
    ensures StripeRun(tri, 1, RingEnd(numPts), s.(ti := s.ti + 2)).Err? ==> StripePrimitive(tri, numPts, s).Err?
  {
  }

  lemma StripePrimitiveNext(tri: seq<u32>, numPts: u32, s: St, s1: St)
    requires StripeRun(tri, 1, RingEnd(numPts), s.(ti := s.ti + 2)) == Ok(s1)
    ensures StripePrimitive(tri, numPts, s) == Ok(s1.(ti := s1.ti + 2))
  {
  }

  lemma StripeRunFails(tri: seq<u32>, vert: int, last: int, s: St)
    requires vert < last
    ensures ReadIndex(tri, s.ti - 2).Err? || ReadIndex(tri, s.ti - 1).Err? ||
            ReadIndex(tri, s.ti).Err? || ReadIndex(tri, s.ti + 1).Err? ||
            ReadIndex(tri, s.ti + 2).Err? || ReadIndex(tri, s.ti + 3).Err?
            ==> StripeRun(tri, vert, last, s).Err?
  {
  }

  lemma StripeRunNext(tri: seq<u32>, vert: int, last: int, s: St,
                      prevN: u32, prevV: u32, curN: u32, curV: u32, nextN: u32, nextV: u32)
    requires vert < last
    requires ReadIndex(tri, s.ti - 2) == Ok(prevN) && ReadIndex(tri, s.ti - 1) == Ok(prevV)
    requires ReadIndex(tri, s.ti) == Ok(curN) && ReadIndex(tri, s.ti + 1) == Ok(curV)
    requires ReadIndex(tri, s.ti + 2) == Ok(nextN) && ReadIndex(tri, s.ti + 3) == Ok(nextV)
    ensures StripeRun(tri, vert + 1, last, s.(ti := s.ti + 2, mesh := Emit(s.mesh,
              StripTriangle(vert, Corner(prevN, [], prevV), Corner(curN, [], curV), Corner(nextN, [], nextV)))))
         == StripeRun(tri, vert, last, s)
  {
  }

  // Block 4

  lemma OneNormalTriangleBlockFails(d: FaceView, tri: seq<u32>, s: St)
    ensures ReadSize(d, s.sz).Err? ==> OneNormalTriangleBlock(d, tri, s).Err?
  {
  }

  lemma OneNormalTriangleBlockNext(d: FaceView, tri: seq<u32>, s: St, entry: SizeEntry)
    requires ReadSize(d, s.sz) == Ok(entry)
    ensures OneNormalTriangleBlock(d, tri, s) == OneNormalTriangleList(tri, entry.value, s.(sz := s.sz + 1))
  {
  }

  lemma OneNormalTriangleListFails(tri: seq<u32>, count: nat, s: St)
    requires count > 0
    ensures ReadIndex(tri, s.ti).Err? ==> OneNormalTriangleList(tri, count, s).Err?
    ensures ReadIndex(tri, s.ti).Ok? && VertexRun(tri, ReadIndex(tri, s.ti).value, 3, s.(ti := s.ti + 1)).Err?
            ==> OneNormalTriangleList(tri, count, s).Err?
  {
  }

  lemma OneNormalTriangleListNext(tri: seq<u32>, count: nat, s: St, n: u32, s1: St)
    requires count > 0 && ReadIndex(tri, s.ti) == Ok(n)
    requires VertexRun(tri, n, 3, s.(ti := s.ti + 1)) == Ok(s1)
    ensures OneNormalTriangleList(tri, count - 1, s1) == OneNormalTriangleList(tri, count, s)
  {
  }

  lemma VertexRunFails(tri: seq<u32>, n: u32, j: nat, s: St)
    requires j > 0
    ensures ReadIndex(tri, s.ti).Err? ==> VertexRun(tri, n, j, s).Err?
  {
  }

  lemma VertexRunNext(tri: seq<u32>, n: u32, j: nat, s: St, v: u32)
    requires j > 0 && ReadIndex(tri, s.ti) == Ok(v)
    ensures VertexRun(tri, n, j - 1, s.(ti := s.ti + 1, mesh := Push(s.mesh, Corner(n, [], v)))) == VertexRun(tri, n, j, s)
  {
  }

  // Block 5

  lemma OneNormalFanBlockFails(d: FaceView, tri: seq<u32>, s: St)
    ensures ReadSize(d, s.sz).Err? ==> OneNormalFanBlock(d, tri, s).Err?
  {
  }

  lemma OneNormalFanBlockNext(d: FaceView, tri: seq<u32>, s: St, entry: SizeEntry)
    requires ReadSize(d, s.sz) == Ok(entry)
    ensures OneNormalFanBlock(d, tri, s) == Repeat(EachOneNormalFan(d, tri), entry.value, s.(sz := s.sz + 1))
  {
  }

  lemma OneNormalFanFails(d: FaceView, tri: seq<u32>, s: St)
    ensures ReadSize(d, s.sz).Err? ==> OneNormalFan(d, tri, s).Err?
    ensures ReadSize(d, s.sz).Ok? ==>
              var entry := ReadSize(d, s.sz).value;
              OneNormalFanPrimitive(tri, !entry.normalSingle, entry.points, s.(sz := s.sz + 1)).Err?
              ==> OneNormalFan(d, tri, s).Err?
  {
  }

  lemma OneNormalFanNext(d: FaceView, tri: seq<u32>, s: St, entry: SizeEntry, s1: St)
    requires ReadSize(d, s.sz) == Ok(entry)
    requires OneNormalFanPrimitive(tri, !entry.normalSingle, entry.points, s.(sz := s.sz + 1)) == Ok(s1)
    ensures OneNormalFan(d, tri, s) == Ok(s1)
  {
  }

  lemma OneNormalFanPrimitiveFails(tri: seq<u32>, hvn: bool, numPts: u32, s: St)
    ensures ReadIndex(tri, s.ti).Err? || ReadIndex(tri, s.ti + 1).Err? ==> OneNormalFanPrimitive(tri, hvn, numPts, s).Err?
    ensures ReadIndex(tri, s.ti).Ok? && ReadIndex(tri, s.ti + 1).Ok? &&
            OneNormalFanRing(tri, hvn, Corner(ReadIndex(tri, s.ti).value, [], ReadIndex(tri, s.ti + 1).value), 1, RingEnd(numPts), s.(ti := s.ti + 2)).Err?
            ==> OneNormalFanPrimitive(tri, hvn, numPts, s).Err?
  {
  }

  lemma OneNormalFanPrimitiveNext(tri: seq<u32>, hvn: bool, numPts: u32, s: St, rootN: u32, rootV: u32, s1: St)
    requires ReadIndex(tri, s.ti) == Ok(rootN) && ReadIndex(tri, s.ti + 1) == Ok(rootV)
    requires OneNormalFanRing(tri, hvn, Corner(rootN, [], rootV), 1, RingEnd(numPts), s.(ti := s.ti + 2)) == Ok(s1)
    ensures OneNormalFanPrimitive(tri, hvn, numPts, s) == Ok(s1.(ti := s1.ti + (if hvn then 2 else 1)))
  {
  }

  lemma OneNormalFanRingFails(tri: seq<u32>, hvn: bool, root: Corner, vert: int, last: int, s: St)
    requires vert < last
    ensures var c1 := if hvn then s.ti + 1 else s.ti;
            var c2 := c1 + 1;
            (hvn && ReadIndex(tri, s.ti).Err?) || ReadIndex(tri, c1).Err? ||
            (hvn && ReadIndex(tri, c2).Err?) || ReadIndex(tri, c2 + (if hvn then 1 else 0)).Err?
            ==> OneNormalFanRing(tri, hvn, root, vert, last, s).Err?
  {
  }

  lemma OneNormalFanRingNext(tri: seq<u32>, hvn: bool, root: Corner, vert: int, last: int, s: St,
                             c1: nat, c2: nat, n: u32, v: u32, nextN: u32, nextV: u32)
    requires vert < last && c1 == (if hvn then s.ti + 1 else s.ti) && c2 == c1 + 1
    requires (if hvn then ReadIndex(tri, s.ti) else Ok(root.normal)) == Ok(n)
    requires ReadIndex(tri, c1) == Ok(v)
    requires (if hvn then ReadIndex(tri, c2) else Ok(root.normal)) == Ok(nextN)
    requires ReadIndex(tri, c2 + (if hvn then 1 else 0)) == Ok(nextV)
    ensures OneNormalFanRing(tri, hvn, root, vert + 1, last, s.(ti := c2, mesh := Emit(s.mesh, Triangle(root, Corner(n, [], v), Corner(nextN, [], nextV)))))
         == OneNormalFanRing(tri, hvn, root, vert, last, s)
  {
  }

  // Block 6

  lemma OneNormalStripeBlockFails(d: FaceView, tri: seq<u32>, s: St)
    ensures ReadSize(d, s.sz).Err? ==> OneNormalStripeBlock(d, tri, s).Err?
  {
  }

  lemma OneNormalStripeBlockNext(d: FaceView, tri: seq<u32>, s: St, entry: SizeEntry)
    requires ReadSize(d, s.sz) == Ok(entry)
    ensures OneNormalStripeBlock(d, tri, s) == Repeat(EachOneNormalStripe(d, tri), entry.value, s.(sz := s.sz + 1))
  {
  }

  lemma OneNormalStripeFails(d: FaceView, tri: seq<u32>, s: St)
    ensures ReadSize(d, s.sz).Err? ==> OneNormalStripe(d, tri, s).Err?
    ensures ReadSize(d, s.sz).Ok? ==>
              var entry := ReadSize(d, s.sz).value;
              OneNormalStripePrimitive(tri, !entry.normalSingle, entry.points, s.(sz := s.sz + 1)).Err?
              ==> OneNormalStripe(d, tri, s).Err?
  {
  }

  lemma OneNormalStripeNext(d: FaceView, tri: seq<u32>, s: St, entry: SizeEntry, s1: St)
    requires ReadSize(d, s.sz) == Ok(entry)
    requires OneNormalStripePrimitive(tri, !entry.normalSingle, entry.points, s.(sz := s.sz + 1)) == Ok(s1)
    ensures OneNormalStripe(d, tri, s) == Ok(s1)
  {
  }

  lemma OneNormalStripePrimitiveFails(tri: seq<u32>, hvn: bool, numPts: u32, s: St)
    ensures ReadIndex(tri, s.ti).Err? ==> OneNormalStripePrimitive(tri, hvn, numPts, s).Err?
    ensures ReadIndex(tri, s.ti).Ok? &&
            OneNormalStripeRun(tri, hvn, ReadIndex(tri, s.ti).value, 1, RingEnd(numPts), s.(ti := s.ti + 2)).Err?
            ==> OneNormalStripePrimitive(tri, hvn, numPts, s).Err?
  {
  }

  lemma OneNormalStripePrimitiveNext(tri: seq<u32>, hvn: bool, numPts: u32, s: St, series: u32, s1: St)
    requires ReadIndex(tri, s.ti) == Ok(series)
    requires OneNormalStripeRun(tri, hvn, series, 1, RingEnd(numPts), s.(ti := s.ti + 2)) == Ok(s1)
    ensures OneNormalStripePrimitive(tri, hvn, numPts, s) == Ok(s1.(ti := s1.ti + (if hvn then 2 else 1)))
  {
  }

  lemma OneNormalStripeRunFails(tri: seq<u32>, hvn: bool, series: u32, vert: int, last: int, s: St)
    requires vert < last
    ensures var c1 := if hvn then s.ti + 1 else s.ti;
            var c2 := c1 + 1;
            (hvn && ReadIndex(tri, s.ti - 2).Err?) || ReadIndex(tri, s.ti - 1).Err? ||
            (hvn && ReadIndex(tri, s.ti).Err?) || ReadIndex(tri, c1).Err? ||
            (hvn && ReadIndex(tri, c2).Err?) || ReadIndex(tri, c2 + (if hvn then 1 else 0)).Err?
            ==> OneNormalStripeRun(tri, hvn, series, vert, last, s).Err?
  {
  }

  lemma OneNormalStripeRunNext(tri: seq<u32>, hvn: bool, series: u32, vert: int, last: int, s: St, c1: nat, c2: nat,
                               prevN: u32, prevV: u32, curN: u32, curV: u32, nextN: u32, nextV: u32)
    requires vert < last && c1 == (if hvn then s.ti + 1 else s.ti) && c2 == c1 + 1
    requires (if hvn then ReadIndex(tri, s.ti - 2) else Ok(series)) == Ok(prevN)
    requires ReadIndex(tri, s.ti - 1) == Ok(prevV)
    requires (if hvn then ReadIndex(tri, s.ti) else Ok(series)) == Ok(curN)
    requires ReadIndex(tri, c1) == Ok(curV)
    requires (if hvn then ReadIndex(tri, c2) else Ok(series)) == Ok(nextN)
    requires ReadIndex(tri, c2 + (if hvn then 1 else 0)) == Ok(nextV)
    ensures OneNormalStripeRun(tri, hvn, series, vert + 1, last, s.(ti := c2, mesh := Emit(s.mesh,
              StripTriangle(vert, Corner(prevN, [], prevV), Corner(curN, [], curV), Corner(nextN, [], nextV)))))
         == OneNormalStripeRun(tri, hvn, series, vert, last, s)
  {
  }

  // Block 7

  lemma TexturedTriangleBlockFails(d: FaceView, tri: seq<u32>, s: St)
    ensures ReadSize(d, s.sz).Err? ==> TexturedTriangleBlock(d, tri, s).Err?
  {
  }

  lemma TexturedTriangleBlockNext(d: FaceView, tri: seq<u32>, s: St, entry: SizeEntry)
    requires ReadSize(d, s.sz) == Ok(entry)
    ensures TexturedTriangleBlock(d, tri, s) == TexturedTriangleList(tri, d.textureCoordIndexesSize, entry.value, s.(sz := s.sz + 1))
  {
  }

  lemma TexturedTriangleListFails(tri: seq<u32>, T: nat, count: nat, s: St)
    requires count > 0
    ensures TexturedCornerRun(tri, T, 3, s).Err? ==> TexturedTriangleList(tri, T, count, s).Err?
  {
  }

  lemma TexturedTriangleListNext(tri: seq<u32>, T: nat, count: nat, s: St, s1: St)
    requires count > 0 && TexturedCornerRun(tri, T, 3, s) == Ok(s1)
    ensures TexturedTriangleList(tri, T, count - 1, s1) == TexturedTriangleList(tri, T, count, s)
  {
  }

  lemma TexturedCornerRunFails(tri: seq<u32>, T: nat, j: nat, s: St)
    requires j > 0
    ensures ReadCorner(tri, s.ti, T).Err? ==> TexturedCornerRun(tri, T, j, s).Err?
  {
  }

  lemma TexturedCornerRunNext(tri: seq<u32>, T: nat, j: nat, s: St, c: Corner)
    requires j > 0 && ReadCorner(tri, s.ti, T) == Ok(c)
    ensures TexturedCornerRun(tri, T, j - 1, s.(ti := s.ti + 2 + T, mesh := Push(s.mesh, c))) == TexturedCornerRun(tri, T, j, s)
  {
  }

  // Block 8

  lemma TexturedFanBlockFails(d: FaceView, tri: seq<u32>, s: St)
    ensures ReadSize(d, s.sz).Err? ==> TexturedFanBlock(d, tri, s).Err?
  {
  }

  lemma TexturedFanBlockNext(d: FaceView, tri: seq<u32>, s: St, entry: SizeEntry)
    requires ReadSize(d, s.sz) == Ok(entry)
    ensures TexturedFanBlock(d, tri, s) == Repeat(EachTexturedFan(d, tri), entry.value, s.(sz := s.sz + 1))
  {
  }

  lemma OneTexturedFanFails(d: FaceView, tri: seq<u32>, s: St)
    ensures ReadSize(d, s.sz).Err? ==> OneTexturedFan(d, tri, s).Err?
    ensures ReadSize(d, s.sz).Ok? &&
            TexturedFanPrimitive(tri, d.textureCoordIndexesSize, ReadSize(d, s.sz).value.value, s.(sz := s.sz + 1)).Err?
            ==> OneTexturedFan(d, tri, s).Err?
  {
  }

  lemma OneTexturedFanNext(d: FaceView, tri: seq<u32>, s: St, entry: SizeEntry, s1: St)
    requires ReadSize(d, s.sz) == Ok(entry)
    requires TexturedFanPrimitive(tri, d.textureCoordIndexesSize, entry.value, s.(sz := s.sz + 1)) == Ok(s1)
    ensures OneTexturedFan(d, tri, s) == Ok(s1)
  {
  }

  lemma TexturedFanPrimitiveFails(tri: seq<u32>, T: nat, numPts: u32, s: St)
    ensures ReadCorner(tri, s.ti, T).Err? ==> TexturedFanPrimitive(tri, T, numPts, s).Err?
    ensures ReadCorner(tri, s.ti, T).Ok? &&
            TexturedFanRing(tri, T, ReadCorner(tri, s.ti, T).value, 1, RingEnd(numPts), s.(ti := s.ti + 2 + T)).Err?
            ==> TexturedFanPrimitive(tri, T, numPts, s).Err?
  {
  }

  lemma TexturedFanPrimitiveNext(tri: seq<u32>, T: nat, numPts: u32, s: St, root: Corner, s1: St)
    requires ReadCorner(tri, s.ti, T) == Ok(root)
    requires TexturedFanRing(tri, T, root, 1, RingEnd(numPts), s.(ti := s.ti + 2 + T)) == Ok(s1)
    ensures TexturedFanPrimitive(tri, T, numPts, s) == Ok(s1)
  {
  }

  lemma TexturedFanRingFails(tri: seq<u32>, T: nat, root: Corner, vert: int, last: int, s: St)
    requires vert < last
    ensures ReadCorner(tri, s.ti, T).Err? || ReadCorner(tri, s.ti + 2 + T, T).Err?
            ==> TexturedFanRing(tri, T, root, vert, last, s).Err?
  {
  }

  lemma TexturedFanRingNext(tri: seq<u32>, T: nat, root: Corner, vert: int, last: int, s: St, c1: Corner, c2: Corner)
    requires vert < last
    requires ReadCorner(tri, s.ti, T) == Ok(c1) && ReadCorner(tri, s.ti + 2 + T, T) == Ok(c2)
    ensures TexturedFanRing(tri, T, root, vert + 1, last, s.(ti := s.ti + 2 * (2 + T), mesh := Emit(s.mesh, Triangle(root, c1, c2))))
         == TexturedFanRing(tri, T, root, vert, last, s)
  {
  }

  // Block 9

  lemma TexturedStripeBlockFails(d: FaceView, tri: seq<u32>, s: St)
    ensures ReadSize(d, s.sz).Err? ==> TexturedStripeBlock(d, tri, s).Err?
  {
  }

  lemma TexturedStripeBlockNext(d: FaceView, tri: seq<u32>, s: St, entry: SizeEntry)
    requires ReadSize(d, s.sz) == Ok(entry)
    ensures TexturedStripeBlock(d, tri, s) == Repeat(EachTexturedStripe(d, tri), entry.value, s.(sz := s.sz + 1))
  {
  }

  lemma OneTexturedStripeFails(d: FaceView, tri: seq<u32>, s: St)
    ensures ReadSize(d, s.sz).Err? ==> OneTexturedStripe(d, tri, s).Err?
    ensures ReadSize(d, s.sz).Ok? &&
            TexturedStripePrimitive(tri, d.textureCoordIndexesSize, ReadSize(d, s.sz).value.value, s.(sz := s.sz + 1)).Err?
            ==> OneTexturedStripe(d, tri, s).Err?
  {
  }

  lemma OneTexturedStripeNext(d: FaceView, tri: seq<u32>, s: St, entry: SizeEntry, s1: St)
    requires ReadSize(d, s.sz) == Ok(entry)
    requires TexturedStripePrimitive(tri, d.textureCoordIndexesSize, entry.value, s.(sz := s.sz + 1)) == Ok(s1)
    ensures OneTexturedStripe(d, tri, s) == Ok(s1)
  {
  }

  lemma TexturedStripePrimitiveIs(tri: seq<u32>, T: nat, numPts: u32, s: St)
    ensures TexturedStripePrimitive(tri, T, numPts, s) == TexturedStripeRun(tri, T, 1, RingEnd(numPts), s)
  {
  }

  lemma TexturedStripeRunFails(tri: seq<u32>, T: nat, vert: int, last: int, s: St)
    requires vert < last
    ensures ReadCorner(tri, s.ti - (2 + T), T).Err? || ReadCorner(tri, s.ti, T).Err? || ReadCorner(tri, s.ti + 2 + T, T).Err?
            ==> TexturedStripeRun(tri, T, vert, last, s).Err?
  {
  }

  lemma TexturedStripeRunNext(tri: seq<u32>, T: nat, vert: int, last: int, s: St, prev: Corner, cur: Corner, next: Corner)
    requires vert < last
    requires ReadCorner(tri, s.ti - (2 + T), T) == Ok(prev) && ReadCorner(tri, s.ti, T) == Ok(cur)
    requires ReadCorner(tri, s.ti + 2 + T, T) == Ok(next)
    ensures TexturedStripeRun(tri, T, vert + 1, last, s.(ti := s.ti + 2 + T, mesh := Emit(s.mesh, StripTriangle(vert, prev, cur, next))))
         == TexturedStripeRun(tri, T, vert, last, s)
  {
  }

  // Block 10

  lemma OneNormalTexturedTriangleBlockFails(d: FaceView, tri: seq<u32>, s: St)
    ensures ReadSize(d, s.sz).Err? || ReadIndex(tri, s.ti).Err? ==> OneNormalTexturedTriangleBlock(d, tri, s).Err?
  {
  }

  lemma OneNormalTexturedTriangleBlockNext(d: FaceView, tri: seq<u32>, s: St, entry: SizeEntry, series: u32)
    requires ReadSize(d, s.sz) == Ok(entry) && ReadIndex(tri, s.ti) == Ok(series)
    ensures OneNormalTexturedTriangleBlock(d, tri, s)
         == OneNormalTexturedTriangleList(tri, d.textureCoordIndexesSize, !entry.normalSingle, series, entry.value, s.(sz := s.sz + 1))
  {
  }

  lemma OneNormalTexturedTriangleListFails(tri: seq<u32>, T: nat, hvn: bool, series: u32, count: nat, s: St)
    requires count > 0
    ensures OneNormalTexturedCornerRun(tri, T, hvn, series, 3, s).Err? ==> OneNormalTexturedTriangleList(tri, T, hvn, series, count, s).Err?
  {
  }

  lemma OneNormalTexturedTriangleListNext(tri: seq<u32>, T: nat, hvn: bool, series: u32, count: nat, s: St, s1: St)
    requires count > 0 && OneNormalTexturedCornerRun(tri, T, hvn, series, 3, s) == Ok(s1)
    ensures OneNormalTexturedTriangleList(tri, T, hvn, series, count - 1, s1) == OneNormalTexturedTriangleList(tri, T, hvn, series, count, s)
  {
  }

  lemma OneNormalTexturedCornerRunFails(tri: seq<u32>, T: nat, hvn: bool, series: u32, j: nat, s: St)
    requires j > 0
    ensures var c1 := if hvn then s.ti + 1 else s.ti;
            (hvn && ReadIndex(tri, s.ti).Err?) || ReadRun(tri, c1, T).Err? || ReadIndex(tri, c1 + T).Err?
            ==> OneNormalTexturedCornerRun(tri, T, hvn, series, j, s).Err?
  {
  }

  lemma OneNormalTexturedCornerRunNext(tri: seq<u32>, T: nat, hvn: bool, series: u32, j: nat, s: St, c1: nat, n: u32, t: seq<u32>, v: u32)
    requires j > 0 && c1 == (if hvn then s.ti + 1 else s.ti)
    requires (if hvn then ReadIndex(tri, s.ti) else Ok(series)) == Ok(n)
    requires ReadRun(tri, c1, T) == Ok(t) && ReadIndex(tri, c1 + T) == Ok(v)
    ensures OneNormalTexturedCornerRun(tri, T, hvn, series, j - 1, s.(ti := c1 + T + 1, mesh := Push(s.mesh, Corner(n, t, v))))
         == OneNormalTexturedCornerRun(tri, T, hvn, series, j, s)
  {
  }

  // Block 11

  lemma OneNormalTexturedFanBlockFails(d: FaceView, tri: seq<u32>, s: St)
    ensures ReadSize(d, s.sz).Err? ==> OneNormalTexturedFanBlock(d, tri, s).Err?
  {
  }

  lemma OneNormalTexturedFanBlockNext(d: FaceView, tri: seq<u32>, s: St, entry: SizeEntry)
    requires ReadSize(d, s.sz) == Ok(entry)
    ensures OneNormalTexturedFanBlock(d, tri, s) == Repeat(EachOneNormalTexturedFan(d, tri), entry.value, s.(sz := s.sz + 1))
  {
  }

  lemma OneNormalTexturedFanFails(d: FaceView, tri: seq<u32>, s: St)
    ensures ReadCorner(tri, s.ti, d.textureCoordIndexesSize).Err? ==> OneNormalTexturedFan(d, tri, s).Err?
    ensures ReadCorner(tri, s.ti, d.textureCoordIndexesSize).Ok? &&
            RootedOneNormalTexturedFan(d, tri, ReadCorner(tri, s.ti, d.textureCoordIndexesSize).value,
                                       s.(ti := s.ti + 2 + d.textureCoordIndexesSize)).Err?
            ==> OneNormalTexturedFan(d, tri, s).Err?
  {
  }

  lemma OneNormalTexturedFanNext(d: FaceView, tri: seq<u32>, s: St, root: Corner, s1: St)
    requires ReadCorner(tri, s.ti, d.textureCoordIndexesSize) == Ok(root)
    requires RootedOneNormalTexturedFan(d, tri, root, s.(ti := s.ti + 2 + d.textureCoordIndexesSize)) == Ok(s1)
    ensures OneNormalTexturedFan(d, tri, s) == Ok(s1)
  {
  }

  lemma RootedOneNormalTexturedFanFails(d: FaceView, tri: seq<u32>, root: Corner, s: St)
    ensures ReadSize(d, s.sz).Err? ==> RootedOneNormalTexturedFan(d, tri, root, s).Err?
    ensures ReadSize(d, s.sz).Ok? ==>
              var entry := ReadSize(d, s.sz).value;
              OneNormalTexturedFanPrimitive(tri, d.textureCoordIndexesSize, !entry.normalSingle, root, entry.points,
                                            s.(sz := s.sz + 1)).Err?
              ==> RootedOneNormalTexturedFan(d, tri, root, s).Err?
  {
  }

  lemma RootedOneNormalTexturedFanNext(d: FaceView, tri: seq<u32>, root: Corner, s: St, entry: SizeEntry, s1: St)
    requires ReadSize(d, s.sz) == Ok(entry)
    requires OneNormalTexturedFanPrimitive(tri, d.textureCoordIndexesSize, !entry.normalSingle, root, entry.points,
                                           s.(sz := s.sz + 1)) == Ok(s1)
    ensures RootedOneNormalTexturedFan(d, tri, root, s) == Ok(s1)
  {
  }

  lemma OneNormalTexturedFanPrimitiveIs(tri: seq<u32>, T: nat, hvn: bool, root: Corner, numPts: u32, s: St)
    ensures OneNormalTexturedFanPrimitive(tri, T, hvn, root, numPts, s) == OneNormalTexturedFanRing(tri, T, hvn, root, 1, RingEnd(numPts), s)
  {
  }

  lemma OneNormalTexturedFanRingFails(tri: seq<u32>, T: nat, hvn: bool, root: Corner, vert: int, last: int, s: St)
    requires vert < last
    ensures var c1 := if hvn then s.ti + 1 else s.ti;
            var c2 := c1 + T + 1;
            (hvn && ReadIndex(tri, s.ti).Err?) || ReadRun(tri, c1, T).Err? || ReadIndex(tri, c1 + T).Err? ||
            (hvn && ReadIndex(tri, c2).Err?) || ReadRun(tri, c2 + 1, T).Err? ||
            ReadIndex(tri, c2 + 1 + (if hvn then T else 0)).Err?
            ==> OneNormalTexturedFanRing(tri, T, hvn, root, vert, last, s).Err?
  {
  }

  lemma OneNormalTexturedFanRingNext(tri: seq<u32>, T: nat, hvn: bool, root: Corner, vert: int, last: int, s: St, c1: nat, c2: nat,
                                     n: u32, t: seq<u32>, v: u32, nextN: u32, nextT: seq<u32>, nextV: u32)
    requires vert < last && c1 == (if hvn then s.ti + 1 else s.ti) && c2 == c1 + T + 1
    requires (if hvn then ReadIndex(tri, s.ti) else Ok(root.normal)) == Ok(n)
    requires ReadRun(tri, c1, T) == Ok(t) && ReadIndex(tri, c1 + T) == Ok(v)
    requires (if hvn then ReadIndex(tri, c2) else Ok(root.normal)) == Ok(nextN)
    requires ReadRun(tri, c2 + 1, T) == Ok(nextT) && ReadIndex(tri, c2 + 1 + (if hvn then T else 0)) == Ok(nextV)
    ensures OneNormalTexturedFanRing(tri, T, hvn, root, vert + 1, last,
              s.(ti := c2, mesh := Emit(s.mesh, Triangle(root, Corner(n, t, v), Corner(nextN, nextT, nextV)))))
         == OneNormalTexturedFanRing(tri, T, hvn, root, vert, last, s)
  {
  }

  // Block 12

  lemma OneNormalTexturedStripeBlockFails(d: FaceView, tri: seq<u32>, s: St)
    ensures ReadSize(d, s.sz).Err? ==> OneNormalTexturedStripeBlock(d, tri, s).Err?
  {
  }

  lemma OneNormalTexturedStripeBlockNext(d: FaceView, tri: seq<u32>, s: St, entry: SizeEntry)
    requires ReadSize(d, s.sz) == Ok(entry)
    ensures OneNormalTexturedStripeBlock(d, tri, s) == Repeat(EachOneNormalTexturedStripe(d, tri), entry.value, s.(sz := s.sz + 1))
  {
  }

  lemma OneNormalTexturedStripeFails(d: FaceView, tri: seq<u32>, s: St)
    ensures ReadSize(d, s.sz).Err? ==> OneNormalTexturedStripe(d, tri, s).Err?
    ensures ReadSize(d, s.sz).Ok? ==>
              var entry := ReadSize(d, s.sz).value;
              OneNormalTexturedStripePrimitive(tri, d.textureCoordIndexesSize, d.styleIndexesSize, !entry.normalSingle,
                                               entry.points, s.(sz := s.sz + 1)).Err?
              ==> OneNormalTexturedStripe(d, tri, s).Err?
  {
  }

  lemma OneNormalTexturedStripeNext(d: FaceView, tri: seq<u32>, s: St, entry: SizeEntry, s1: St)
    requires ReadSize(d, s.sz) == Ok(entry)
    requires OneNormalTexturedStripePrimitive(tri, d.textureCoordIndexesSize, d.styleIndexesSize, !entry.normalSingle,
                                              entry.points, s.(sz := s.sz + 1)) == Ok(s1)
    ensures OneNormalTexturedStripe(d, tri, s) == Ok(s1)
  {
  }

  lemma OneNormalTexturedStripePrimitiveFails(tri: seq<u32>, T: nat, styles: nat, hvn: bool, numPts: u32, s: St)
    ensures ReadIndex(tri, s.ti).Err? ==> OneNormalTexturedStripePrimitive(tri, T, styles, hvn, numPts, s).Err?
    ensures ReadIndex(tri, s.ti).Ok? &&
            OneNormalTexturedStripeRun(tri, T, hvn, ReadIndex(tri, s.ti).value, 1, RingEnd(numPts),
                                       s.(ti := s.ti + 2 + styles)).Err?
            ==> OneNormalTexturedStripePrimitive(tri, T, styles, hvn, numPts, s).Err?
  {
  }

  lemma OneNormalTexturedStripePrimitiveNext(tri: seq<u32>, T: nat, styles: nat, hvn: bool, numPts: u32, s: St, series: u32, s1: St)
    requires ReadIndex(tri, s.ti) == Ok(series)
    requires OneNormalTexturedStripeRun(tri, T, hvn, series, 1, RingEnd(numPts), s.(ti := s.ti + 2 + styles)) == Ok(s1)
    ensures OneNormalTexturedStripePrimitive(tri, T, styles, hvn, numPts, s) == Ok(s1)
  {
  }

  lemma OneNormalTexturedStripeRunFails(tri: seq<u32>, T: nat, hvn: bool, series: u32, vert: int, last: int, s: St)
    requires vert < last
    ensures var c1 := (if hvn then s.ti + 1 else s.ti) + T;
            var c2 := c1 + 1;
            (hvn && ReadIndex(tri, s.ti - (2 + T)).Err?) || ReadIndex(tri, s.ti - 1).Err? ||
            (hvn && ReadIndex(tri, s.ti).Err?) || ReadIndex(tri, c1).Err? ||
            (hvn && ReadIndex(tri, c2).Err?) || ReadIndex(tri, c2 + 1 + (if hvn then T else 0)).Err?
            ==> OneNormalTexturedStripeRun(tri, T, hvn, series, vert, last, s).Err?
  {
  }

  lemma OneNormalTexturedStripeRunNext(tri: seq<u32>, T: nat, hvn: bool, series: u32, vert: int, last: int, s: St, c1: nat, c2: nat,
                                       prevN: u32, prevV: u32, curN: u32, curV: u32, nextN: u32, nextV: u32)
    requires vert < last && c1 == (if hvn then s.ti + 1 else s.ti) + T && c2 == c1 + 1
    requires (if hvn then ReadIndex(tri, s.ti - (2 + T)) else Ok(series)) == Ok(prevN)
    requires ReadIndex(tri, s.ti - 1) == Ok(prevV)
    requires (if hvn then ReadIndex(tri, s.ti) else Ok(series)) == Ok(curN)
    requires ReadIndex(tri, c1) == Ok(curV)
    requires (if hvn then ReadIndex(tri, c2) else Ok(series)) == Ok(nextN)
    requires ReadIndex(tri, c2 + 1 + (if hvn then T else 0)) == Ok(nextV)
    ensures OneNormalTexturedStripeRun(tri, T, hvn, series, vert + 1, last, s.(ti := c2, mesh := Emit(s.mesh,
              StripTriangle(vert, Corner(prevN, [], prevV), Corner(curN, [], curV), Corner(nextN, [], nextV)))))
         == OneNormalTexturedStripeRun(tri, T, hvn, series, vert, last, s)
  {
  }

  // Wires

  lemma WireFails(k: TessConstants, sizes: seq<bv32>, wire: seq<u32>, idx: nat, wi: nat,
                  current: seq<TessEdge>, loops: seq<TessLoop>)
    requires idx < |sizes|
    ensures ReadWire(wire, wi, EdgeLength(k, sizes[idx])).Err? ==> WireFrom(k, sizes, wire, idx, wi, current, loops).Err?
  {
  }

  lemma WireNext(k: TessConstants, sizes: seq<bv32>, wire: seq<u32>, idx: nat, wi: nat,
                 current: seq<TessEdge>, loops: seq<TessLoop>, vs: seq<u32>)
    requires idx < |sizes| && ReadWire(wire, wi, EdgeLength(k, sizes[idx])) == Ok(vs)
    ensures var open := current + [TessEdge(vs, !Hidden(k, sizes[idx]))];
            var wi1 := wi + EdgeLength(k, sizes[idx]);
            WireFrom(k, sizes, wire, idx, wi, current, loops)
            == if Closes(k, sizes[idx]) then WireFrom(k, sizes, wire, idx + 1, wi1, [], loops + [TessLoop(open)])
               else WireFrom(k, sizes, wire, idx + 1, wi1, open, loops)
  {
  }

}
