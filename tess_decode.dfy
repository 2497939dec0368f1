/** Specification of the triangle part of `TessFaceDataHelper`'s constructor
    (ExchangeToolkit.h): twelve blocks, visited in a fixed order, that read one
    shared cursor into the triangulated index buffer and one cursor into the
    size list, and push the corners they decode onto the mesh lists.

    Each block is a function that mirrors its loops: a `...List` over the
    block's primitives, a `...Primitive` for one of them and a `...Ring` or
    `...Run` for its inner loop. Each loop function tests its exit condition
    and hands one iteration to a `...Pass` function, which calls the loop
    function again for the rest. The source reads raw memory without checking
    bounds; here every read outside a buffer is an `Err`, so `Ok` means that
    every index the source touches lies inside its buffer. */
module TessDecode {
  import opened Bits
  import opened Wrappers
  import opened TessMesh

  /** The SDK's `kA3DTessFaceData*` constants. Their numeric values belong to
      the SDK and are parameters of the model. */
  datatype TessConstants = TessConstants(
    triangle: bv16,
    triangleFan: bv16,
    triangleStripe: bv16,
    triangleOneNormal: bv16,
    triangleFanOneNormal: bv16,
    triangleStripeOneNormal: bv16,
    triangleTextured: bv16,
    triangleFanTextured: bv16,
    triangleStripeTextured: bv16,
    triangleOneNormalTextured: bv16,
    triangleFanOneNormalTextured: bv16,
    triangleStripeOneNormalTextured: bv16,
    normalSingle: bv32,
    normalMask: bv32,
    wireIsClosing: bv32,
    wireIsNotDrawn: bv32)

  /** The fields of `A3DTessFaceData` the decoder reads. A C++ pointer and its
      element count (`m_puiSizesTriangulated`/`m_uiSizesTriangulatedSize`,
      `m_puiSizesWires`/`m_uiSizesWiresSize`) become one sequence. */
  datatype TessFaceData = TessFaceData(
    usedEntitiesFlags: bv16,
    sizesTriangulated: seq<bv32>,
    startTriangulated: u32,
    textureCoordIndexesSize: u32,
    styleIndexesSize: u32,
    sizesWires: seq<bv32>,
    startWire: u32)

  /** A size entry as the blocks use it: `value` is the word as an unsigned
      count, `normalSingle` says whether the NormalSingle bit is set and
      `points` is the word under the NormalMask. */
  datatype SizeEntry = SizeEntry(value: u32, normalSingle: bool, points: u32)

  /** The views the source takes of the size word `w`. */
  function Entry(k: TessConstants, w: bv32): SizeEntry {
    SizeEntry(Cnt(w), AnySet(w, k.normalSingle), Cnt(w & k.normalMask))
  }

  /** The fields the twelve blocks read, with every size entry split into its
      views once. */
  datatype FaceView = FaceView(
    usedEntitiesFlags: bv16,
    sizesTriangulated: seq<SizeEntry>,
    textureCoordIndexesSize: u32,
    styleIndexesSize: u32)

  /** A size word packed from a count that fits the NormalMask and the
      NormalSingle flag reads back as that count and that flag, provided the
      flag lies outside the mask (`& kA3DTessFaceDataNormalMask` and
      `& kA3DTessFaceDataNormalSingle` undo the packing). */
  lemma EntryOfPacked(k: TessConstants, n: bv32, single: bool)
    requires k.normalSingle != 0 && k.normalSingle & k.normalMask == 0
    requires n & !k.normalMask == 0
    ensures Entry(k, PackCount(n, k.normalSingle, single)).points == Cnt(n)
    ensures Entry(k, PackCount(n, k.normalSingle, single)).normalSingle == single
  {
    PackCountRoundTrip(n, k.normalSingle, k.normalMask, single);
  }

  function View(k: TessConstants, d: TessFaceData): FaceView
  {
    FaceView(d.usedEntitiesFlags,
             seq(|d.sizesTriangulated|, i requires 0 <= i < |d.sizesTriangulated| => Entry(k, d.sizesTriangulated[i])),
             d.textureCoordIndexesSize, d.styleIndexesSize)
  }

  /** A read that the source performs outside the buffer it reads. */
  datatype TessError =
    | TriangulatedIndexOutOfRange(index: int)
    | SizeIndexOutOfRange(index: int)
    | WireIndexOutOfRange(index: int)

  /** The decoder's state: `ti_index`, `sz_tri_idx` and the three lists. */
  datatype St = St(ti: nat, sz: nat, mesh: Mesh)

  type Res = Result<St, TessError>

  /** `r` succeeded and left the cursor at `ti`, the size-list cursor at `sz`
      and the lists equal to `mesh`. */
  predicate Yields(r: Res, ti: nat, sz: nat, mesh: Mesh) {
    r.Ok? && r.value.ti == ti && r.value.sz == sz && r.value.mesh == mesh
  }

  // ---------------------------------------------------------------------
  // Reads
  // ---------------------------------------------------------------------

  function ReadIndex(tri: seq<u32>, i: int): Result<u32, TessError> {
    if 0 <= i < |tri| then Ok(tri[i]) else Err(TriangulatedIndexOutOfRange(i))
  }

  /** `n` consecutive entries from `i` (a read of nothing never fails). */
  function ReadRun(tri: seq<u32>, i: int, n: nat): (r: Result<seq<u32>, TessError>)
    ensures r.Ok? ==> |r.value| == n
  {
    if n == 0 then Ok([])
    else if 0 <= i && i + n <= |tri| then Ok(tri[i .. i + n])
    else Err(TriangulatedIndexOutOfRange(if i < 0 then i else i + n - 1))
  }

  function ReadSize(d: FaceView, k: nat): Result<SizeEntry, TessError> {
    if k < |d.sizesTriangulated| then Ok(d.sizesTriangulated[k]) else Err(SizeIndexOutOfRange(k))
  }

  /** A point with its own normal: normal, `T` texture indexes, vertex. */
  function ReadCorner(tri: seq<u32>, i: int, T: nat): (r: Result<Corner, TessError>)
    ensures r.Ok? ==> |r.value.texture| == T
  {
    var n :- ReadIndex(tri, i);
    var t :- ReadRun(tri, i + 1, T);
    var v :- ReadIndex(tri, i + 1 + T);
    Ok(Corner(n, t, v))
  }

  /** How often `for (vert = first; vert < last; vert++)` runs. */
  function Iterations(first: int, last: int): nat {
    if first < last then last - first else 0
  }

  /** The bound `num_pts - 1u` of every fan and strip loop: unsigned, so a
      count of 0 wraps to 2^32 - 1. */
  function RingEnd(numPts: u32): u32 {
    Sub32(numPts, 1)
  }

  /** A size entry read as an unsigned count. */
  function Cnt(entry: bv32): u32 {
    entry as int
  }

  /** Every run of `step` that succeeds keeps a balanced mesh balanced. */
  ghost predicate Balancing(step: St -> Res) {
    forall st :: step(st).Ok? ==> KeepsBalance(st.mesh, step(st).value.mesh)
  }

  /** The outer loop of a fan or strip block: `count` runs of `step`, each
      from where the previous one stopped, ended by the first failure. */
  function Repeat(step: St -> Res, count: nat, s: St): (r: Res)
    ensures Balancing(step) && r.Ok? ==> KeepsBalance(s.mesh, r.value.mesh)
    decreases count, 1
  {
    if count == 0 then Ok(s) else RepeatPass(step, count, s)
  }

  /** One run of `step`, then the remaining `count - 1`. */
  function RepeatPass(step: St -> Res, count: nat, s: St): (r: Res)
    requires count > 0
    ensures Balancing(step) && r.Ok? ==> KeepsBalance(s.mesh, r.value.mesh)
    decreases count, 0
  {
    match step(s)
    case Err(e) => Err(e)
    case Ok(s1) => Repeat(step, count - 1, s1)
  }

  // ---------------------------------------------------------------------
  // Block 1: kA3DTessFaceDataTriangle
  // ---------------------------------------------------------------------

  /** `j` (normal, vertex) pairs read and pushed in order. */
  function PairRun(tri: seq<u32>, j: nat, s: St): (r: Res)
    ensures r.Ok? ==> Grows(s.mesh, r.value.mesh, j) && r.value.ti == s.ti + 2 * j && r.value.sz == s.sz
    decreases j, 1
  {
    if j == 0 then Ok(s) else PairRunPass(tri, j, s)
  }

  function PairRunPass(tri: seq<u32>, j: nat, s: St): (r: Res)
    requires j > 0
    ensures r.Ok? ==> Grows(s.mesh, r.value.mesh, j) && r.value.ti == s.ti + 2 * j && r.value.sz == s.sz
    decreases j, 0
  {
    var n :- ReadIndex(tri, s.ti);
    var v :- ReadIndex(tri, s.ti + 1);
    PairRun(tri, j - 1, s.(ti := s.ti + 2, mesh := Push(s.mesh, Corner(n, [], v))))
  }

  function TriangleList(tri: seq<u32>, count: nat, s: St): (r: Res)
    ensures r.Ok? ==> KeepsBalance(s.mesh, r.value.mesh) && r.value.sz == s.sz
    decreases count, 1
  {
    if count == 0 then Ok(s) else TriangleListPass(tri, count, s)
  }

  function TriangleListPass(tri: seq<u32>, count: nat, s: St): (r: Res)
    requires count > 0
    ensures r.Ok? ==> KeepsBalance(s.mesh, r.value.mesh) && r.value.sz == s.sz
    decreases count, 0
  {
    var s1 :- PairRun(tri, 3, s);
    assert KeepsBalance(s.mesh, s1.mesh);
    TriangleList(tri, count - 1, s1)
  }

  function TriangleBlock(d: FaceView, tri: seq<u32>, s: St): (r: Res)
    ensures r.Ok? ==> KeepsBalance(s.mesh, r.value.mesh)
  {
    var numTris :- ReadSize(d, s.sz);
    TriangleList(tri, numTris.value, s.(sz := s.sz + 1))
  }

  // ---------------------------------------------------------------------
  // Block 2: kA3DTessFaceDataTriangleFan
  // ---------------------------------------------------------------------

  /** The loop from `vert` up to `last`. */
  function FanRing(tri: seq<u32>, root: Corner, vert: int, last: int, s: St): (r: Res)
    ensures r.Ok? ==> KeepsBalance(s.mesh, r.value.mesh) && r.value.sz == s.sz
    decreases last - vert, 1
  {
    if vert >= last then Ok(s) else FanPass(tri, root, vert, last, s)
  }

  /** One pass of the fan loop: the current point is read, the next one only
      looked at, and the triangle (root, current, next) pushed. */
  function FanPass(tri: seq<u32>, root: Corner, vert: int, last: int, s: St): (r: Res)
    requires vert < last
    ensures r.Ok? ==> KeepsBalance(s.mesh, r.value.mesh) && r.value.sz == s.sz
    decreases last - vert, 0
  {
    var n :- ReadIndex(tri, s.ti);
    var v :- ReadIndex(tri, s.ti + 1);
    var nextN :- ReadIndex(tri, s.ti + 2);
    var nextV :- ReadIndex(tri, s.ti + 3);
    var t := Triangle(root, Corner(n, [], v), Corner(nextN, [], nextV));
    FanRing(tri, root, vert + 1, last, s.(ti := s.ti + 2, mesh := Emit(s.mesh, t)))
  }

  function FanPrimitive(tri: seq<u32>, numPts: u32, s: St): (r: Res)
    ensures r.Ok? ==> KeepsBalance(s.mesh, r.value.mesh) && r.value.sz == s.sz
  {
    var rootN :- ReadIndex(tri, s.ti);
    var rootV :- ReadIndex(tri, s.ti + 1);
    var s1 :- FanRing(tri, Corner(rootN, [], rootV), 1, RingEnd(numPts), s.(ti := s.ti + 2));
    Ok(s1.(ti := s1.ti + 2))
  }

  /** One fan: its size entry, then its points. */
  function OneFan(d: FaceView, tri: seq<u32>, s: St): (r: Res)
    ensures r.Ok? ==> KeepsBalance(s.mesh, r.value.mesh)
  {
    var numPts :- ReadSize(d, s.sz);
    FanPrimitive(tri, numPts.value, s.(sz := s.sz + 1))
  }

  function EachFan(d: FaceView, tri: seq<u32>): (step: St -> Res)
    ensures Balancing(step)
  {
    st => OneFan(d, tri, st)
  }

  function FanBlock(d: FaceView, tri: seq<u32>, s: St): (r: Res)
    ensures r.Ok? ==> KeepsBalance(s.mesh, r.value.mesh)
  {
    var numFans :- ReadSize(d, s.sz);
    Repeat(EachFan(d, tri), numFans.value, s.(sz := s.sz + 1))
  }

  // ---------------------------------------------------------------------
  // Block 3: kA3DTessFaceDataTriangleStripe
  // ---------------------------------------------------------------------

  /** The loop from `vert` up to `last`. */
  function StripeRun(tri: seq<u32>, vert: int, last: int, s: St): (r: Res)
    ensures r.Ok? ==> KeepsBalance(s.mesh, r.value.mesh) && r.value.sz == s.sz
    decreases last - vert, 1
  {
    if vert >= last then Ok(s) else StripePass(tri, vert, last, s)
  }

  /** One pass of the strip loop: the previous point sits just before the
      cursor, the current one is read, the next one only looked at. */
  function StripePass(tri: seq<u32>, vert: int, last: int, s: St): (r: Res)
    requires vert < last
    ensures r.Ok? ==> KeepsBalance(s.mesh, r.value.mesh) && r.value.sz == s.sz
    decreases last - vert, 0
  {
    var prevN :- ReadIndex(tri, s.ti - 2);
    var prevV :- ReadIndex(tri, s.ti - 1);
    var curN :- ReadIndex(tri, s.ti);
    var curV :- ReadIndex(tri, s.ti + 1);
    var nextN :- ReadIndex(tri, s.ti + 2);
    var nextV :- ReadIndex(tri, s.ti + 3);
    var t := StripTriangle(vert, Corner(prevN, [], prevV), Corner(curN, [], curV), Corner(nextN, [], nextV));
    StripeRun(tri, vert + 1, last, s.(ti := s.ti + 2, mesh := Emit(s.mesh, t)))
  }

  function StripePrimitive(tri: seq<u32>, numPts: u32, s: St): (r: Res)
    ensures r.Ok? ==> KeepsBalance(s.mesh, r.value.mesh) && r.value.sz == s.sz
  {
    var s1 :- StripeRun(tri, 1, RingEnd(numPts), s.(ti := s.ti + 2));
    Ok(s1.(ti := s1.ti + 2))
  }

  /** One strip: its size entry, then its points. */
  function OneStripe(d: FaceView, tri: seq<u32>, s: St): (r: Res)
    ensures r.Ok? ==> KeepsBalance(s.mesh, r.value.mesh)
  {
    var numPts :- ReadSize(d, s.sz);
    StripePrimitive(tri, numPts.value, s.(sz := s.sz + 1))
  }

  function EachStripe(d: FaceView, tri: seq<u32>): (step: St -> Res)
    ensures Balancing(step)
  {
    st => OneStripe(d, tri, st)
  }

  function StripeBlock(d: FaceView, tri: seq<u32>, s: St): (r: Res)
    ensures r.Ok? ==> KeepsBalance(s.mesh, r.value.mesh)
  {
    var numStrips :- ReadSize(d, s.sz);
    Repeat(EachStripe(d, tri), numStrips.value, s.(sz := s.sz + 1))
  }

  // ---------------------------------------------------------------------
  // Block 4: kA3DTessFaceDataTriangleOneNormal
  // ---------------------------------------------------------------------

  /** `j` vertex indexes read and pushed, each with the normal `n`. */
  function VertexRun(tri: seq<u32>, n: u32, j: nat, s: St): (r: Res)
    ensures r.Ok? ==> Grows(s.mesh, r.value.mesh, j) && r.value.ti == s.ti + j && r.value.sz == s.sz
    decreases j, 1
  {
    if j == 0 then Ok(s) else VertexRunPass(tri, n, j, s)
  }

  function VertexRunPass(tri: seq<u32>, n: u32, j: nat, s: St): (r: Res)
    requires j > 0
    ensures r.Ok? ==> Grows(s.mesh, r.value.mesh, j) && r.value.ti == s.ti + j && r.value.sz == s.sz
    decreases j, 0
  {
    var v :- ReadIndex(tri, s.ti);
    VertexRun(tri, n, j - 1, s.(ti := s.ti + 1, mesh := Push(s.mesh, Corner(n, [], v))))
  }

  function OneNormalTriangleList(tri: seq<u32>, count: nat, s: St): (r: Res)
    ensures r.Ok? ==> KeepsBalance(s.mesh, r.value.mesh) && r.value.sz == s.sz
    decreases count, 1
  {
    if count == 0 then Ok(s) else OneNormalTriangleListPass(tri, count, s)
  }

  function OneNormalTriangleListPass(tri: seq<u32>, count: nat, s: St): (r: Res)
    requires count > 0
    ensures r.Ok? ==> KeepsBalance(s.mesh, r.value.mesh) && r.value.sz == s.sz
    decreases count, 0
  {
    var n :- ReadIndex(tri, s.ti);
    var s1 :- VertexRun(tri, n, 3, s.(ti := s.ti + 1));
    assert KeepsBalance(s.mesh, s1.mesh);
    OneNormalTriangleList(tri, count - 1, s1)
  }

  function OneNormalTriangleBlock(d: FaceView, tri: seq<u32>, s: St): (r: Res)
    ensures r.Ok? ==> KeepsBalance(s.mesh, r.value.mesh)
  {
    var numTris :- ReadSize(d, s.sz);
    OneNormalTriangleList(tri, numTris.value, s.(sz := s.sz + 1))
  }

  // ---------------------------------------------------------------------
  // Block 5: kA3DTessFaceDataTriangleFanOneNormal
  // ---------------------------------------------------------------------

  /** The loop from `vert` up to `last`. */
  function OneNormalFanRing(tri: seq<u32>, hvn: bool, root: Corner, vert: int, last: int, s: St): (r: Res)
    ensures r.Ok? ==> KeepsBalance(s.mesh, r.value.mesh) && r.value.sz == s.sz
    decreases last - vert, 1
  {
    if vert >= last then Ok(s) else OneNormalFanPass(tri, hvn, root, vert, last, s)
  }

  /** With `hvn` the fan loop reads per-point normals; without, every normal
      is the root's and only vertex indexes are read. */
  function OneNormalFanPass(tri: seq<u32>, hvn: bool, root: Corner, vert: int, last: int, s: St): (r: Res)
    requires vert < last
    ensures r.Ok? ==> KeepsBalance(s.mesh, r.value.mesh) && r.value.sz == s.sz
    decreases last - vert, 0
  {
    var n :- if hvn then ReadIndex(tri, s.ti) else Ok(root.normal);
    var c1 := if hvn then s.ti + 1 else s.ti;
    var v :- ReadIndex(tri, c1);
    var c2 := c1 + 1;
    var nextN :- if hvn then ReadIndex(tri, c2) else Ok(root.normal);
    var nextV :- ReadIndex(tri, c2 + (if hvn then 1 else 0));
    var t := Triangle(root, Corner(n, [], v), Corner(nextN, [], nextV));
    OneNormalFanRing(tri, hvn, root, vert + 1, last, s.(ti := c2, mesh := Emit(s.mesh, t)))
  }

  function OneNormalFanPrimitive(tri: seq<u32>, hvn: bool, numPts: u32, s: St): (r: Res)
    ensures r.Ok? ==> KeepsBalance(s.mesh, r.value.mesh) && r.value.sz == s.sz
  {
    var rootN :- ReadIndex(tri, s.ti);
    var rootV :- ReadIndex(tri, s.ti + 1);
    var s1 :- OneNormalFanRing(tri, hvn, Corner(rootN, [], rootV), 1, RingEnd(numPts), s.(ti := s.ti + 2));
    Ok(s1.(ti := s1.ti + (if hvn then 2 else 1)))
  }

  /** One fan: its size entry, which says how its normals are stored, then
      its points. */
  function OneNormalFan(d: FaceView, tri: seq<u32>, s: St): (r: Res)
    ensures r.Ok? ==> KeepsBalance(s.mesh, r.value.mesh)
  {
    var entry :- ReadSize(d, s.sz);
    OneNormalFanPrimitive(tri, !entry.normalSingle, entry.points, s.(sz := s.sz + 1))
  }

  function EachOneNormalFan(d: FaceView, tri: seq<u32>): (step: St -> Res)
    ensures Balancing(step)
  {
    st => OneNormalFan(d, tri, st)
  }

  function OneNormalFanBlock(d: FaceView, tri: seq<u32>, s: St): (r: Res)
    ensures r.Ok? ==> KeepsBalance(s.mesh, r.value.mesh)
  {
    var numFans :- ReadSize(d, s.sz);
    Repeat(EachOneNormalFan(d, tri), numFans.value, s.(sz := s.sz + 1))
  }

  // ---------------------------------------------------------------------
  // Block 6: kA3DTessFaceDataTriangleStripeOneNormal
  // ---------------------------------------------------------------------

  function OneNormalStripeRun(tri: seq<u32>, hvn: bool, series: u32, vert: int, last: int, s: St): (r: Res)
    ensures r.Ok? ==> KeepsBalance(s.mesh, r.value.mesh) && r.value.sz == s.sz
    decreases last - vert, 1
  {
    if vert >= last then Ok(s) else OneNormalStripePass(tri, hvn, series, vert, last, s)
  }

  function OneNormalStripePass(tri: seq<u32>, hvn: bool, series: u32, vert: int, last: int, s: St): (r: Res)
    requires vert < last
    ensures r.Ok? ==> KeepsBalance(s.mesh, r.value.mesh) && r.value.sz == s.sz
    decreases last - vert, 0
  {
    var prevN :- if hvn then ReadIndex(tri, s.ti - 2) else Ok(series);
    var prevV :- ReadIndex(tri, s.ti - 1);
    var curN :- if hvn then ReadIndex(tri, s.ti) else Ok(series);
    var c1 := if hvn then s.ti + 1 else s.ti;
    var curV :- ReadIndex(tri, c1);
    var c2 := c1 + 1;
    var nextN :- if hvn then ReadIndex(tri, c2) else Ok(series);
    var nextV :- ReadIndex(tri, c2 + (if hvn then 1 else 0));
    var t := StripTriangle(vert, Corner(prevN, [], prevV), Corner(curN, [], curV), Corner(nextN, [], nextV));
    OneNormalStripeRun(tri, hvn, series, vert + 1, last, s.(ti := c2, mesh := Emit(s.mesh, t)))
  }

  function OneNormalStripePrimitive(tri: seq<u32>, hvn: bool, numPts: u32, s: St): (r: Res)
    ensures r.Ok? ==> KeepsBalance(s.mesh, r.value.mesh) && r.value.sz == s.sz
  {
    var series :- ReadIndex(tri, s.ti);
    var s1 :- OneNormalStripeRun(tri, hvn, series, 1, RingEnd(numPts), s.(ti := s.ti + 2));
    Ok(s1.(ti := s1.ti + (if hvn then 2 else 1)))
  }

  /** One strip: its size entry, which says how its normals are stored,
      then its points. */
  function OneNormalStripe(d: FaceView, tri: seq<u32>, s: St): (r: Res)
    ensures r.Ok? ==> KeepsBalance(s.mesh, r.value.mesh)
  {
    var entry :- ReadSize(d, s.sz);
    OneNormalStripePrimitive(tri, !entry.normalSingle, entry.points, s.(sz := s.sz + 1))
  }

  function EachOneNormalStripe(d: FaceView, tri: seq<u32>): (step: St -> Res)
    ensures Balancing(step)
  {
    st => OneNormalStripe(d, tri, st)
  }

  function OneNormalStripeBlock(d: FaceView, tri: seq<u32>, s: St): (r: Res)
    ensures r.Ok? ==> KeepsBalance(s.mesh, r.value.mesh)
  {
    var numStrips :- ReadSize(d, s.sz);
    Repeat(EachOneNormalStripe(d, tri), numStrips.value, s.(sz := s.sz + 1))
  }

  // ---------------------------------------------------------------------
  // Block 7: kA3DTessFaceDataTriangleTextured
  // ---------------------------------------------------------------------

  /** `j` points read in order, each a normal, `T` texture indexes and a vertex. */
  function TexturedCornerRun(tri: seq<u32>, T: nat, j: nat, s: St): (r: Res)
    ensures r.Ok? ==> Grows(s.mesh, r.value.mesh, j) && r.value.ti == s.ti + Span(j, 2 + T) && r.value.sz == s.sz
    ensures r.Ok? ==> |r.value.mesh.texture| == |s.mesh.texture| + Span(j, T)
    decreases j, 1
  {
    if j == 0 then Ok(s) else TexturedCornerRunPass(tri, T, j, s)
  }

  function TexturedCornerRunPass(tri: seq<u32>, T: nat, j: nat, s: St): (r: Res)
    requires j > 0
    ensures r.Ok? ==> Grows(s.mesh, r.value.mesh, j) && r.value.ti == s.ti + Span(j, 2 + T) && r.value.sz == s.sz
    ensures r.Ok? ==> |r.value.mesh.texture| == |s.mesh.texture| + Span(j, T)
    decreases j, 0
  {
    var c :- ReadCorner(tri, s.ti, T);
    TexturedCornerRun(tri, T, j - 1, s.(ti := s.ti + 2 + T, mesh := Push(s.mesh, c)))
  }

  function TexturedTriangleList(tri: seq<u32>, T: nat, count: nat, s: St): (r: Res)
    ensures r.Ok? ==> KeepsBalance(s.mesh, r.value.mesh) && r.value.sz == s.sz
    decreases count, 1
  {
    if count == 0 then Ok(s) else TexturedTriangleListPass(tri, T, count, s)
  }

  function TexturedTriangleListPass(tri: seq<u32>, T: nat, count: nat, s: St): (r: Res)
    requires count > 0
    ensures r.Ok? ==> KeepsBalance(s.mesh, r.value.mesh) && r.value.sz == s.sz
    decreases count, 0
  {
    var s1 :- TexturedCornerRun(tri, T, 3, s);
    assert KeepsBalance(s.mesh, s1.mesh);
    TexturedTriangleList(tri, T, count - 1, s1)
  }

  function TexturedTriangleBlock(d: FaceView, tri: seq<u32>, s: St): (r: Res)
    ensures r.Ok? ==> KeepsBalance(s.mesh, r.value.mesh)
  {
    var numTris :- ReadSize(d, s.sz);
    TexturedTriangleList(tri, d.textureCoordIndexesSize, numTris.value, s.(sz := s.sz + 1))
  }

  // ---------------------------------------------------------------------
  // Block 8: kA3DTessFaceDataTriangleFanTextured
  // ---------------------------------------------------------------------

  /** The loop from `vert` up to `last`. */
  function TexturedFanRing(tri: seq<u32>, T: nat, root: Corner, vert: int, last: int, s: St): (r: Res)
    ensures r.Ok? ==> KeepsBalance(s.mesh, r.value.mesh) && r.value.sz == s.sz
    ensures r.Ok? ==> |r.value.mesh.vertices| == |s.mesh.vertices| + 3 * Iterations(vert, last)
    decreases last - vert, 1
  {
    if vert >= last then Ok(s) else TexturedFanPass(tri, T, root, vert, last, s)
  }

  /** One pass of the textured fan loop: unlike the untextured fan it reads
      (and consumes) both the current and the next point. */
  function TexturedFanPass(tri: seq<u32>, T: nat, root: Corner, vert: int, last: int, s: St): (r: Res)
    requires vert < last
    ensures r.Ok? ==> KeepsBalance(s.mesh, r.value.mesh) && r.value.sz == s.sz
    ensures r.Ok? ==> |r.value.mesh.vertices| == |s.mesh.vertices| + 3 * Iterations(vert, last)
    decreases last - vert, 0
  {
    var c1 :- ReadCorner(tri, s.ti, T);
    var c2 :- ReadCorner(tri, s.ti + 2 + T, T);
    TexturedFanRing(tri, T, root, vert + 1, last, s.(ti := s.ti + 2 * (2 + T), mesh := Emit(s.mesh, Triangle(root, c1, c2))))
  }

  /** The root, then the ring (what it adds is `TessTextured.TexturedFanCursor`). */
  function TexturedFanPrimitive(tri: seq<u32>, T: nat, numPts: u32, s: St): (r: Res)
    ensures r.Ok? ==> KeepsBalance(s.mesh, r.value.mesh) && r.value.sz == s.sz
  {
    var root :- ReadCorner(tri, s.ti, T);
    TexturedFanRing(tri, T, root, 1, RingEnd(numPts), s.(ti := s.ti + 2 + T))
  }

  /** One fan: its size entry, then its points. */
  function OneTexturedFan(d: FaceView, tri: seq<u32>, s: St): (r: Res)
    ensures r.Ok? ==> KeepsBalance(s.mesh, r.value.mesh)
  {
    var numPts :- ReadSize(d, s.sz);
    TexturedFanPrimitive(tri, d.textureCoordIndexesSize, numPts.value, s.(sz := s.sz + 1))
  }

  function EachTexturedFan(d: FaceView, tri: seq<u32>): (step: St -> Res)
    ensures Balancing(step)
  {
    st => OneTexturedFan(d, tri, st)
  }

  function TexturedFanBlock(d: FaceView, tri: seq<u32>, s: St): (r: Res)
    ensures r.Ok? ==> KeepsBalance(s.mesh, r.value.mesh)
  {
    var numFans :- ReadSize(d, s.sz);
    Repeat(EachTexturedFan(d, tri), numFans.value, s.(sz := s.sz + 1))
  }

  // ---------------------------------------------------------------------
  // Block 9: kA3DTessFaceDataTriangleStripeTextured
  // ---------------------------------------------------------------------

  /** The loop from `vert` up to `last`. */
  function TexturedStripeRun(tri: seq<u32>, T: nat, vert: int, last: int, s: St): (r: Res)
    ensures r.Ok? ==> KeepsBalance(s.mesh, r.value.mesh) && r.value.sz == s.sz
    ensures r.Ok? ==> |r.value.mesh.vertices| == |s.mesh.vertices| + 3 * Iterations(vert, last)
    decreases last - vert, 1
  {
    if vert >= last then Ok(s) else TexturedStripePass(tri, T, vert, last, s)
  }

  /** One pass of the textured strip loop. There is no initial skip: the
      previous point is the one stored just before the cursor. */
  function TexturedStripePass(tri: seq<u32>, T: nat, vert: int, last: int, s: St): (r: Res)
    requires vert < last
    ensures r.Ok? ==> KeepsBalance(s.mesh, r.value.mesh) && r.value.sz == s.sz
    ensures r.Ok? ==> |r.value.mesh.vertices| == |s.mesh.vertices| + 3 * Iterations(vert, last)
    decreases last - vert, 0
  {
    var prev :- ReadCorner(tri, s.ti - (2 + T), T);
    var cur :- ReadCorner(tri, s.ti, T);
    var next :- ReadCorner(tri, s.ti + 2 + T, T);
    TexturedStripeRun(tri, T, vert + 1, last, s.(ti := s.ti + 2 + T, mesh := Emit(s.mesh, StripTriangle(vert, prev, cur, next))))
  }

  function TexturedStripePrimitive(tri: seq<u32>, T: nat, numPts: u32, s: St): (r: Res)
    ensures r.Ok? ==> KeepsBalance(s.mesh, r.value.mesh) && r.value.sz == s.sz
  {
    TexturedStripeRun(tri, T, 1, RingEnd(numPts), s)
  }

  /** One strip: its size entry, then its points. */
  function OneTexturedStripe(d: FaceView, tri: seq<u32>, s: St): (r: Res)
    ensures r.Ok? ==> KeepsBalance(s.mesh, r.value.mesh)
  {
    var numPts :- ReadSize(d, s.sz);
    TexturedStripePrimitive(tri, d.textureCoordIndexesSize, numPts.value, s.(sz := s.sz + 1))
  }

  function EachTexturedStripe(d: FaceView, tri: seq<u32>): (step: St -> Res)
    ensures Balancing(step)
  {
    st => OneTexturedStripe(d, tri, st)
  }

  function TexturedStripeBlock(d: FaceView, tri: seq<u32>, s: St): (r: Res)
    ensures r.Ok? ==> KeepsBalance(s.mesh, r.value.mesh)
  {
    var numStrips :- ReadSize(d, s.sz);
    Repeat(EachTexturedStripe(d, tri), numStrips.value, s.(sz := s.sz + 1))
  }

  // ---------------------------------------------------------------------
  // Block 10: kA3DTessFaceDataTriangleOneNormalTextured
  // ---------------------------------------------------------------------

  /** `j` textured points; with `hvn` each stores its normal, otherwise every
      normal is `series` and only texture indexes and a vertex are read. */
  function OneNormalTexturedCornerRun(tri: seq<u32>, T: nat, hvn: bool, series: u32, j: nat, s: St): (r: Res)
    ensures r.Ok? ==> Grows(s.mesh, r.value.mesh, j) && r.value.sz == s.sz
    decreases j, 1
  {
    if j == 0 then Ok(s) else OneNormalTexturedCornerRunPass(tri, T, hvn, series, j, s)
  }

  function OneNormalTexturedCornerRunPass(tri: seq<u32>, T: nat, hvn: bool, series: u32, j: nat, s: St): (r: Res)
    requires j > 0
    ensures r.Ok? ==> Grows(s.mesh, r.value.mesh, j) && r.value.sz == s.sz
    decreases j, 0
  {
    var n :- if hvn then ReadIndex(tri, s.ti) else Ok(series);
    var c1 := if hvn then s.ti + 1 else s.ti;
    var t :- ReadRun(tri, c1, T);
    var v :- ReadIndex(tri, c1 + T);
    OneNormalTexturedCornerRun(tri, T, hvn, series, j - 1, s.(ti := c1 + T + 1, mesh := Push(s.mesh, Corner(n, t, v))))
  }

  function OneNormalTexturedTriangleList(tri: seq<u32>, T: nat, hvn: bool, series: u32, count: nat, s: St): (r: Res)
    ensures r.Ok? ==> KeepsBalance(s.mesh, r.value.mesh) && r.value.sz == s.sz
    ensures r.Ok? ==> |r.value.mesh.vertices| == |s.mesh.vertices| + 3 * count
    decreases count, 1
  {
    if count == 0 then Ok(s) else OneNormalTexturedTriangleListPass(tri, T, hvn, series, count, s)
  }

  function OneNormalTexturedTriangleListPass(tri: seq<u32>, T: nat, hvn: bool, series: u32, count: nat, s: St): (r: Res)
    requires count > 0
    ensures r.Ok? ==> KeepsBalance(s.mesh, r.value.mesh) && r.value.sz == s.sz
    ensures r.Ok? ==> |r.value.mesh.vertices| == |s.mesh.vertices| + 3 * count
    decreases count, 0
  {
    var s1 :- OneNormalTexturedCornerRun(tri, T, hvn, series, 3, s);
    assert KeepsBalance(s.mesh, s1.mesh) && |s1.mesh.vertices| == |s.mesh.vertices| + 3;
    OneNormalTexturedTriangleList(tri, T, hvn, series, count - 1, s1)
  }

  /** The NormalSingle test is made on the block's count entry, which is then
      used unmasked as the triangle count; the shared normal is looked at and
      not consumed. */
  function OneNormalTexturedTriangleBlock(d: FaceView, tri: seq<u32>, s: St): (r: Res)
    ensures r.Ok? ==> KeepsBalance(s.mesh, r.value.mesh)
  {
    var entry :- ReadSize(d, s.sz);
    var series :- ReadIndex(tri, s.ti);
    OneNormalTexturedTriangleList(tri, d.textureCoordIndexesSize, !entry.normalSingle, series, entry.value, s.(sz := s.sz + 1))
  }

  // ---------------------------------------------------------------------
  // Block 11: kA3DTessFaceDataTriangleFanOneNormalTextured
  // ---------------------------------------------------------------------

  /** The loop from `vert` up to `last`. */
  function OneNormalTexturedFanRing(tri: seq<u32>, T: nat, hvn: bool, root: Corner, vert: int, last: int, s: St): (r: Res)
    ensures r.Ok? ==> KeepsBalance(s.mesh, r.value.mesh) && r.value.sz == s.sz
    ensures r.Ok? ==> |r.value.mesh.vertices| == |s.mesh.vertices| + 3 * Iterations(vert, last)
    decreases last - vert, 1
  {
    if vert >= last then Ok(s) else OneNormalTexturedFanPass(tri, T, hvn, root, vert, last, s)
  }

  /** One pass of the one-normal textured fan loop: the current point is
      read; the next one is looked at with the offsets of the per-vertex
      layout (texture from one past the cursor), whatever `hvn` says. */
  function OneNormalTexturedFanPass(tri: seq<u32>, T: nat, hvn: bool, root: Corner, vert: int, last: int, s: St): (r: Res)
    requires vert < last
    ensures r.Ok? ==> KeepsBalance(s.mesh, r.value.mesh) && r.value.sz == s.sz
    ensures r.Ok? ==> |r.value.mesh.vertices| == |s.mesh.vertices| + 3 * Iterations(vert, last)
    decreases last - vert, 0
  {
    var n :- if hvn then ReadIndex(tri, s.ti) else Ok(root.normal);
    var c1 := if hvn then s.ti + 1 else s.ti;
    var t :- ReadRun(tri, c1, T);
    var v :- ReadIndex(tri, c1 + T);
    var c2 := c1 + T + 1;
    var nextN :- if hvn then ReadIndex(tri, c2) else Ok(root.normal);
    var nextT :- ReadRun(tri, c2 + 1, T);
    var nextV :- ReadIndex(tri, c2 + 1 + (if hvn then T else 0));
    var tr := Triangle(root, Corner(n, t, v), Corner(nextN, nextT, nextV));
    assert Iterations(vert, last) == Iterations(vert + 1, last) + 1;
    OneNormalTexturedFanRing(tri, T, hvn, root, vert + 1, last, s.(ti := c2, mesh := Emit(s.mesh, tr)))
  }

  function OneNormalTexturedFanPrimitive(tri: seq<u32>, T: nat, hvn: bool, root: Corner, numPts: u32, s: St): (r: Res)
    ensures r.Ok? ==> KeepsBalance(s.mesh, r.value.mesh) && r.value.sz == s.sz
  {
    OneNormalTexturedFanRing(tri, T, hvn, root, 1, RingEnd(numPts), s)
  }

  /** One fan: its root point (read before the size entry), then the rest. */
  function OneNormalTexturedFan(d: FaceView, tri: seq<u32>, s: St): (r: Res)
    ensures r.Ok? ==> KeepsBalance(s.mesh, r.value.mesh)
  {
    var T := d.textureCoordIndexesSize;
    var root :- ReadCorner(tri, s.ti, T);
    RootedOneNormalTexturedFan(d, tri, root, s.(ti := s.ti + 2 + T))
  }

  /** The rest of one fan once its root is read: its size entry, then its points. */
  function RootedOneNormalTexturedFan(d: FaceView, tri: seq<u32>, root: Corner, s: St): (r: Res)
    ensures r.Ok? ==> KeepsBalance(s.mesh, r.value.mesh)
  {
    var entry :- ReadSize(d, s.sz);
    OneNormalTexturedFanPrimitive(tri, d.textureCoordIndexesSize, !entry.normalSingle, root, entry.points, s.(sz := s.sz + 1))
  }

  function EachOneNormalTexturedFan(d: FaceView, tri: seq<u32>): (step: St -> Res)
    ensures Balancing(step)
  {
    st => OneNormalTexturedFan(d, tri, st)
  }

  function OneNormalTexturedFanBlock(d: FaceView, tri: seq<u32>, s: St): (r: Res)
    ensures r.Ok? ==> KeepsBalance(s.mesh, r.value.mesh)
  {
    var numFans :- ReadSize(d, s.sz);
    Repeat(EachOneNormalTexturedFan(d, tri), numFans.value, s.(sz := s.sz + 1))
  }

  // ---------------------------------------------------------------------
  // Block 12: kA3DTessFaceDataTriangleStripeOneNormalTextured
  // ---------------------------------------------------------------------

  /** The loop from `vert` up to `last`. */
  function OneNormalTexturedStripeRun(tri: seq<u32>, T: nat, hvn: bool, series: u32, vert: int, last: int, s: St): (r: Res)
    ensures r.Ok? ==> KeepsBalance(s.mesh, r.value.mesh) && r.value.sz == s.sz
    ensures r.Ok? ==> |r.value.mesh.vertices| == |s.mesh.vertices| + 3 * Iterations(vert, last)
    ensures r.Ok? ==> r.value.mesh.texture == s.mesh.texture
    decreases last - vert, 1
  {
    if vert >= last then Ok(s) else OneNormalTexturedStripePass(tri, T, hvn, series, vert, last, s)
  }

  /** One pass of the one-normal textured strip loop: it skips the texture
      indexes and pushes normals and vertices only. */
  function OneNormalTexturedStripePass(tri: seq<u32>, T: nat, hvn: bool, series: u32, vert: int, last: int, s: St): (r: Res)
    requires vert < last
    ensures r.Ok? ==> KeepsBalance(s.mesh, r.value.mesh) && r.value.sz == s.sz
    ensures r.Ok? ==> |r.value.mesh.vertices| == |s.mesh.vertices| + 3 * Iterations(vert, last)
    ensures r.Ok? ==> r.value.mesh.texture == s.mesh.texture
    decreases last - vert, 0
  {
    var prevN :- if hvn then ReadIndex(tri, s.ti - (2 + T)) else Ok(series);
    var prevV :- ReadIndex(tri, s.ti - 1);
    var curN :- if hvn then ReadIndex(tri, s.ti) else Ok(series);
    var c1 := (if hvn then s.ti + 1 else s.ti) + T;
    var curV :- ReadIndex(tri, c1);
    var c2 := c1 + 1;
    var nextN :- if hvn then ReadIndex(tri, c2) else Ok(series);
    var nextV :- ReadIndex(tri, c2 + 1 + (if hvn then T else 0));
    var t := StripTriangle(vert, Corner(prevN, [], prevV), Corner(curN, [], curV), Corner(nextN, [], nextV));
    OneNormalTexturedStripeRun(tri, T, hvn, series, vert + 1, last, s.(ti := c2, mesh := Emit(s.mesh, t)))
  }

  /** The points of one strip: its shared normal is looked at, then skipped
      with the style indexes. */
  function OneNormalTexturedStripePrimitive(tri: seq<u32>, T: nat, styles: nat, hvn: bool, numPts: u32, s: St): (r: Res)
    ensures r.Ok? ==> KeepsBalance(s.mesh, r.value.mesh) && r.value.sz == s.sz
  {
    var series :- ReadIndex(tri, s.ti);
    OneNormalTexturedStripeRun(tri, T, hvn, series, 1, RingEnd(numPts), s.(ti := s.ti + 2 + styles))
  }

  /** One strip: its size entry, then its points. */
  function OneNormalTexturedStripe(d: FaceView, tri: seq<u32>, s: St): (r: Res)
    ensures r.Ok? ==> KeepsBalance(s.mesh, r.value.mesh)
  {
    var entry :- ReadSize(d, s.sz);
    OneNormalTexturedStripePrimitive(tri, d.textureCoordIndexesSize, d.styleIndexesSize, !entry.normalSingle, entry.points,
                                     s.(sz := s.sz + 1))
  }

  function EachOneNormalTexturedStripe(d: FaceView, tri: seq<u32>): (step: St -> Res)
    ensures Balancing(step)
  {
    st => OneNormalTexturedStripe(d, tri, st)
  }

  function OneNormalTexturedStripeBlock(d: FaceView, tri: seq<u32>, s: St): (r: Res)
    ensures r.Ok? ==> KeepsBalance(s.mesh, r.value.mesh)
  {
    var numStrips :- ReadSize(d, s.sz);
    Repeat(EachOneNormalTexturedStripe(d, tri), numStrips.value, s.(sz := s.sz + 1))
  }

  // ---------------------------------------------------------------------
  // The twelve blocks in order
  // ---------------------------------------------------------------------

  /** The plain-triangle block runs on its flag alone; every later block also
      needs an unread entry left in the size list. */
  predicate Active(d: FaceView, flag: bv16, first: bool, s: St) {
    (first || |d.sizesTriangulated| > s.sz) && d.usedEntitiesFlags & flag != 0
  }

  /** One gated block: skipped, it leaves the state as it was. */
  function Gate(d: FaceView, flag: bv16, first: bool, s: St, block: Res): Res
  {
    if Active(d, flag, first, s) then block else Ok(s)
  }

  /** The state before the first block: the cursor at `m_uiStartTriangulated`,
      the size list at its start, nothing pushed. */
  function Start(d: TessFaceData): St {
    St(d.startTriangulated, 0, EmptyMesh)
  }

  /** The entity flag that switches block `i` (0 to 11, in order) on. */
  function Flag(k: TessConstants, i: nat): bv16
    requires i < 12
  {
    [k.triangle, k.triangleFan, k.triangleStripe,
     k.triangleOneNormal, k.triangleFanOneNormal, k.triangleStripeOneNormal,
     k.triangleTextured, k.triangleFanTextured, k.triangleStripeTextured,
     k.triangleOneNormalTextured, k.triangleFanOneNormalTextured, k.triangleStripeOneNormalTextured][i]
  }

  /** Block `i` run unconditionally from `s`. */
  function Block(d: FaceView, tri: seq<u32>, i: nat, s: St): (r: Res)
    requires i < 12
    ensures r.Ok? ==> KeepsBalance(s.mesh, r.value.mesh)
  {
    match i
    case 0 => TriangleBlock(d, tri, s)
    case 1 => FanBlock(d, tri, s)
    case 2 => StripeBlock(d, tri, s)
    case 3 => OneNormalTriangleBlock(d, tri, s)
    case 4 => OneNormalFanBlock(d, tri, s)
    case 5 => OneNormalStripeBlock(d, tri, s)
    case 6 => TexturedTriangleBlock(d, tri, s)
    case 7 => TexturedFanBlock(d, tri, s)
    case 8 => TexturedStripeBlock(d, tri, s)
    case 9 => OneNormalTexturedTriangleBlock(d, tri, s)
    case 10 => OneNormalTexturedFanBlock(d, tri, s)
    case _ => OneNormalTexturedStripeBlock(d, tri, s)
  }

  /** Blocks `i` to 11, each gated on its flag and starting where the
      previous one stopped. */
  function BlocksFrom(k: TessConstants, d: FaceView, tri: seq<u32>, i: nat, s: St): (r: Res)
    requires i <= 12
    ensures r.Ok? ==> KeepsBalance(s.mesh, r.value.mesh)
    decreases 12 - i, 1
  {
    if i == 12 then Ok(s) else BlocksPass(k, d, tri, i, s)
  }

  /** Block `i` behind its gate, then the blocks after it. */
  function BlocksPass(k: TessConstants, d: FaceView, tri: seq<u32>, i: nat, s: St): (r: Res)
    requires i < 12
    ensures r.Ok? ==> KeepsBalance(s.mesh, r.value.mesh)
    decreases 12 - i, 0
  {
    var s1 :- Gate(d, Flag(k, i), i == 0, s, Block(d, tri, i, s));
    BlocksFrom(k, d, tri, i + 1, s1)
  }

  /** The whole triangle decoding: every corner pushed has a normal and a
      vertex, and corners come in threes. */
  function DecodeTriangles(k: TessConstants, d: TessFaceData, tri: seq<u32>): (r: Res)
    ensures r.Ok? ==> Balanced(r.value.mesh)
  {
    BlocksFrom(k, View(k, d), tri, 0, Start(d))
  }

  // ---------------------------------------------------------------------
  // The gates
  // ---------------------------------------------------------------------

  /** Once the size list is used up, every block after the first is skipped:
      the decoding stops where it is. */
  lemma {:induction false} ExhaustedSkipsRest(k: TessConstants, d: FaceView, tri: seq<u32>, i: nat, s: St)
    requires 1 <= i <= 12 && s.sz >= |d.sizesTriangulated|
    ensures BlocksFrom(k, d, tri, i, s) == Ok(s)
    decreases 12 - i
  {
    if i < 12 {
      assert !Active(d, Flag(k, i), i == 0, s);
      assert BlocksFrom(k, d, tri, i, s) == BlocksFrom(k, d, tri, i + 1, s);
      ExhaustedSkipsRest(k, d, tri, i + 1, s);
    }
  }

  /** A block whose entity flag is clear is skipped. */
  lemma FlagClearSkips(k: TessConstants, d: FaceView, tri: seq<u32>, i: nat, s: St)
    requires i < 12 && d.usedEntitiesFlags & Flag(k, i) == 0
    ensures BlocksFrom(k, d, tri, i, s) == BlocksFrom(k, d, tri, i + 1, s)
  {
    assert !Active(d, Flag(k, i), i == 0, s);
  }

  /** A block whose entity flag is set runs when it is the first block, or
      when an unread size entry is left: its failure is the decoding's, its
      result is where the next block starts. */
  lemma FlagSetRuns(k: TessConstants, d: FaceView, tri: seq<u32>, i: nat, s: St)
    requires i < 12 && d.usedEntitiesFlags & Flag(k, i) != 0 && (i == 0 || s.sz < |d.sizesTriangulated|)
    ensures Block(d, tri, i, s).Err? ==> BlocksFrom(k, d, tri, i, s) == Block(d, tri, i, s)
    ensures Block(d, tri, i, s).Ok? ==> BlocksFrom(k, d, tri, i, s) == BlocksFrom(k, d, tri, i + 1, Block(d, tri, i, s).value)
  {
    assert Active(d, Flag(k, i), i == 0, s);
  }
}
