# ExchangeToolkit: tessellation face helper and parser token helpers

A Dafny model of two parts of the ExchangeToolkit repository, with proofs
about it.

**`ts3d::TessFaceDataHelper`** (`ExchangeToolkit/include/ExchangeToolkit.h`).
This class turns an `A3DTessFaceData` record into flat lists of triangle
corners: normal indexes, vertex indexes and texture indexes. It also turns the
wire data into edge loops.

- The class `TessFace.TessFaceDataHelper` keeps the source's four lists as
  `seq` fields. Its constructor runs the twelve triangle blocks in order, then
  the wire loop, each as an imperative method with loops.
- Each block reads one shared cursor into the triangulated index buffer and
  one cursor into the size list. A block runs when its entity flag is set and,
  after the first block, when an unread size entry is left.
- Each method is proved against a pure function in `TessDecode` (the twelve
  blocks) or `TessWire` (the wire loop). Those functions mirror the source's
  loops one for one.
- The functions are then related to reference definitions:
  - triangles grouped in threes;
  - fans around a root;
  - strips with alternating winding;
  - edges read in order and cut into loops at closing entries.
- The lemmas state:
  - the normal and vertex lists stay equally long, with a length that is a
    multiple of 3, so the accessors' documented invariant holds;
  - the exact triangles of every block, except the NormalSingle forms of
    blocks 11 and 12;
  - for the textured blocks, how far each moves the cursor and how many
    vertices and texture indexes it adds;
  - that a NormalSingle block pushes its one normal for every corner;
  - when a block runs or is skipped, and that the decoding stops once the
    size list is used up;
  - that every loop is non-empty, one loop per closing entry, with edges in
    order.

**The parser's token helpers** (`build/parser/Parser/util.h`).

- `getRegex`, `getBaseExchangeToken`, `getExchangeToken` and `getCategory`
  map an Exchange identifier such as `A3DAsmModelFileData` or
  `kA3DTypeAsmModelFile` to its base token and spelling category, and respell
  it in another category. They are modelled in `ExchangeTokens`. Each regular
  expression is written out as a whole-string prefix/suffix pattern around a
  non-empty `[A-Za-z0-9]+` capture.
- `getWords` is modelled in `Words` as a method with the source's loop. It
  splits a camel-case field spelling into its word set.

Where the source reads memory it does not check, the model returns an error.
A successful decoding therefore means that every read lies inside its buffer.
The SDK's numeric constants (`kA3DTessFaceData*`) are a parameter
(`TessDecode.TessConstants`).

## Model

| member | source | states |
|---|---|---|
| TessFace.TessFaceDataHelper.constructor | ExchangeToolkit/include/ExchangeToolkit.h:1858-2147 | the lists hold exactly the corners the twelve gated blocks decode from the triangulated buffer, the loops are exactly those the wire loop closes, and the helper is `Valid`: as many normals as vertices, a multiple of 3, and every loop has an edge |
| TessFace.TessFaceDataHelper.DecodeBlocks | ExchangeToolkit/include/ExchangeToolkit.h:1859-2126 | the twelve blocks run in order from cursor `m_uiStartTriangulated` and size index 0 leave the lists equal to the decoded mesh; the loops are untouched |
| TessFace.TessFaceDataHelper.SixBlocks | ExchangeToolkit/include/ExchangeToolkit.h:1861-2126 | six consecutive gated blocks advance the state exactly as the specification of those blocks does |
| TessFace.TessFaceDataHelper.ThreeBlocks | ExchangeToolkit/include/ExchangeToolkit.h:1861-2126 | three consecutive gated blocks advance the state exactly as the specification of those blocks does |
| TessFace.TessFaceDataHelper.GatedBlock | ExchangeToolkit/include/ExchangeToolkit.h:1861-2126 | one block runs when its entity flag is set (and, after the first block, an unread size entry is left), and is skipped otherwise; either way the state matches the specification of that block |
| TessFace.TessFaceDataHelper.Vertices | ExchangeToolkit/include/ExchangeToolkit.h:2174-2182 | the vertex index list, whose length is a multiple of 3 |
| TessFace.TessFaceDataHelper.Normals | ExchangeToolkit/include/ExchangeToolkit.h:2184-2192 | the normal index list: as long as the vertex list, a multiple of 3 |
| TessFace.TessFaceDataHelper.Textures | ExchangeToolkit/include/ExchangeToolkit.h:2194-2199 | the texture index list |
| TessFace.TessFaceDataHelper.Loops | ExchangeToolkit/include/ExchangeToolkit.h:2219-2224 | the loops; none is empty |
| TessFace.TessFaceDataHelper.WireLoop | ExchangeToolkit/include/ExchangeToolkit.h:2128-2146 | the wire loop leaves the loops equal to `TessWire.DecodeWires`, the function form of the same loop (`WireFrom` and its pass `WirePass`, each edge read by `ReadWire`) started at `m_uiStartWire`; it keeps every loop non-empty and does not touch the triangle lists |
| TessFace.TessFaceDataHelper.WireEntry | ExchangeToolkit/include/ExchangeToolkit.h:2131-2145 | one wire entry: reads its edge, appends it to the open loop and closes the loop on the closing flag, as the specification does |
| TessFace.ReadIndexes | ExchangeToolkit/include/ExchangeToolkit.h:1979-1981 | the loop that reads `n` consecutive indexes one at a time (the texture-index loops of blocks 7 to 11) returns exactly the run `ReadRun` gives |
| TessFace.ReadPoint | ExchangeToolkit/include/ExchangeToolkit.h:1978-1982 | reading one point (normal, `m_uiTextureCoordIndexesSize` texture indexes, vertex) returns exactly the corner `ReadCorner` gives |
| TessFace.ReadWireIndexes | ExchangeToolkit/include/ExchangeToolkit.h:2137-2139 | the loop that pushes an edge's `nvertices` wire indexes returns exactly the run `ReadWire` gives |
| TessFace.TessFaceDataHelper.PushCorner | ExchangeToolkit/include/ExchangeToolkit.h:1865-1866 | one `push_back` of a normal, its texture indexes and a vertex |
| TessFace.TessFaceDataHelper.PushTriangle | ExchangeToolkit/include/ExchangeToolkit.h:1877-1884 | three corners pushed in order |
| TessFace.TessFaceDataHelper.PairLoop | ExchangeToolkit/include/ExchangeToolkit.h:1864-1867 | the inner loop of the plain triangle block: `j` normal/vertex pairs read from the cursor; the loops are untouched |
| TessFace.TessFaceDataHelper.TriangleStep | ExchangeToolkit/include/ExchangeToolkit.h:1864-1867 | one triangle of block 1 advances the state like one step of the triangle list; the loops are untouched |
| TessFace.TessFaceDataHelper.TriangleListLoop | ExchangeToolkit/include/ExchangeToolkit.h:1863-1868 | the triangle loop of block 1 ends in the state its specification gives; the loops are untouched |
| TessFace.TessFaceDataHelper.TriangleBlockLoop | ExchangeToolkit/include/ExchangeToolkit.h:1861-1869 | block 1 (plain triangles) ends in the state its specification gives; the loops are untouched |
| TessFace.TessFaceDataHelper.FanLoop | ExchangeToolkit/include/ExchangeToolkit.h:1876-1885 | the ring loop of one fan with per-point normals; the loops are untouched |
| TessFace.TessFaceDataHelper.FanPrimitiveStep | ExchangeToolkit/include/ExchangeToolkit.h:1873-1886 | one fan of block 2: root, ring, the two-index skip; the loops are untouched |
| TessFace.TessFaceDataHelper.OneFanStep | ExchangeToolkit/include/ExchangeToolkit.h:1872-1887 | one fan of block 2 including its size entry; the loops are untouched |
| TessFace.TessFaceDataHelper.FanBlockLoop | ExchangeToolkit/include/ExchangeToolkit.h:1870-1888 | block 2 (fans) ends in the state its specification gives; the loops are untouched |
| TessFace.TessFaceDataHelper.StripeLoop | ExchangeToolkit/include/ExchangeToolkit.h:1894-1908 | the ring loop of one strip with per-point normals; the loops are untouched |
| TessFace.TessFaceDataHelper.StripePrimitiveStep | ExchangeToolkit/include/ExchangeToolkit.h:1892-1909 | one strip of block 3: the initial skip, the loop, the final skip; the loops are untouched |
| TessFace.TessFaceDataHelper.OneStripeStep | ExchangeToolkit/include/ExchangeToolkit.h:1891-1910 | one strip of block 3 including its size entry; the loops are untouched |
| TessFace.TessFaceDataHelper.StripeBlockLoop | ExchangeToolkit/include/ExchangeToolkit.h:1889-1911 | block 3 (strips) ends in the state its specification gives; the loops are untouched |
| TessFace.TessFaceDataHelper.VertexLoop | ExchangeToolkit/include/ExchangeToolkit.h:1916-1919 | three vertices sharing the triangle normal; the loops are untouched |
| TessFace.TessFaceDataHelper.OneNormalTriangleStep | ExchangeToolkit/include/ExchangeToolkit.h:1915-1919 | one triangle of block 4; the loops are untouched |
| TessFace.TessFaceDataHelper.OneNormalTriangleListLoop | ExchangeToolkit/include/ExchangeToolkit.h:1914-1920 | the triangle loop of block 4; the loops are untouched |
| TessFace.TessFaceDataHelper.OneNormalTriangleBlockLoop | ExchangeToolkit/include/ExchangeToolkit.h:1912-1921 | block 4 (one normal per triangle) ends in the state its specification gives; the loops are untouched |
| TessFace.TessFaceDataHelper.OneNormalFanLoop | ExchangeToolkit/include/ExchangeToolkit.h:1930-1943 | the ring loop of one fan of block 5, with or without per-point normals; the loops are untouched |
| TessFace.TessFaceDataHelper.OneNormalFanPrimitiveStep | ExchangeToolkit/include/ExchangeToolkit.h:1928-1944 | one fan of block 5 from its root on; the loops are untouched |
| TessFace.TessFaceDataHelper.OneNormalFanStep | ExchangeToolkit/include/ExchangeToolkit.h:1926-1944 | one fan of block 5 including its masked size entry; the loops are untouched |
| TessFace.TessFaceDataHelper.OneNormalFanBlockLoop | ExchangeToolkit/include/ExchangeToolkit.h:1923-1946 | block 5 (one-normal fans) ends in the state its specification gives; the loops are untouched |
| TessFace.TessFaceDataHelper.OneNormalStripeLoop | ExchangeToolkit/include/ExchangeToolkit.h:1954-1970 | the ring loop of one strip of block 6; the loops are untouched |
| TessFace.TessFaceDataHelper.OneNormalStripePrimitiveStep | ExchangeToolkit/include/ExchangeToolkit.h:1951-1971 | one strip of block 6 from its series normal on; the loops are untouched |
| TessFace.TessFaceDataHelper.OneNormalStripeStep | ExchangeToolkit/include/ExchangeToolkit.h:1950-1971 | one strip of block 6 including its masked size entry; the loops are untouched |
| TessFace.TessFaceDataHelper.OneNormalStripeBlockLoop | ExchangeToolkit/include/ExchangeToolkit.h:1947-1973 | block 6 (one-normal strips) ends in the state its specification gives; the loops are untouched |
| TessFace.TessFaceDataHelper.TexturedCornerLoop | ExchangeToolkit/include/ExchangeToolkit.h:1977-1983 | `j` textured corners: normal, `m_uiTextureCoordIndexesSize` texture indexes, vertex; the loops are untouched |
| TessFace.TessFaceDataHelper.TexturedTriangleStep | ExchangeToolkit/include/ExchangeToolkit.h:1977-1983 | one triangle of block 7; the loops are untouched |
| TessFace.TessFaceDataHelper.TexturedTriangleListLoop | ExchangeToolkit/include/ExchangeToolkit.h:1976-1984 | the triangle loop of block 7; the loops are untouched |
| TessFace.TessFaceDataHelper.TexturedTriangleBlockLoop | ExchangeToolkit/include/ExchangeToolkit.h:1974-1985 | block 7 (textured triangles) ends in the state its specification gives; the loops are untouched |
| TessFace.TessFaceDataHelper.TexturedFanLoop | ExchangeToolkit/include/ExchangeToolkit.h:1996-2012 | the ring loop of one textured fan; the loops are untouched |
| TessFace.TessFaceDataHelper.TexturedFanPrimitiveStep | ExchangeToolkit/include/ExchangeToolkit.h:1990-2012 | one textured fan from its root on; the loops are untouched |
| TessFace.TessFaceDataHelper.OneTexturedFanStep | ExchangeToolkit/include/ExchangeToolkit.h:1989-2012 | one textured fan including its size entry; the loops are untouched |
| TessFace.TessFaceDataHelper.TexturedFanBlockLoop | ExchangeToolkit/include/ExchangeToolkit.h:1986-2014 | block 8 (textured fans) ends in the state its specification gives; the loops are untouched |
| TessFace.TessFaceDataHelper.TexturedStripeOnce | ExchangeToolkit/include/ExchangeToolkit.h:2020-2051 | one pass of the textured strip loop; the loops are untouched |
| TessFace.TessFaceDataHelper.TexturedStripeLoop | ExchangeToolkit/include/ExchangeToolkit.h:2019-2052 | the ring loop of one textured strip; the loops are untouched |
| TessFace.TessFaceDataHelper.TexturedStripePrimitiveStep | ExchangeToolkit/include/ExchangeToolkit.h:2019-2052 | one textured strip; the loops are untouched |
| TessFace.TessFaceDataHelper.OneTexturedStripeStep | ExchangeToolkit/include/ExchangeToolkit.h:2018-2052 | one textured strip including its size entry; the loops are untouched |
| TessFace.TessFaceDataHelper.TexturedStripeBlockLoop | ExchangeToolkit/include/ExchangeToolkit.h:2015-2054 | block 9 (textured strips) ends in the state its specification gives; the loops are untouched |
| TessFace.TessFaceDataHelper.OneNormalTexturedCornerLoop | ExchangeToolkit/include/ExchangeToolkit.h:2060-2066 | `j` corners of block 10, with or without their own normal; the loops are untouched |
| TessFace.TessFaceDataHelper.OneNormalTexturedTriangleStep | ExchangeToolkit/include/ExchangeToolkit.h:2060-2066 | one triangle of block 10; the loops are untouched |
| TessFace.TessFaceDataHelper.OneNormalTexturedTriangleListLoop | ExchangeToolkit/include/ExchangeToolkit.h:2059-2067 | the triangle loop of block 10; the loops are untouched |
| TessFace.TessFaceDataHelper.OneNormalTexturedTriangleBlockLoop | ExchangeToolkit/include/ExchangeToolkit.h:2055-2068 | block 10 (one-normal textured triangles) ends in the state its specification gives; the loops are untouched |
| TessFace.TessFaceDataHelper.OneNormalTexturedFanLoop | ExchangeToolkit/include/ExchangeToolkit.h:2080-2096 | the ring loop of one fan of block 11; the loops are untouched |
| TessFace.TessFaceDataHelper.RootedOneNormalTexturedFanStep | ExchangeToolkit/include/ExchangeToolkit.h:2078-2096 | one fan of block 11 after its root; the loops are untouched |
| TessFace.TessFaceDataHelper.OneNormalTexturedFanStep | ExchangeToolkit/include/ExchangeToolkit.h:2072-2096 | one fan of block 11 including its root; the loops are untouched |
| TessFace.TessFaceDataHelper.OneNormalTexturedFanBlockLoop | ExchangeToolkit/include/ExchangeToolkit.h:2069-2098 | block 11 (one-normal textured fans) ends in the state its specification gives; the loops are untouched |
| TessFace.TessFaceDataHelper.OneNormalTexturedStripeLoop | ExchangeToolkit/include/ExchangeToolkit.h:2106-2124 | the ring loop of one strip of block 12; the loops are untouched |
| TessFace.TessFaceDataHelper.OneNormalTexturedStripePrimitiveStep | ExchangeToolkit/include/ExchangeToolkit.h:2104-2124 | one strip of block 12 from its series normal on; the loops are untouched |
| TessFace.TessFaceDataHelper.OneNormalTexturedStripeStep | ExchangeToolkit/include/ExchangeToolkit.h:2102-2124 | one strip of block 12 including its masked size entry; the loops are untouched |
| TessFace.TessFaceDataHelper.OneNormalTexturedStripeBlockLoop | ExchangeToolkit/include/ExchangeToolkit.h:2099-2126 | block 12 (one-normal textured strips) ends in the state its specification gives; the loops are untouched |
| TessDecode.EntryOfPacked | ExchangeToolkit/include/ExchangeToolkit.h:1926-1927 | a size entry packed from a count and the NormalSingle flag reads back as that count of points and that flag |
| TessDecode.ReadRun | ExchangeToolkit/include/ExchangeToolkit.h:1979-1981 | a run of `n` consecutive indexes, `n` long when inside the buffer |
| TessDecode.ReadCorner | ExchangeToolkit/include/ExchangeToolkit.h:1978-1982 | a corner carries exactly `m_uiTextureCoordIndexesSize` texture indexes |
| TessDecode.Repeat | ExchangeToolkit/include/ExchangeToolkit.h:1872-1887 | the outer loop over the fans or strips of a block keeps a balanced mesh balanced |
| TessDecode.PairRun | ExchangeToolkit/include/ExchangeToolkit.h:1864-1867 | `j` corners pushed, the cursor moved by `2 * j`, the size cursor kept |
| TessDecode.TriangleList | ExchangeToolkit/include/ExchangeToolkit.h:1863-1868 | a successful run keeps the mesh balanced and the size cursor where it was |
| TessDecode.TriangleBlock | ExchangeToolkit/include/ExchangeToolkit.h:1861-1869 | block 1 keeps a balanced mesh balanced |
| TessDecode.FanRing | ExchangeToolkit/include/ExchangeToolkit.h:1876-1885 | a successful ring keeps the mesh balanced |
| TessDecode.FanPrimitive | ExchangeToolkit/include/ExchangeToolkit.h:1873-1886 | one fan keeps the mesh balanced |
| TessDecode.FanBlock | ExchangeToolkit/include/ExchangeToolkit.h:1870-1888 | block 2 keeps a balanced mesh balanced |
| TessDecode.StripeRun | ExchangeToolkit/include/ExchangeToolkit.h:1894-1908 | a successful ring keeps the mesh balanced |
| TessDecode.StripePrimitive | ExchangeToolkit/include/ExchangeToolkit.h:1892-1909 | one strip keeps the mesh balanced |
| TessDecode.StripeBlock | ExchangeToolkit/include/ExchangeToolkit.h:1889-1911 | block 3 keeps a balanced mesh balanced |
| TessDecode.VertexRun | ExchangeToolkit/include/ExchangeToolkit.h:1916-1919 | `j` corners sharing one normal pushed, cursor moved by `j` |
| TessDecode.OneNormalTriangleList | ExchangeToolkit/include/ExchangeToolkit.h:1914-1920 | keeps the mesh balanced |
| TessDecode.OneNormalTriangleBlock | ExchangeToolkit/include/ExchangeToolkit.h:1912-1921 | block 4 keeps a balanced mesh balanced |
| TessDecode.OneNormalFanRing | ExchangeToolkit/include/ExchangeToolkit.h:1930-1943 | keeps the mesh balanced |
| TessDecode.OneNormalFanPrimitive | ExchangeToolkit/include/ExchangeToolkit.h:1928-1944 | keeps the mesh balanced |
| TessDecode.OneNormalFanBlock | ExchangeToolkit/include/ExchangeToolkit.h:1923-1946 | block 5 keeps a balanced mesh balanced |
| TessDecode.OneNormalStripeRun | ExchangeToolkit/include/ExchangeToolkit.h:1954-1970 | keeps the mesh balanced |
| TessDecode.OneNormalStripePrimitive | ExchangeToolkit/include/ExchangeToolkit.h:1951-1971 | keeps the mesh balanced |
| TessDecode.OneNormalStripeBlock | ExchangeToolkit/include/ExchangeToolkit.h:1947-1973 | block 6 keeps a balanced mesh balanced |
| TessDecode.TexturedCornerRun | ExchangeToolkit/include/ExchangeToolkit.h:1977-1983 | `j` corners pushed, `j * T` texture indexes added, the cursor moved by `j * (2 + T)` |
| TessDecode.TexturedTriangleList | ExchangeToolkit/include/ExchangeToolkit.h:1976-1984 | keeps the mesh balanced |
| TessDecode.TexturedTriangleBlock | ExchangeToolkit/include/ExchangeToolkit.h:1974-1985 | block 7 keeps a balanced mesh balanced |
| TessDecode.TexturedFanRing | ExchangeToolkit/include/ExchangeToolkit.h:1996-2012 | keeps the mesh balanced; three vertices per pass |
| TessDecode.TexturedFanPrimitive | ExchangeToolkit/include/ExchangeToolkit.h:1990-2012 | keeps the mesh balanced |
| TessDecode.TexturedFanBlock | ExchangeToolkit/include/ExchangeToolkit.h:1986-2014 | block 8 keeps a balanced mesh balanced |
| TessDecode.TexturedStripeRun | ExchangeToolkit/include/ExchangeToolkit.h:2019-2052 | keeps the mesh balanced; three vertices per pass |
| TessDecode.TexturedStripePrimitive | ExchangeToolkit/include/ExchangeToolkit.h:2019-2052 | keeps the mesh balanced |
| TessDecode.TexturedStripeBlock | ExchangeToolkit/include/ExchangeToolkit.h:2015-2054 | block 9 keeps a balanced mesh balanced |
| TessDecode.OneNormalTexturedCornerRun | ExchangeToolkit/include/ExchangeToolkit.h:2060-2066 | `j` corners pushed |
| TessDecode.OneNormalTexturedTriangleList | ExchangeToolkit/include/ExchangeToolkit.h:2059-2067 | keeps the mesh balanced; three vertices per triangle |
| TessDecode.OneNormalTexturedTriangleBlock | ExchangeToolkit/include/ExchangeToolkit.h:2055-2068 | block 10 keeps a balanced mesh balanced |
| TessDecode.OneNormalTexturedFanRing | ExchangeToolkit/include/ExchangeToolkit.h:2080-2096 | keeps the mesh balanced; three vertices per pass |
| TessDecode.OneNormalTexturedFanPrimitive | ExchangeToolkit/include/ExchangeToolkit.h:2080-2096 | keeps the mesh balanced |
| TessDecode.OneNormalTexturedFan | ExchangeToolkit/include/ExchangeToolkit.h:2072-2096 | keeps the mesh balanced |
| TessDecode.RootedOneNormalTexturedFan | ExchangeToolkit/include/ExchangeToolkit.h:2078-2096 | keeps the mesh balanced |
| TessDecode.OneNormalTexturedFanBlock | ExchangeToolkit/include/ExchangeToolkit.h:2069-2098 | block 11 keeps a balanced mesh balanced |
| TessDecode.OneNormalTexturedStripeRun | ExchangeToolkit/include/ExchangeToolkit.h:2106-2124 | keeps the mesh balanced, three vertices per pass, and adds no texture index |
| TessDecode.OneNormalTexturedStripePrimitive | ExchangeToolkit/include/ExchangeToolkit.h:2104-2124 | keeps the mesh balanced |
| TessDecode.OneNormalTexturedStripeBlock | ExchangeToolkit/include/ExchangeToolkit.h:2099-2126 | block 12 keeps a balanced mesh balanced |
| TessDecode.ExhaustedSkipsRest | ExchangeToolkit/include/ExchangeToolkit.h:1870-2126 | once the size list is used up, every block after the first is skipped and the state is final |
| TessDecode.FlagClearSkips | ExchangeToolkit/include/ExchangeToolkit.h:1861-2126 | a block whose entity flag is clear leaves the state to the blocks after it |
| TessDecode.FlagSetRuns | ExchangeToolkit/include/ExchangeToolkit.h:1861-2126 | a block whose flag is set (and, after the first, with a size entry left) runs; its error ends the decoding, its result is where the next block starts |
| TessDecode.Block | ExchangeToolkit/include/ExchangeToolkit.h:1861-2126 | every block keeps a balanced mesh balanced |
| TessDecode.BlocksFrom | ExchangeToolkit/include/ExchangeToolkit.h:1861-2126 | the blocks from `i` on, in order, keep a balanced mesh balanced |
| TessDecode.DecodeTriangles | ExchangeToolkit/include/ExchangeToolkit.h:1859-2126 | a successful decoding has as many normals as vertices, a multiple of 3 |
| TessWire.Edges | ExchangeToolkit/include/ExchangeToolkit.h:2130-2140 | the reference: one edge per wire entry |
| TessWire.Closings | ExchangeToolkit/include/ExchangeToolkit.h:2133 | one closing flag per wire entry |
| TessWire.WireFromOk | ExchangeToolkit/include/ExchangeToolkit.h:2130-2146 | the wire loop succeeds exactly when every edge it reads lies inside the wire buffer |
| TessWire.DecodeWiresOk | ExchangeToolkit/include/ExchangeToolkit.h:2128-2146 | the wire decoding succeeds when the edges fit in the wire buffer |
| TessWire.EdgesStep | ExchangeToolkit/include/ExchangeToolkit.h:2131-2140 | reading one entry yields its edge, then the edges after it |
| TessWire.ClosingsStep | ExchangeToolkit/include/ExchangeToolkit.h:2133 | the closing flags of the entries from `idx` on |
| TessWire.WireFromSplits | ExchangeToolkit/include/ExchangeToolkit.h:2130-2146 | the wire loop `WireFrom` (one `WirePass` per size entry, its edge read by `ReadWire`) equals the reference: the edges read in order, cut into loops after every closing entry |
| TessWire.DecodeWiresSplits | ExchangeToolkit/include/ExchangeToolkit.h:2128-2146 | the loops `DecodeWires` gives from `m_uiStartWire` are the edges read in order and cut after each closing entry |
| TessWire.EdgesAt | ExchangeToolkit/include/ExchangeToolkit.h:2131-2139 | edge `j` holds the `EdgeLength` wire indexes that follow those of the edges before it, and its visibility is the negated not-drawn flag |
| TessWire.SplitCount | ExchangeToolkit/include/ExchangeToolkit.h:2142-2145 | one loop per closing entry |
| TessWire.SplitKeepsOrder | ExchangeToolkit/include/ExchangeToolkit.h:2140-2145 | the loops, flattened, followed by the unclosed tail give back the edges in order |
| TessWire.PendingUnclosed | ExchangeToolkit/include/ExchangeToolkit.h:2140-2145 | the dropped tail holds only edges after the last closing entry |
| TessWire.DecodeWiresLoopCount | ExchangeToolkit/include/ExchangeToolkit.h:2128-2146 | the number of loops is the number of closing entries |
| TessMesh.EmitAll | ExchangeToolkit/include/ExchangeToolkit.h:2174-2192 | pushing whole triangles only appends, and adds three vertices per triangle and as many normals |
| TessMesh.EmitAllAppend | ExchangeToolkit/include/ExchangeToolkit.h:1861-2126 | emitting two triangle lists one after the other is emitting their concatenation |
| TessMesh.Groups | ExchangeToolkit/include/ExchangeToolkit.h:1863-1868 | the corner list is cut into consecutive triples |
| TessMesh.GroupsAt | ExchangeToolkit/include/ExchangeToolkit.h:1863-1868 | triangle `i` of the triple grouping is corners `3i`, `3i+1`, `3i+2` |
| TessMesh.Fan | ExchangeToolkit/include/ExchangeToolkit.h:1876-1885 | a fan of `n` points has `n - 2` triangles |
| TessMesh.FanSharesRoot | ExchangeToolkit/include/ExchangeToolkit.h:1876-1885 | fan triangle `k` is the root, point `k+1` and point `k+2` |
| TessMesh.FanOfAt | ExchangeToolkit/include/ExchangeToolkit.h:1876-1885 | fan triangle `k` around a root |
| TessMesh.Strip | ExchangeToolkit/include/ExchangeToolkit.h:1894-1908 | a strip of `n` points has `n - 2` triangles |
| TessMesh.RootedPairsAt | ExchangeToolkit/include/ExchangeToolkit.h:1996-2012 | triangle `k` of block 8's fan is the root with points `2k` and `2k + 1` |
| TessMesh.StripWindingAlternates | ExchangeToolkit/include/ExchangeToolkit.h:1904-1907 | two consecutive strip triangles run their shared edge in opposite directions |
| TessMesh.SharedPointsNormal | ExchangeToolkit/include/ExchangeToolkit.h:1930-1943 | every point of a shared-normal run carries that normal |
| TessMesh.PointsAt | ExchangeToolkit/include/ExchangeToolkit.h:1977-1983 | point `j` of a run starts at `j * (2 + T)` past the start |
| TessBlocks.TriangleListEmitsGroups | ExchangeToolkit/include/ExchangeToolkit.h:1863-1868 | block 1's triangle loop pushes exactly the consecutive triples of the points it reads and moves the cursor by `6 * count` |
| TessBlocks.TexturedTriangleListEmitsGroups | ExchangeToolkit/include/ExchangeToolkit.h:1976-1984 | block 7's triangle loop pushes exactly the consecutive triples of its textured points, cursor moved by `3 * count * (2 + T)` |
| TessBlocks.TriangleListIsUntextured | ExchangeToolkit/include/ExchangeToolkit.h:1863-1868 | block 1 is block 7 with no texture index |
| TessBlocks.PairRunIsUntexturedRun | ExchangeToolkit/include/ExchangeToolkit.h:1864-1867 | the pair loop is the textured corner loop with no texture index |
| TessBlocks.FanRingEmitsFan | ExchangeToolkit/include/ExchangeToolkit.h:1876-1885 | the fan ring emits the fan triangles of its points around the root |
| TessBlocks.FanPrimitiveEmitsFan | ExchangeToolkit/include/ExchangeToolkit.h:1873-1886 | one fan of `n >= 2` points emits exactly `Fan` of its points and moves the cursor by `2 * n` |
| TessBlocks.StripeRunEmitsStrip | ExchangeToolkit/include/ExchangeToolkit.h:1894-1908 | the strip ring emits the strip triangles of its points |
| TessBlocks.StripePrimitiveEmitsStrip | ExchangeToolkit/include/ExchangeToolkit.h:1892-1909 | one strip of `n >= 2` points emits exactly `Strip` of its points, alternating winding, and moves the cursor by `2 * n` |
| TessOneNormal.OneNormalTriangleListEmits | ExchangeToolkit/include/ExchangeToolkit.h:1914-1920 | block 4 emits one triangle per 4 indexes, all three corners with the triangle's normal |
| TessOneNormal.OneNormalFanPerVertex | ExchangeToolkit/include/ExchangeToolkit.h:1926-1944 | a block-5 fan with per-point normals decodes exactly as a block-2 fan |
| TessOneNormal.OneNormalFanRingPerVertex | ExchangeToolkit/include/ExchangeToolkit.h:1930-1943 | the same for the ring loop |
| TessOneNormal.OneNormalStripePerVertex | ExchangeToolkit/include/ExchangeToolkit.h:1950-1971 | a block-6 strip with per-point normals decodes exactly as a block-3 strip |
| TessOneNormal.OneNormalStripeRunPerVertex | ExchangeToolkit/include/ExchangeToolkit.h:1954-1970 | the same for the ring loop |
| TessOneNormal.SharedFanRingEmitsFan | ExchangeToolkit/include/ExchangeToolkit.h:1930-1943 | a shared-normal fan ring emits the fan around the root, every corner with the root normal |
| TessOneNormal.SharedFanPrimitiveEmitsFan | ExchangeToolkit/include/ExchangeToolkit.h:1928-1944 | a shared-normal fan of `n` points emits `n - 2` fan triangles and moves the cursor by `n + 1` |
| TessOneNormal.SharedStripeRunEmitsStrip | ExchangeToolkit/include/ExchangeToolkit.h:1954-1970 | a shared-normal strip ring emits the strip of its points |
| TessOneNormal.SharedStripePrimitiveEmitsStrip | ExchangeToolkit/include/ExchangeToolkit.h:1951-1971 | a shared-normal strip of `n` points emits its strip and moves the cursor by `n + 1` |
| TessOneNormal.SharedFanNormals | ExchangeToolkit/include/ExchangeToolkit.h:1937-1942 | every corner of a shared-normal fan carries the root normal |
| TessOneNormal.SharedStripNormals | ExchangeToolkit/include/ExchangeToolkit.h:1964-1969 | every corner of a shared-normal strip carries the series normal |
| TessTextured.TexturedTriangleListSizes | ExchangeToolkit/include/ExchangeToolkit.h:1976-1984 | block 7 adds `3 * count` vertices, `3 * count * T` texture indexes and moves the cursor by `3 * count * (2 + T)` |
| TessTextured.TexturedFanRingCursor | ExchangeToolkit/include/ExchangeToolkit.h:1996-2012 | each pass of the textured fan ring consumes two whole points |
| TessTextured.TexturedFanCursor | ExchangeToolkit/include/ExchangeToolkit.h:1990-2012 | a textured fan of `n` points adds `3 * (n - 2)` vertices and consumes the root and two points per triangle |
| TessTextured.TexturedStripeRunCursor | ExchangeToolkit/include/ExchangeToolkit.h:2019-2052 | each pass of the textured strip ring consumes one point |
| TessTextured.TexturedStripeCursor | ExchangeToolkit/include/ExchangeToolkit.h:2019-2052 | a textured strip of `n` points adds `3 * (n - 2)` vertices and consumes `n - 2` points, with no initial skip |
| TessTextured.SharedTexturedTriangleListNormals | ExchangeToolkit/include/ExchangeToolkit.h:2059-2067 | with the NormalSingle flag, block 10 pushes the series normal for every corner |
| TessTextured.OneNormalTexturedCornerRunSizes | ExchangeToolkit/include/ExchangeToolkit.h:2060-2066 | `j` corners of block 10 move the cursor by `j` strides (`2 + T` with per-vertex normals, `1 + T` without) and add `j * T` texture indexes |
| TessTextured.OneNormalTexturedTriangleListSizes | ExchangeToolkit/include/ExchangeToolkit.h:2059-2067 | block 10's loop adds `3 * count` vertices, `3 * count * T` texture indexes and moves the cursor by `3 * count` strides |
| TessTextured.OneNormalTexturedFanRingSizes | ExchangeToolkit/include/ExchangeToolkit.h:2080-2096 | each pass of block 11's ring moves the cursor by one stride and adds `3 * T` texture indexes (the root's, three times) |
| TessTextured.SharedTexturedFanRingNormals | ExchangeToolkit/include/ExchangeToolkit.h:2080-2096 | with the NormalSingle flag, every corner of block 11's ring carries the root normal |
| TessTextured.OneNormalTexturedFanPrimitiveSizes | ExchangeToolkit/include/ExchangeToolkit.h:2072-2096 | one block-11 fan of `n` points adds `3 * (n - 2)` vertices and `3 * (n - 2) * T` texture indexes, moves the cursor by `n - 2` strides, and with NormalSingle pushes only the root normal |
| TessTextured.OneNormalTexturedStripeRunCursor | ExchangeToolkit/include/ExchangeToolkit.h:2106-2124 | each pass of block 12's ring moves the cursor by one stride |
| TessTextured.SharedTexturedStripeRunNormals | ExchangeToolkit/include/ExchangeToolkit.h:2106-2124 | with the NormalSingle flag, every corner of block 12's ring carries the series normal |
| TessTextured.OneNormalTexturedStripePrimitiveSizes | ExchangeToolkit/include/ExchangeToolkit.h:2102-2124 | one block-12 strip of `n` points adds `3 * (n - 2)` vertices and no texture index, moves the cursor by `2 + m_uiStyleIndexesSize` and `n - 2` strides, and with NormalSingle pushes only the series normal |
| TessTexturedShapes.TexturedFanRingEmitsPairs | ExchangeToolkit/include/ExchangeToolkit.h:1996-2012 | block 8's ring emits one triangle per pair of points read, around the root |
| TessTexturedShapes.TexturedFanPrimitiveEmitsPairs | ExchangeToolkit/include/ExchangeToolkit.h:1989-2012 | one block-8 fan emits exactly `RootedPairs` of the root and the `2 * (n - 2)` points after it, and moves the cursor past them |
| TessTexturedShapes.TexturedStripeRunEmitsStrip | ExchangeToolkit/include/ExchangeToolkit.h:2019-2052 | block 9's ring emits the strip of its points with alternating winding |
| TessTexturedShapes.TexturedStripePrimitiveEmitsStrip | ExchangeToolkit/include/ExchangeToolkit.h:2018-2052 | one block-9 strip of `n` points emits exactly `Strip` of the `n` points that start one point before the cursor, and moves the cursor by `n - 2` points |
| TessTexturedShapes.PerVertexCornerRunIsTextured | ExchangeToolkit/include/ExchangeToolkit.h:2060-2066 | block 10's corner loop with per-vertex normals is block 7's textured corner loop |
| TessTexturedShapes.PerVertexTriangleListEmitsGroups | ExchangeToolkit/include/ExchangeToolkit.h:2059-2067 | block 10 with per-vertex normals pushes exactly the consecutive triples of its textured points |
| TessTexturedShapes.SharedTriangleListEmitsGroups | ExchangeToolkit/include/ExchangeToolkit.h:2059-2067 | block 10 with NormalSingle pushes exactly the consecutive triples of its points, each corner with the series normal |
| TessTexturedShapes.PerVertexTriangleBlockEmitsGroups | ExchangeToolkit/include/ExchangeToolkit.h:2055-2068 | block 10 with per-vertex normals: its triangles and cursor advance, and one size entry read |
| TessTexturedShapes.SharedTriangleBlockEmitsGroups | ExchangeToolkit/include/ExchangeToolkit.h:2055-2068 | block 10 with NormalSingle: the series normal is the first index of the block, and every triangle carries it |
| TessTexturedShapes.PerVertexFanRingEmitsFan | ExchangeToolkit/include/ExchangeToolkit.h:2080-2096 | block 11's ring with per-vertex normals emits the fan of its points around the root |
| TessTexturedShapes.PerVertexTexturedFanEmitsFan | ExchangeToolkit/include/ExchangeToolkit.h:2072-2096 | one block-11 fan with per-vertex normals emits exactly `Fan` of its `n` textured points and moves the cursor by `n - 1` points |
| TessTexturedShapes.PerVertexStripeRunEmitsStrip | ExchangeToolkit/include/ExchangeToolkit.h:2106-2124 | block 12's ring with per-vertex normals emits the strip of its points, without texture indexes |
| TessTexturedShapes.PerVertexStripePrimitiveEmitsStrip | ExchangeToolkit/include/ExchangeToolkit.h:2102-2124 | one block-12 strip with per-vertex normals emits exactly `Strip` of its points without their texture indexes, after the style skip |
| Bits.Sub32Wraps | ExchangeToolkit/include/ExchangeToolkit.h:1876 | `num_pts - 1u` is the unsigned 32-bit difference: it wraps when `num_pts` is 0 |
| Bits.PackCountRoundTrip | ExchangeToolkit/include/ExchangeToolkit.h:1926-1927 | a count packed with the NormalSingle flag is read back by the mask, and the flag by the test |
| Bits.PackWireRoundTrip | ExchangeToolkit/include/ExchangeToolkit.h:2131-2134 | a wire entry packed with the closing and not-drawn flags gives back its count and both flags |
| Bits.PackedWireCount | ExchangeToolkit/include/ExchangeToolkit.h:2132 | clearing the two flags gives back the count |
| Bits.PackedWireClosing | ExchangeToolkit/include/ExchangeToolkit.h:2133 | the closing test sees exactly the closing flag |
| Bits.PackedWireHidden | ExchangeToolkit/include/ExchangeToolkit.h:2134 | the not-drawn test sees exactly the not-drawn flag |
| ExchangeTokens.Ordinal | build/parser/Parser/util.h:198-205 | the enumerators are numbered 0 to 5 in order and `MAX_VALUE` is the last |
| ExchangeTokens.Capture | build/parser/Parser/util.h:15-19 | a match is the prefix, a non-empty alphanumeric capture, and the suffix |
| ExchangeTokens.MatchesWrapped | build/parser/Parser/util.h:15-19 | a pattern matches its own prefix and suffix around `b` exactly when `b` is non-empty and alphanumeric, and captures `b` |
| ExchangeTokens.Regex | build/parser/Parser/util.h:208-225 | every category but `MAX_VALUE` has a pattern that matches something; `MAX_VALUE` gets the empty pattern, which matches nothing |
| ExchangeTokens.PatternsDisjoint | build/parser/Parser/util.h:15-19 | no spelling matches the patterns of two categories |
| ExchangeTokens.BaseFrom | build/parser/Parser/util.h:233-240 | the loop yields the empty string exactly when no remaining pattern matches; the result is alphanumeric |
| ExchangeTokens.BaseExchangeToken | build/parser/Parser/util.h:231-241 | the base token is empty exactly when no category matches |
| ExchangeTokens.CategoryFrom | build/parser/Parser/util.h:266-272 | the first matching category from `idx` on, or `MAX_VALUE` |
| ExchangeTokens.CategoryOf | build/parser/Parser/util.h:265-273 | the category returned matches the spelling; `MAX_VALUE` exactly when none does |
| ExchangeTokens.BaseOfCategory | build/parser/Parser/util.h:231-273 | the base token is the capture of the spelling's category pattern |
| ExchangeTokens.ExchangeToken | build/parser/Parser/util.h:244-263 | the base respelled with the category's prefix and suffix; empty for `MAX_VALUE` or an unrecognised spelling |
| ExchangeTokens.Respelled | build/parser/Parser/util.h:244-273 | a base spelled in category `c` is read back as category `c` with that base |
| ExchangeTokens.ExchangeTokenBase | build/parser/Parser/util.h:231-263 | respelling keeps the base token |
| ExchangeTokens.ExchangeTokenCategory | build/parser/Parser/util.h:244-273 | a respelled token is of the requested category |
| ExchangeTokens.ExchangeTokenTwice | build/parser/Parser/util.h:244-263 | respelling twice is respelling once in the last category |
| ExchangeTokens.TypeExample | build/parser/Parser/util.h:227-229 | `kA3DTypeAsmModelFile` has base `AsmModelFile` and category Type |
| ExchangeTokens.DataExample | build/parser/Parser/util.h:227-229 | `A3DAsmModelFileData` has base `AsmModelFile` and category Data |
| Words.StripFieldPrefix | build/parser/Parser/util.h:97-99 | the spelling is kept, or it was `m_ui`/`m_pp` followed by the result, which starts with a capital or digit and is alphanumeric |
| Words.StripsFieldPrefix | build/parser/Parser/util.h:97-99 | every spelling the field pattern matches loses its prefix |
| Words.WithSpaces | build/parser/Parser/util.h:100 | dropping spaces gives the input back, and every capital letter and digit has a space before it |
| Words.UnbreakWithSpaces | build/parser/Parser/util.h:100 | the inserted spaces are exactly those before capitals and digits: removing each space that stands before one gives the input back |
| Words.Find | build/parser/Parser/util.h:104 | the first space at or after the start, or none |
| Words.Pieces | build/parser/Parser/util.h:101-117 | the pieces between spaces hold no space, and no capital after their first character |
| Words.JoinPieces | build/parser/Parser/util.h:101-117 | the pieces joined with spaces give the text back |
| Words.WordsAtSpace | build/parser/Parser/util.h:105-110 | a pass that finds a space adds the piece before it, if non-empty, and resumes after it |
| Words.WordsAtEnd | build/parser/Parser/util.h:111-116 | the last pass adds the rest of the text, if non-empty |
| Words.WordShape | build/parser/Parser/util.h:94-119 | every word is non-empty, has no space, and only its first character may be a capital or digit |
| Words.WordsCoverSpelling | build/parser/Parser/util.h:94-119 | the pieces, joined, with the spaces before capitals and digits taken out again, are exactly the spelling without its prefix |
| Words.CollectWords | build/parser/Parser/util.h:101-117 | the loop collects exactly the non-empty pieces |
| Words.GetWords | build/parser/Parser/util.h:94-119 | the result is the set of non-empty pieces of the respaced, prefix-stripped spelling, and never holds the empty string |

## Left out

- Bounds: the source reads `triangulatedIndexes`, `m_puiSizesTriangulated` and `wireIndexes` without checking them. The model turns every read outside a buffer into an `Err`. The constructor requires the triangle and wire decodings to succeed, which is what the source silently assumes.
- Cursor width: `ti_index` and `wi_index` are `A3DUns32` in the source and unbounded naturals here. A cursor that would pass 2^32 does not wrap in the model. A negative offset (`ti_index - 2` at a strip's start) is an out-of-range read.
- `num_pts - 1u` is modelled exactly, including its wrap to 2^32 - 1 when `num_pts` is 0 (`TessDecode.RingEnd`, `Bits.Sub32Wraps`).
- Buffer lengths: `m_uiSizesTriangulatedSize` and `m_uiSizesWiresSize` are taken to be the lengths of the size sequences they count.
- SDK constants: the numeric values of the `kA3DTessFaceData*` flags and masks belong to the SDK. They are parameters of the model, not fixed numbers.
- The copy and move constructors and assignment operators (`ExchangeToolkit.h:2148-2172`) are not modelled. They copy the three index lists but not `_loops`.
- TessFace.TessFaceDataHelper.constructor: it specifies the mesh for every block. The exact triangles are proved for every block (`TessBlocks`, `TessOneNormal`, `TessTexturedShapes`) except the NormalSingle forms of blocks 11 and 12. There the cursor moves by the shorter stride `1 + T`, but the next vertex is read at cursor + 1 in both blocks, and block 11 reads the next texture indexes at the per-vertex offsets (cursor + 1 onwards). The next vertex is then neither where the per-vertex layout (cursor + 1 + T) nor where the shared layout (cursor + T) puts it, unless T is 0 or 1, so the points do not form one run with a simple layout. For those two forms the model proves the counts, the cursor advance and that every corner carries the shared normal (`TessTextured`). The textured quirks are modelled as written:
  - block 8's fan consumes its "next" point as well, so each triangle takes two new points (`TessMesh.RootedPairs`);
  - block 9's strip has no initial skip;
  - block 10 tests NormalSingle on the unmasked count, and its series normal is also read as the first index of the first corner;
  - block 11 reads "next" texture indexes at the per-vertex offsets, and with NormalSingle its "next" vertex at cursor + 1;
  - block 12 pushes no texture, skips `m_uiStyleIndexesSize`, and with NormalSingle reads its "next" vertex at cursor + 1.
- Wire tail: edges after the last closing entry are dropped, as the source drops them. Nothing reports them.
- `getSimilarityMetric` and the rest of `util.h` (the clang cursor helpers, field lookups) are not part of this model. They work on libclang cursors and floating-point ratios.
- Regular expressions: `std::regex` is not modelled as an engine. Each pattern the helpers use is written out as the predicate `ExchangeTokens.Matches` or `Words.HasFieldPrefix`.
- The `base_match.size() == 2` test in `getBaseExchangeToken` always holds for a successful match, so it does not appear in the model.
- Words.GetWords: `std::set<std::string>`'s ordering is not modelled. The result is a Dafny `set<string>`.
