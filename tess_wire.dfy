/** Specification of the wire part of `TessFaceDataHelper`'s constructor
    (ExchangeToolkit.h): the wire size list is walked in order, each entry
    reads one edge of consecutive wire indexes, and every entry carrying the
    closing flag ends a loop. */
module TessWire {
  import opened Bits
  import opened Wrappers
  import opened TessDecode

  /** The helper's `TessEdge`: the wire indexes of one edge and whether it is drawn. */
  datatype TessEdge = TessEdge(vertices: seq<u32>, visible: bool)

  /** The helper's `TessLoop`: the edges of one closed boundary. */
  datatype TessLoop = TessLoop(edges: seq<TessEdge>)

  /** The number of wire indexes of an entry: the entry with the closing and
      not-drawn bits cleared. */
  function EdgeLength(k: TessConstants, entry: bv32): u32 {
    Cnt(entry & !k.wireIsClosing & !k.wireIsNotDrawn)
  }

  predicate Closes(k: TessConstants, entry: bv32) {
    AnySet(entry, k.wireIsClosing)
  }

  predicate Hidden(k: TessConstants, entry: bv32) {
    AnySet(entry, k.wireIsNotDrawn)
  }

  /** `n` consecutive wire indexes from `wi` (a read of nothing never fails). */
  function ReadWire(wire: seq<u32>, wi: nat, n: nat): Result<seq<u32>, TessError> {
    if n == 0 then Ok([])
    else if wi + n <= |wire| then Ok(wire[wi .. wi + n])
    else Err(WireIndexOutOfRange(wi + n - 1))
  }

  /** The wire loop from entry `idx` on, with the wire cursor at `wi`, the
      edges of the open loop in `current` and the finished loops in `loops`. */
  function WireFrom(k: TessConstants, sizes: seq<bv32>, wire: seq<u32>, idx: nat, wi: nat,
                    current: seq<TessEdge>, loops: seq<TessLoop>): Result<seq<TessLoop>, TessError>
    decreases |sizes| - idx, 1
  {
    if idx >= |sizes| then Ok(loops) else WirePass(k, sizes, wire, idx, wi, current, loops)
  }

  /** One pass of the wire loop: entry `idx` reads its edge, which joins the
      open loop; a closing entry hands that loop over to `loops`. */
  function WirePass(k: TessConstants, sizes: seq<bv32>, wire: seq<u32>, idx: nat, wi: nat,
                    current: seq<TessEdge>, loops: seq<TessLoop>): Result<seq<TessLoop>, TessError>
    requires idx < |sizes|
    decreases |sizes| - idx, 0
  {
    var entry := sizes[idx];
    var n := EdgeLength(k, entry);
    var vs :- ReadWire(wire, wi, n);
    var open := current + [TessEdge(vs, !Hidden(k, entry))];
    if Closes(k, entry) then WireFrom(k, sizes, wire, idx + 1, wi + n, [], loops + [TessLoop(open)])
    else WireFrom(k, sizes, wire, idx + 1, wi + n, open, loops)
  }

  /** The loops of a face: the wire cursor starts at `m_uiStartWire`. */
  function DecodeWires(k: TessConstants, d: TessFaceData, wire: seq<u32>): Result<seq<TessLoop>, TessError> {
    WireFrom(k, d.sizesWires, wire, 0, d.startWire, [], [])
  }

  // ---------------------------------------------------------------------
  // Reference: the edges read one after the other, then grouped into loops
  // ---------------------------------------------------------------------

  /** The number of wire indexes the entries from `idx` on take together. */
  function WireTotal(k: TessConstants, sizes: seq<bv32>, idx: nat): nat
    decreases |sizes| - idx
  {
    if idx >= |sizes| then 0 else EdgeLength(k, sizes[idx]) + WireTotal(k, sizes, idx + 1)
  }

  /** The reads from `wi` of entries `idx` on all land inside the wire buffer. */
  predicate InWire(k: TessConstants, sizes: seq<bv32>, wire: seq<u32>, idx: nat, wi: nat) {
    WireTotal(k, sizes, idx) == 0 || wi + WireTotal(k, sizes, idx) <= |wire|
  }

  /** The edge of entry `idx` when its indexes start at `wi`. */
  function EdgeOf(k: TessConstants, sizes: seq<bv32>, wire: seq<u32>, idx: nat, wi: nat): TessEdge
    requires idx < |sizes| && (EdgeLength(k, sizes[idx]) == 0 || wi + EdgeLength(k, sizes[idx]) <= |wire|)
  {
    var n := EdgeLength(k, sizes[idx]);
    TessEdge(if n == 0 then [] else wire[wi .. wi + n], !Hidden(k, sizes[idx]))
  }

  /** The edge of every entry from `idx` on, each reading its own stretch of
      the wire buffer right after the previous one. */
  function Edges(k: TessConstants, sizes: seq<bv32>, wire: seq<u32>, idx: nat, wi: nat): (es: seq<TessEdge>)
    requires idx <= |sizes| && InWire(k, sizes, wire, idx, wi)
    ensures |es| == |sizes| - idx
    decreases |sizes| - idx
  {
    if idx == |sizes| then []
    else [EdgeOf(k, sizes, wire, idx, wi)] + Edges(k, sizes, wire, idx + 1, wi + EdgeLength(k, sizes[idx]))
  }

  /** The number of wire indexes taken by the `j` entries from `idx` on. */
  function WireBefore(k: TessConstants, sizes: seq<bv32>, idx: nat, j: nat): nat
    requires idx + j <= |sizes|
    decreases j
  {
    if j == 0 then 0 else EdgeLength(k, sizes[idx]) + WireBefore(k, sizes, idx + 1, j - 1)
  }

  /** The closing flag of every entry. */
  function Closings(k: TessConstants, sizes: seq<bv32>): (cs: seq<bool>)
    ensures |cs| == |sizes|
  {
    seq(|sizes|, j requires 0 <= j < |sizes| => Closes(k, sizes[j]))
  }

  /** Edges grouped into loops: each edge marked as closing ends the loop
      that `open` has collected so far; edges after the last closing one
      form no loop. */
  function Split(es: seq<TessEdge>, cs: seq<bool>, open: seq<TessEdge>): seq<TessLoop>
    requires |es| == |cs|
    decreases |es|
  {
    if es == [] then []
    else if cs[0] then [TessLoop(open + [es[0]])] + Split(es[1..], cs[1..], [])
    else Split(es[1..], cs[1..], open + [es[0]])
  }

  /** The edges still open after grouping: those after the last closing edge. */
  function Pending(es: seq<TessEdge>, cs: seq<bool>, open: seq<TessEdge>): seq<TessEdge>
    requires |es| == |cs|
    decreases |es|
  {
    if es == [] then open
    else Pending(es[1..], cs[1..], if cs[0] then [] else open + [es[0]])
  }

  function Count(cs: seq<bool>): nat
    decreases |cs|
  {
    if cs == [] then 0 else (if cs[0] then 1 else 0) + Count(cs[1..])
  }

  function Flatten(loops: seq<TessLoop>): seq<TessEdge>
    decreases |loops|
  {
    if loops == [] then [] else loops[0].edges + Flatten(loops[1..])
  }

  // ---------------------------------------------------------------------
  // Properties
  // ---------------------------------------------------------------------

  /** One pass of the wire loop whose read lands inside the buffer. */
  lemma WireStep(k: TessConstants, sizes: seq<bv32>, wire: seq<u32>, idx: nat, idx1: nat, wi: nat, wi1: nat,
                 current: seq<TessEdge>, loops: seq<TessLoop>)
    requires idx < |sizes| && idx1 == idx + 1 && wi1 == wi + EdgeLength(k, sizes[idx])
    requires EdgeLength(k, sizes[idx]) == 0 || wi1 <= |wire|
    ensures WireFrom(k, sizes, wire, idx, wi, current, loops)
         == if Closes(k, sizes[idx])
            then WireFrom(k, sizes, wire, idx1, wi1, [], loops + [TessLoop(current + [EdgeOf(k, sizes, wire, idx, wi)])])
            else WireFrom(k, sizes, wire, idx1, wi1, current + [EdgeOf(k, sizes, wire, idx, wi)], loops)
  {
  }

  /** The wire decoding succeeds exactly when every edge it reads lies inside
      the wire buffer. */
  lemma {:induction false} WireFromOk(k: TessConstants, sizes: seq<bv32>, wire: seq<u32>, idx: nat, wi: nat,
                                      current: seq<TessEdge>, loops: seq<TessLoop>)
    ensures WireFrom(k, sizes, wire, idx, wi, current, loops).Ok? <==> InWire(k, sizes, wire, idx, wi)
    decreases |sizes| - idx
  {
    if idx < |sizes| {
      var n := EdgeLength(k, sizes[idx]);
      var idx1: nat := idx + 1;
      var wi1: nat := wi + n;
      if n == 0 || wi1 <= |wire| {
        WireStep(k, sizes, wire, idx, idx1, wi, wi1, current, loops);
        var open := current + [EdgeOf(k, sizes, wire, idx, wi)];
        WireFromOk(k, sizes, wire, idx1, wi1, [], loops + [TessLoop(open)]);
        WireFromOk(k, sizes, wire, idx1, wi1, open, loops);
      }
    }
  }

  lemma DecodeWiresOk(k: TessConstants, d: TessFaceData, wire: seq<u32>)
    ensures DecodeWires(k, d, wire).Ok?
        <==> (WireTotal(k, d.sizesWires, 0) == 0 || d.startWire + WireTotal(k, d.sizesWires, 0) <= |wire|)
  {
    WireFromOk(k, d.sizesWires, wire, 0, d.startWire, [], []);
  }

  /** Grouping the edges of entries `idx` on: the first edge, then the rest. */
  lemma SplitStep(es: seq<TessEdge>, cs: seq<bool>, e: TessEdge, c: bool, es1: seq<TessEdge>, cs1: seq<bool>, open: seq<TessEdge>)
    requires es == [e] + es1 && cs == [c] + cs1 && |es1| == |cs1|
    ensures Split(es, cs, open)
         == if c then [TessLoop(open + [e])] + Split(es1, cs1, []) else Split(es1, cs1, open + [e])
  {
    assert es[0] == e && es[1..] == es1 && cs[0] == c && cs[1..] == cs1;
  }

  /** The reference edges and flags of entries `idx` on: the first, then the rest. */
  lemma EdgesStep(k: TessConstants, sizes: seq<bv32>, wire: seq<u32>, idx: nat, idx1: nat, wi: nat, wi1: nat)
    requires idx < |sizes| && idx1 == idx + 1 && wi1 == wi + EdgeLength(k, sizes[idx])
    requires InWire(k, sizes, wire, idx, wi)
    ensures EdgeLength(k, sizes[idx]) == 0 || wi1 <= |wire|
    ensures InWire(k, sizes, wire, idx1, wi1)
    ensures Edges(k, sizes, wire, idx, wi) == [EdgeOf(k, sizes, wire, idx, wi)] + Edges(k, sizes, wire, idx1, wi1)
  {
    var n := EdgeLength(k, sizes[idx]);
    assert WireTotal(k, sizes, idx) == n + WireTotal(k, sizes, idx1);
    assert n == 0 || wi1 <= |wire|;
    assert InWire(k, sizes, wire, idx1, wi1);
  }

  /** The closing flags of entries `idx` on: the first, then the rest. */
  lemma ClosingsStep(k: TessConstants, sizes: seq<bv32>, idx: nat, idx1: nat)
    requires idx < |sizes| && idx1 == idx + 1
    ensures Closings(k, sizes)[idx..] == [Closes(k, sizes[idx])] + Closings(k, sizes)[idx1..]
  {
    var cs := Closings(k, sizes);
    assert cs[idx..] == [cs[idx]] + cs[idx1..];
  }

  /** The wire loop produces the finished loops followed by the reference
      grouping of the edges it reads. */
  lemma {:induction false} WireFromSplits(k: TessConstants, sizes: seq<bv32>, wire: seq<u32>, idx: nat, wi: nat,
                                          current: seq<TessEdge>, loops: seq<TessLoop>)
    requires idx <= |sizes| && InWire(k, sizes, wire, idx, wi)
    ensures var r := WireFrom(k, sizes, wire, idx, wi, current, loops);
            r.Ok? && r.value == loops + Split(Edges(k, sizes, wire, idx, wi), Closings(k, sizes)[idx..], current)
    decreases |sizes| - idx
  {
    if idx == |sizes| {
      assert Edges(k, sizes, wire, idx, wi) == [];
      assert loops + [] == loops;
    } else {
      var idx1: nat := idx + 1;
      var wi1: nat := wi + EdgeLength(k, sizes[idx]);
      EdgesStep(k, sizes, wire, idx, idx1, wi, wi1);
      ClosingsStep(k, sizes, idx, idx1);
      WireStep(k, sizes, wire, idx, idx1, wi, wi1, current, loops);
      var e := EdgeOf(k, sizes, wire, idx, wi);
      var c := Closes(k, sizes[idx]);
      var es := Edges(k, sizes, wire, idx, wi);
      var cs := Closings(k, sizes)[idx..];
      var es1 := Edges(k, sizes, wire, idx1, wi1);
      var cs1 := Closings(k, sizes)[idx1..];
      SplitStep(es, cs, e, c, es1, cs1, current);
      if c {
        var loop := TessLoop(current + [e]);
        WireFromSplits(k, sizes, wire, idx1, wi1, [], loops + [loop]);
        LoopsAssoc(loops, loop, Split(es1, cs1, []));
      } else {
        WireFromSplits(k, sizes, wire, idx1, wi1, current + [e], loops);
      }
    }
  }

  lemma LoopsAssoc(loops: seq<TessLoop>, loop: TessLoop, rest: seq<TessLoop>)
    ensures loops + [loop] + rest == loops + ([loop] + rest)
  {
  }

  /** The loops of a face are the edges of its size entries, read in order
      from `m_uiStartWire`, grouped by their closing flags. */
  lemma DecodeWiresSplits(k: TessConstants, d: TessFaceData, wire: seq<u32>)
    requires InWire(k, d.sizesWires, wire, 0, d.startWire)
    ensures DecodeWires(k, d, wire).Ok?
    ensures DecodeWires(k, d, wire).value
         == Split(Edges(k, d.sizesWires, wire, 0, d.startWire), Closings(k, d.sizesWires), [])
  {
    WireFromSplits(k, d.sizesWires, wire, 0, d.startWire, [], []);
    assert Closings(k, d.sizesWires)[0..] == Closings(k, d.sizesWires);
    assert [] + Split(Edges(k, d.sizesWires, wire, 0, d.startWire), Closings(k, d.sizesWires), [])
        == Split(Edges(k, d.sizesWires, wire, 0, d.startWire), Closings(k, d.sizesWires), []);
  }

  /** Edge `j` of the reference holds the `EdgeLength` wire indexes that
      follow those of the `j` edges before it, and is visible exactly when its
      entry lacks the not-drawn flag. */
  lemma {:induction false} EdgesAt(k: TessConstants, sizes: seq<bv32>, wire: seq<u32>, idx: nat, wi: nat, j: nat)
    requires idx <= |sizes| && InWire(k, sizes, wire, idx, wi) && idx + j < |sizes|
    ensures var start := wi + WireBefore(k, sizes, idx, j);
            var n := EdgeLength(k, sizes[idx + j]);
            && (n == 0 || start + n <= |wire|)
            && Edges(k, sizes, wire, idx, wi)[j] == EdgeOf(k, sizes, wire, idx + j, start)
    decreases j
  {
    if j > 0 {
      var idx1: nat := idx + 1;
      var j1: nat := j - 1;
      var wi1: nat := wi + EdgeLength(k, sizes[idx]);
      EdgesStep(k, sizes, wire, idx, idx1, wi, wi1);
      EdgesAt(k, sizes, wire, idx1, wi1, j1);
      assert WireBefore(k, sizes, idx, j) == EdgeLength(k, sizes[idx]) + WireBefore(k, sizes, idx1, j1);
    }
  }

  /** One loop per closing entry. */
  lemma {:induction false} SplitCount(es: seq<TessEdge>, cs: seq<bool>, open: seq<TessEdge>)
    requires |es| == |cs|
    ensures |Split(es, cs, open)| == Count(cs)
    decreases |es|
  {
    if es != [] {
      SplitCount(es[1..], cs[1..], if cs[0] then [] else open + [es[0]]);
    }
  }

  lemma FlattenCons(loop: TessLoop, tail: seq<TessLoop>)
    ensures Flatten([loop] + tail) == loop.edges + Flatten(tail)
  {
    assert ([loop] + tail)[1..] == tail;
  }

  lemma ConcatAssoc(a: seq<TessEdge>, b: seq<TessEdge>, c: seq<TessEdge>)
    ensures (a + b) + c == a + (b + c)
  {
  }

  /** Grouping keeps the edges in input order: the loops' edges, then the
      edges left open, are exactly the edges read. */
  lemma {:induction false} SplitKeepsOrder(es: seq<TessEdge>, cs: seq<bool>, open: seq<TessEdge>)
    requires |es| == |cs|
    ensures Flatten(Split(es, cs, open)) + Pending(es, cs, open) == open + es
    decreases |es|
  {
    if es != [] {
      var e, rest, crest := es[0], es[1..], cs[1..];
      assert es == [e] + rest;
      ConcatAssoc(open, [e], rest);
      if cs[0] {
        SplitKeepsOrder(rest, crest, []);
        var loop := TessLoop(open + [e]);
        var tail := Split(rest, crest, []);
        var p := Pending(rest, crest, []);
        SplitStep(es, cs, e, true, rest, crest, open);
        assert Pending(es, cs, open) == p;
        FlattenCons(loop, tail);
        ConcatAssoc(open + [e], Flatten(tail), p);
        assert [] + rest == rest;
      } else {
        SplitKeepsOrder(rest, crest, open + [e]);
        SplitStep(es, cs, e, false, rest, crest, open);
      }
    }
  }

  /** The edges left open are a tail of the input in which no edge closes a loop:
      they are silently dropped. */
  lemma {:induction false} PendingUnclosed(es: seq<TessEdge>, cs: seq<bool>, open: seq<TessEdge>)
    requires |es| == |cs|
    ensures |Pending(es, cs, open)| <= |open| + |es|
    ensures forall j :: 0 <= j < |es| && |es| - |Pending(es, cs, open)| <= j ==> !cs[j]
    decreases |es|
  {
    if es != [] {
      var next := if cs[0] then [] else open + [es[0]];
      PendingUnclosed(es[1..], cs[1..], next);
      var p := Pending(es[1..], cs[1..], next);
      assert Pending(es, cs, open) == p;
      forall j | 0 <= j < |es| && |es| - |p| <= j
        ensures !cs[j]
      {
        if j > 0 {
          assert cs[1..][j - 1] == cs[j];
        }
      }
    }
  }

  /** The number of loops is the number of size entries with the closing flag. */
  lemma DecodeWiresLoopCount(k: TessConstants, d: TessFaceData, wire: seq<u32>)
    requires DecodeWires(k, d, wire).Ok?
    ensures |DecodeWires(k, d, wire).value| == Count(Closings(k, d.sizesWires))
  {
    WireFromOk(k, d.sizesWires, wire, 0, d.startWire, [], []);
    DecodeWiresSplits(k, d, wire);
    SplitCount(Edges(k, d.sizesWires, wire, 0, d.startWire), Closings(k, d.sizesWires), []);
  }
}
