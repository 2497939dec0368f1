/** Unsigned machine words as the SDK's `A3DUns16`/`A3DUns32` types hold them. */
module Bits {

  const U32_MODULUS: int := 0x1_0000_0000

  /** An `A3DUns32` value, used for indexes that the decoder only relays. */
  type u32 = x: int | 0 <= x < 0x1_0000_0000

  /** `a - b` computed on `A3DUns32` operands: the difference wraps modulo 2^32. */
  function Sub32(a: u32, b: u32): u32 {
    if a >= b then a - b else a - b + U32_MODULUS
  }

  /** `Sub32` is subtraction modulo 2^32. */
  lemma Sub32Wraps(a: u32, b: u32)
    ensures Sub32(a, b) == (a - b) % U32_MODULUS
    ensures Sub32(a, b) < a <==> b != 0 && b <= a
  {
  }

  /** True when `word & mask` is non-zero, the C++ truth test of a flag bit. */
  predicate AnySet(word: bv32, mask: bv32) {
    word & mask != 0
  }

  /** A size entry that carries a point count and the NormalSingle flag: the
      count is `n`, and `single` says whether the flag bit is added. */
  function PackCount(n: bv32, normalSingle: bv32, single: bool): bv32 {
    if single then n | normalSingle else n
  }

  /** Packing a count that fits the NormalMask together with the NormalSingle
      flag is undone by the decoder's `& NormalMask` and its flag test,
      provided the flag lies outside the mask. */
  lemma PackCountRoundTrip(n: bv32, normalSingle: bv32, normalMask: bv32, single: bool)
    requires normalSingle != 0 && normalSingle & normalMask == 0
    requires n & !normalMask == 0
    ensures PackCount(n, normalSingle, single) & normalMask == n
    ensures AnySet(PackCount(n, normalSingle, single), normalSingle) == single
  {
    PackedCountMasked(n, normalSingle, normalMask, single);
    PackedCountFlag(n, normalSingle, normalMask, single);
  }

  lemma PackedCountMasked(n: bv32, f: bv32, m: bv32, single: bool)
    requires f & m == 0 && n & !m == 0
    ensures PackCount(n, f, single) & m == n
  {
    if single {
      OrFlagMasked(n, f, m);
    } else {
      FitsMask(n, m);
    }
  }

  lemma PackedCountFlag(n: bv32, f: bv32, m: bv32, single: bool)
    requires f != 0 && f & m == 0 && n & !m == 0
    ensures AnySet(PackCount(n, f, single), f) == single
  {
    if single {
      OrFlagSet(n, f);
    } else {
      FitsMaskMissesFlag(n, f, m);
    }
  }

  lemma OrFlagMasked(n: bv32, f: bv32, m: bv32)
    requires f & m == 0 && n & !m == 0
    ensures (n | f) & m == n
  {
  }

  lemma OrFlagSet(n: bv32, f: bv32)
    requires f != 0
    ensures (n | f) & f != 0
  {
  }

  lemma FitsMask(n: bv32, m: bv32)
    requires n & !m == 0
    ensures n & m == n
  {
  }

  lemma FitsMaskMissesFlag(n: bv32, f: bv32, m: bv32)
    requires f & m == 0 && n & !m == 0
    ensures n & f == 0
  {
  }

  /** A wire size entry: a vertex count with the closing and not-drawn flags. */
  function PackWire(n: bv32, closing: bv32, notDrawn: bv32, isClosing: bool, isHidden: bool): bv32 {
    n | (if isClosing then closing else 0) | (if isHidden then notDrawn else 0)
  }

  /** The wire decoder's `& ~closing & ~notDrawn` and its two flag tests
      recover exactly what PackWire put in, when the flags are distinct bits
      that the count does not use. */
  lemma PackWireRoundTrip(n: bv32, closing: bv32, notDrawn: bv32, isClosing: bool, isHidden: bool)
    requires closing != 0 && notDrawn != 0 && closing & notDrawn == 0
    requires n & closing == 0 && n & notDrawn == 0
    ensures PackWire(n, closing, notDrawn, isClosing, isHidden) & !closing & !notDrawn == n
    ensures AnySet(PackWire(n, closing, notDrawn, isClosing, isHidden), closing) == isClosing
    ensures AnySet(PackWire(n, closing, notDrawn, isClosing, isHidden), notDrawn) == isHidden
  {
    PackedWireCount(n, closing, notDrawn, isClosing, isHidden);
    PackedWireClosing(n, closing, notDrawn, isClosing, isHidden);
    PackedWireHidden(n, closing, notDrawn, isClosing, isHidden);
  }

  lemma PackedWireCount(n: bv32, closing: bv32, notDrawn: bv32, isClosing: bool, isHidden: bool)
    requires n & closing == 0 && n & notDrawn == 0
    ensures PackWire(n, closing, notDrawn, isClosing, isHidden) & !closing & !notDrawn == n
  {
    if isClosing && isHidden {
      WireCount(n, closing, notDrawn, closing, notDrawn);
    } else if isClosing {
      WireCount(n, closing, notDrawn, closing, 0);
    } else if isHidden {
      WireCount(n, closing, notDrawn, 0, notDrawn);
    } else {
      WireCount(n, closing, notDrawn, 0, 0);
    }
  }

  lemma PackedWireClosing(n: bv32, closing: bv32, notDrawn: bv32, isClosing: bool, isHidden: bool)
    requires closing != 0 && closing & notDrawn == 0 && n & closing == 0
    ensures AnySet(PackWire(n, closing, notDrawn, isClosing, isHidden), closing) == isClosing
  {
    WireFlag(n, if isClosing then closing else 0, if isHidden then notDrawn else 0, closing, notDrawn);
  }

  lemma PackedWireHidden(n: bv32, closing: bv32, notDrawn: bv32, isClosing: bool, isHidden: bool)
    requires notDrawn != 0 && closing & notDrawn == 0 && n & notDrawn == 0
    ensures AnySet(PackWire(n, closing, notDrawn, isClosing, isHidden), notDrawn) == isHidden
  {
    var c: bv32 := if isClosing then closing else 0;
    var h: bv32 := if isHidden then notDrawn else 0;
    OrSwap(n, c, h);
    WireFlag(n, h, c, notDrawn, closing);
  }

  lemma OrSwap(n: bv32, x: bv32, y: bv32)
    ensures n | x | y == n | y | x
  {
  }

  lemma WireCount(n: bv32, closing: bv32, notDrawn: bv32, c: bv32, h: bv32)
    requires n & closing == 0 && n & notDrawn == 0
    requires c == 0 || c == closing
    requires h == 0 || h == notDrawn
    ensures (n | c | h) & !closing & !notDrawn == n
  {
  }

  /** The flag `f` reads back as set exactly when it was packed as `x`. */
  lemma WireFlag(n: bv32, x: bv32, y: bv32, f: bv32, g: bv32)
    requires f != 0 && f & g == 0 && n & f == 0
    requires x == 0 || x == f
    requires y == 0 || y == g
    ensures ((n | x | y) & f != 0) == (x == f)
  {
  }
}
