/**
 Where the pool's bytes lie: segments from VirtualAlloc cut into blocks of a bin, and blocks straight
 from the heap for requests above the largest bin.
 */
module MemoryLayout {
  import opened Bits
  import opened SizeBin
  import opened BlockMemory

  datatype Segment = Segment(base: Addr, bytes: nat)

  // What the heap gave for an oversized request, and how many bytes of it the caller asked for.
  datatype HeapBlock = HeapBlock(range: Segment, size: nat)

  // The granularity of VirtualAlloc.
  const GRANULARITY := 65536

  // Everything the pool knows about its bytes: headers, the segments of every bin, the heap's blocks.
  datatype Layout = Layout(headers: Headers, mapped: seq<seq<Segment>>, heap: map<Addr, HeapBlock>,
                           specs: seq<BinSpec>, headerSize: nat, alignment: nat)

  predicate Apart(a: Segment, b: Segment)
  {
    a.base + a.bytes <= b.base || b.base + b.bytes <= a.base
  }

  predicate Within(a: Segment, b: Segment)
  {
    b.base <= a.base && a.base + a.bytes <= b.base + b.bytes
  }

  predicate Admissible(alignment: nat)
  {
    IsPowerOfTwo(alignment) && 16 <= alignment <= 4096
  }

  // x is the header of a block that lies inside the segment as a whole.
  ghost predicate IsBlock(s: Segment, stride: nat, x: Addr)
  {
    exists j: nat :: x == BlockAt(s.base, stride, j) && BlockAt(s.base, stride, j) + stride <= s.base + s.bytes
  }

  // Of one of these segments.
  ghost predicate InBin(segments: seq<Segment>, stride: nat, x: Addr)
  {
    exists i :: 0 <= i < |segments| && IsBlock(segments[i], stride, x)
  }

  predicate Pooled(l: Layout, x: Addr)
  {
    x in l.headers && l.headers[x].binIndex < |l.specs|
  }

  ghost predicate SpecsFit(l: Layout)
  {
    && Admissible(l.alignment) && |l.mapped| == |l.specs| && l.headerSize >= BLOCK_HEADER_SIZE && l.headerSize % l.alignment == 0
    && forall b :: 0 <= b < |l.specs| ==> SpecSound(l.specs[b], l.headerSize, l.alignment)
  }

  ghost predicate SegmentsApart(mapped: seq<seq<Segment>>)
  {
    && (forall b, i :: 0 <= b < |mapped| && 0 <= i < |mapped[b]| ==> mapped[b][i].base % GRANULARITY == 0)
    && (forall b, i, c, j ::
          0 <= b < |mapped| && 0 <= i < |mapped[b]| && 0 <= c < |mapped| && 0 <= j < |mapped[c]| && (b != c || i != j)
          ==> Apart(mapped[b][i], mapped[c][j]))
  }

  ghost predicate HeapApart(l: Layout)
    requires l.alignment > 0
  {
    && (forall x, y :: x in l.heap && y in l.heap && x != y ==> Apart(l.heap[x].range, l.heap[y].range))
    && (forall x, b, i :: x in l.heap && 0 <= b < |l.mapped| && 0 <= i < |l.mapped[b]| ==> Apart(l.heap[x].range, l.mapped[b][i]))
    && (forall x :: x in l.heap ==>
          (x + l.headerSize) % l.alignment == 0 && Within(Segment(x, l.headerSize + l.heap[x].size), l.heap[x].range))
  }

  // Every header of a bin starts a block of one of the bin's segments; the others start heap blocks.
  ghost predicate Housed(l: Layout)
    requires |l.mapped| == |l.specs|
  {
    forall x :: x in l.headers ==>
      if l.headers[x].binIndex < |l.specs| then
        InBin(l.mapped[l.headers[x].binIndex], l.specs[l.headers[x].binIndex].stride, x)
      else x in l.heap
  }

  ghost predicate Charted(l: Layout)
  {
    l.alignment > 0 && SpecsFit(l) && SegmentsApart(l.mapped) && HeapApart(l) && Housed(l)
  }

  // --- What follows for every block ------------------------------------------------------------------------

  function HeaderOf(x: Addr): Segment { Segment(x, BLOCK_HEADER_SIZE) }

  // The bytes a caller may use: all of a bin's block, what was asked for of a heap block.
  function PayloadOf(l: Layout, x: Addr): Segment
    requires Pooled(l, x) || x in l.heap
  {
    Segment(x + l.headerSize, if Pooled(l, x) then l.specs[l.headers[x].binIndex].blockSize else l.heap[x].size)
  }

  function Whole(l: Layout, x: Addr): Segment
    requires Pooled(l, x) || x in l.heap
  {
    Segment(x, if Pooled(l, x) then l.specs[l.headers[x].binIndex].stride else l.headerSize + l.heap[x].size)
  }

  // Aligned, inside one segment of its bin or inside its heap block, apart from every header, its own
  // included, and from the payload of every other block, live or free.
  ghost predicate WellPlaced(l: Layout, x: Addr)
    requires l.alignment > 0 && |l.mapped| == |l.specs| && (Pooled(l, x) || x in l.heap)
  {
    && (x + l.headerSize) % l.alignment == 0
    && (if Pooled(l, x) then
          exists i :: 0 <= i < |l.mapped[l.headers[x].binIndex]| && Within(PayloadOf(l, x), l.mapped[l.headers[x].binIndex][i])
        else Within(PayloadOf(l, x), l.heap[x].range))
    && forall y :: y in l.headers && (Pooled(l, y) || y in l.heap) ==>
         Apart(PayloadOf(l, x), HeaderOf(y)) && (y != x ==> Apart(PayloadOf(l, x), PayloadOf(l, y)))
  }

  lemma SegmentOf(l: Layout, x: Addr) returns (i: nat, j: nat)
    requires |l.mapped| == |l.specs| && Housed(l) && Pooled(l, x)
    ensures var bin := l.headers[x].binIndex;
            var stride := l.specs[bin].stride;
            && i < |l.mapped[bin]| && x == BlockAt(l.mapped[bin][i].base, stride, j)
            && Within(Segment(x, stride), l.mapped[bin][i])
  {
    hide BlockAt;
    var bin := l.headers[x].binIndex;
    assert InBin(l.mapped[bin], l.specs[bin].stride, x);
    i :| 0 <= i < |l.mapped[bin]| && IsBlock(l.mapped[bin][i], l.specs[bin].stride, x);
    var s, stride := l.mapped[bin][i], l.specs[bin].stride;
    j :| x == BlockAt(s.base, stride, j) && BlockAt(s.base, stride, j) + stride <= s.base + s.bytes;
    NotBelow(s.base, stride, j);
  }

  lemma NotBelow(base: Addr, stride: nat, j: nat)
    ensures base <= BlockAt(base, stride, j)
  {
  }

  // Different blocks have no byte in common, headers and padding included.
  lemma WholesApart(l: Layout, x: Addr, y: Addr)
    requires Charted(l) && x in l.headers && y in l.headers && x != y
    ensures (Pooled(l, x) || x in l.heap) && (Pooled(l, y) || y in l.heap) && Apart(Whole(l, x), Whole(l, y))
  {
    hide SpecSound, Admissible;
    if Pooled(l, x) && Pooled(l, y) {
      var i, m := SegmentOf(l, x);
      var j, n := SegmentOf(l, y);
      var b, c := l.headers[x].binIndex, l.headers[y].binIndex;
      if b == c && i == j {
        if m < n { StridesApart(l.mapped[b][i].base, l.specs[b].stride, m, n); }
        if n < m { StridesApart(l.mapped[b][i].base, l.specs[b].stride, n, m); }
      } else {
        assert Apart(l.mapped[b][i], l.mapped[c][j]);
      }
    } else if Pooled(l, x) {
      var i, m := SegmentOf(l, x);
      assert Apart(l.heap[y].range, l.mapped[l.headers[x].binIndex][i]);
    } else if Pooled(l, y) {
      var j, n := SegmentOf(l, y);
      assert Apart(l.heap[x].range, l.mapped[l.headers[y].binIndex][j]);
    }
  }

  lemma WholeHolds(l: Layout, x: Addr)
    requires SpecsFit(l) && l.alignment > 0 && (Pooled(l, x) || x in l.heap)
    ensures Within(PayloadOf(l, x), Whole(l, x)) && Within(HeaderOf(x), Whole(l, x)) && Apart(PayloadOf(l, x), HeaderOf(x))
  {
    if Pooled(l, x) { assert SpecSound(l.specs[l.headers[x].binIndex], l.headerSize, l.alignment); }
  }

  // Every block the pool knows is well placed.
  lemma EveryBlockIsWellPlaced(l: Layout, x: Addr)
    requires Charted(l) && x in l.headers
    ensures (Pooled(l, x) || x in l.heap) && WellPlaced(l, x)
  {
    hide SpecSound, Admissible;
    WholeHolds(l, x);
    if Pooled(l, x) {
      var i, j := SegmentOf(l, x);
      var bin := l.headers[x].binIndex;
      PayloadIsAligned(l.mapped[bin][i], l.specs[bin], l.headerSize, l.alignment, j);
      assert Within(PayloadOf(l, x), l.mapped[bin][i]);
    }
    forall y | y in l.headers && (Pooled(l, y) || y in l.heap)
      ensures Apart(PayloadOf(l, x), HeaderOf(y)) && (y != x ==> Apart(PayloadOf(l, x), PayloadOf(l, y)))
    {
      if y != x {
        WholeHolds(l, y);
        WholesApart(l, x, y);
      }
    }
  }

  lemma PayloadIsAligned(s: Segment, spec: BinSpec, headerSize: nat, alignment: nat, j: nat)
    requires s.base % GRANULARITY == 0 && Admissible(alignment) && SpecSound(spec, headerSize, alignment)
    ensures (BlockAt(s.base, spec.stride, j) + headerSize) % alignment == 0
  {
    SegmentIsAligned(s.base, alignment);
    StaysAligned(s.base, spec.stride, alignment, j);
    SumAligned(BlockAt(s.base, spec.stride, j), headerSize, alignment);
  }

  // The node a chunk keeps in the payload of its first block meets no header and no other payload.
  lemma NodeIsApart(l: Layout, x: Addr, y: Addr)
    requires Charted(l) && Pooled(l, x) && y in l.headers
    ensures (Pooled(l, y) || y in l.heap) && Apart(Segment(x + l.headerSize, CHUNK_NODE_SIZE), HeaderOf(y))
    ensures y != x ==> Apart(Segment(x + l.headerSize, CHUNK_NODE_SIZE), PayloadOf(l, y))
  {
    EveryBlockIsWellPlaced(l, x);
    assert SpecSound(l.specs[l.headers[x].binIndex], l.headerSize, l.alignment);
    if y != x { WholesApart(l, x, y); }
  }

  // --- What keeps the chart ------------------------------------------------------------------------------

  // The same blocks, each of the same bin; marks and links may differ.
  ghost predicate SameBlocks(h: Headers, h': Headers)
  {
    h'.Keys == h.Keys && forall x :: x in h ==> h'[x].binIndex == h[x].binIndex
  }

  lemma MarksKeepChart(l: Layout, h': Headers)
    requires Charted(l) && SameBlocks(l.headers, h')
    ensures Charted(l.(headers := h'))
  {
    hide SpecSound, Admissible, InBin;
    HeapStays(l, l.(headers := h'));
  }

  lemma HeapStays(l: Layout, l': Layout)
    requires l.alignment > 0 && HeapApart(l)
    requires l' == l.(headers := l'.headers, heap := l'.heap) && l'.heap.Keys <= l.heap.Keys
    requires forall x :: x in l'.heap ==> l'.heap[x] == l.heap[x]
    ensures HeapApart(l')
  {
    hide Apart, Within;
  }

  // Bytes nobody has.
  ghost predicate Unclaimed(l: Layout, s: Segment)
  {
    && (forall b, i :: 0 <= b < |l.mapped| && 0 <= i < |l.mapped[b]| ==> Apart(s, l.mapped[b][i]))
    && (forall x :: x in l.heap ==> Apart(s, l.heap[x].range))
  }

  // What VirtualAlloc promises about what it returns; NULL when it fails.
  ghost predicate Maps(l: Layout, base: Addr, bytes: nat)
  {
    base != NULL ==> base % GRANULARITY == 0 && Unclaimed(l, Segment(base, bytes))
  }

  // A known block lies in no byte of memory nobody has.
  lemma KnownIsClaimed(l: Layout, s: Segment, x: Addr)
    requires Charted(l) && Unclaimed(l, s) && (x in l.headers || x in l.heap)
    ensures Apart(s, HeaderOf(x))
  {
    hide Admissible;
    if Pooled(l, x) {
      var i, j := SegmentOf(l, x);
      assert SpecSound(l.specs[l.headers[x].binIndex], l.headerSize, l.alignment);
      assert Apart(s, l.mapped[l.headers[x].binIndex][i]);
    } else {
      assert Apart(s, l.heap[x].range);
    }
  }

  // So no block of a fresh segment is known.
  lemma FreshBlock(l: Layout, base: Addr, stride: nat, blocks: nat, j: nat)
    requires Charted(l) && Unclaimed(l, Segment(base, stride * blocks)) && j < blocks && stride > 0
    ensures BlockAt(base, stride, j) !in l.headers
  {
    var x := BlockAt(base, stride, j);
    StridesApart(base, stride, j, blocks);
    if x in l.headers {
      KnownIsClaimed(l, Segment(base, stride * blocks), x);
    }
  }

  // The memory has gained the blocks of a new segment of the bin.
  ghost predicate Gained(l: Layout, l': Layout, bin: nat, base: Addr, blocks: nat)
    requires bin < |l.mapped| && bin < |l.specs|
  {
    && l' == l.(headers := l'.headers, mapped := l.mapped[bin := l.mapped[bin] + [Segment(base, l.specs[bin].stride * blocks)]])
    && (forall x :: x in l.headers ==> x in l'.headers && l'.headers[x].binIndex == l.headers[x].binIndex)
    && (forall x :: x in l'.headers && x !in l.headers ==>
          l'.headers[x].binIndex == bin && x in BlocksBetween(base, l.specs[bin].stride, 0, blocks))
  }

  lemma GrowthKeepsChart(l: Layout, l': Layout, bin: nat, base: Addr, blocks: nat)
    requires Charted(l) && bin < |l.mapped| && Gained(l, l', bin, base, blocks)
    requires base % GRANULARITY == 0 && Unclaimed(l, Segment(base, l.specs[bin].stride * blocks))
    ensures Charted(l')
  {
    hide SpecSound, Admissible, IsBlock, BlockAt, BlocksBetween, Housed;
    var s := Segment(base, l.specs[bin].stride * blocks);
    SegmentAdded(l.mapped, bin, s);
    assert HeapApart(l') by {
      forall x, b, i | x in l'.heap && 0 <= b < |l'.mapped| && 0 <= i < |l'.mapped[b]|
        ensures Apart(l'.heap[x].range, l'.mapped[b][i])
      {
        if b == bin && i == |l.mapped[bin]| { assert Apart(s, l.heap[x].range); } else { assert l'.mapped[b][i] == l.mapped[b][i]; }
      }
    }
    GrowthHouses(l, l', bin, base, blocks);
  }

  lemma SegmentAdded(mapped: seq<seq<Segment>>, bin: nat, s: Segment)
    requires SegmentsApart(mapped) && bin < |mapped| && s.base % GRANULARITY == 0
    requires forall b, i :: 0 <= b < |mapped| && 0 <= i < |mapped[b]| ==> Apart(s, mapped[b][i])
    ensures SegmentsApart(mapped[bin := mapped[bin] + [s]])
  {
    var more := mapped[bin := mapped[bin] + [s]];
    forall b, i | 0 <= b < |more| && 0 <= i < |more[b]|
      ensures more[b][i] == if b == bin && i == |mapped[bin]| then s else mapped[b][i]
    {
    }
  }

  lemma StaysInBin(segments: seq<Segment>, s: Segment, stride: nat, x: Addr)
    requires InBin(segments, stride, x)
    ensures InBin(segments + [s], stride, x)
  {
    hide IsBlock;
    var i :| 0 <= i < |segments| && IsBlock(segments[i], stride, x);
    assert (segments + [s])[i] == segments[i];
  }

  lemma GrowthHouses(l: Layout, l': Layout, bin: nat, base: Addr, blocks: nat)
    requires |l.mapped| == |l.specs| && Housed(l) && bin < |l.mapped| && Gained(l, l', bin, base, blocks)
    ensures Housed(l')
  {
    var s := Segment(base, l.specs[bin].stride * blocks);
    forall x | x in l'.headers && l'.headers[x].binIndex < |l.specs|
      ensures InBin(l'.mapped[l'.headers[x].binIndex], l.specs[l'.headers[x].binIndex].stride, x)
    {
      if x in l.headers {
        StaysInBin(l.mapped[l.headers[x].binIndex], s, l.specs[l.headers[x].binIndex].stride, x);
      } else {
        var j :| 0 <= j < blocks && x == BlockAt(base, l.specs[bin].stride, j);
        StridesApart(base, l.specs[bin].stride, j, blocks);
        assert l'.mapped[bin][|l.mapped[bin]|] == s;
        assert IsBlock(s, l.specs[bin].stride, x);
      }
    }
  }

  // A heap block joins: its header is new and so are all its bytes.
  lemma HeapBlockJoins(l: Layout, x: Addr, header: BlockHeader, block: HeapBlock)
    requires Charted(l) && x !in l.heap && header.binIndex >= |l.specs| && Unclaimed(l, block.range)
    requires (x + l.headerSize) % l.alignment == 0 && Within(Segment(x, l.headerSize + block.size), block.range)
    ensures Charted(l.(headers := l.headers[x := header], heap := l.heap[x := block]))
  {
    hide SpecSound, Admissible, InBin, Within, HeapApart;
    HeapGrows(l, l.(headers := l.headers[x := header], heap := l.heap[x := block]), x, block);
  }

  lemma HeapGrows(l: Layout, l': Layout, x: Addr, block: HeapBlock)
    requires l.alignment > 0 && HeapApart(l) && x !in l.heap && Unclaimed(l, block.range)
    requires l' == l.(headers := l'.headers, heap := l.heap[x := block])
    requires (x + l.headerSize) % l.alignment == 0 && Within(Segment(x, l.headerSize + block.size), block.range)
    ensures HeapApart(l')
  {
    hide Within;
    forall y, z | y in l'.heap && z in l'.heap && y != z ensures Apart(l'.heap[y].range, l'.heap[z].range) {
      if y == x { assert Apart(block.range, l.heap[z].range); }
      if z == x { assert Apart(block.range, l.heap[y].range); }
    }
    forall y, b, i | y in l'.heap && 0 <= b < |l.mapped| && 0 <= i < |l.mapped[b]| ensures Apart(l'.heap[y].range, l.mapped[b][i]) {
      if y == x { assert Apart(block.range, l.mapped[b][i]); }
    }
  }

  lemma HeapBlockLeaves(l: Layout, x: Addr)
    requires Charted(l)
    ensures Charted(l.(headers := l.headers - {x}, heap := l.heap - {x}))
  {
    hide SpecSound, Admissible, InBin;
    HeapStays(l, l.(headers := l.headers - {x}, heap := l.heap - {x}));
  }

  // --- Heap blocks ---------------------------------------------------------------------------------------

  const SIZE_RANGE := 0x1_0000_0000_0000_0000
  // The addresses of a 64-bit Windows process.
  const USER_RANGE := 0x8000_0000_0000

  // The bytes asked of the heap for an oversized request, on size_t.
  function RawBytes(headerSize: nat, size: nat, alignment: nat): nat { (headerSize + size + alignment) % SIZE_RANGE }

  // Whether that sum stays on size_t; a caller can check it before the call.
  predicate SumFits(headerSize: nat, size: nat, alignment: nat) { headerSize + size + alignment < SIZE_RANGE }

  // AcquireBypass puts an aligned payload behind the header, and header and payload lie inside what the
  // heap gave exactly when the number of bytes asked for has not wrapped around.
  lemma HeapBlockFitsIff(raw: Addr, headerSize: nat, size: nat, alignment: nat)
    requires Admissible(alignment) && BLOCK_HEADER_SIZE <= headerSize <= 4096 && headerSize % alignment == 0
    requires raw < USER_RANGE && 0 < size < SIZE_RANGE
    ensures alignment <= Pow2(SIZE_T_BITS)
    ensures var payload := AlignUpSize(raw + headerSize, alignment);
            && payload % alignment == 0 && payload >= raw + headerSize
            && (Within(Segment(payload - headerSize, headerSize + size), Segment(raw, RawBytes(headerSize, size, alignment)))
                <==> SumFits(headerSize, size, alignment))
  {
    hide AlignUpSize, IsPowerOfTwo;
    AlignsUp(raw + headerSize, alignment);
    var payload := AlignUpSize(raw + headerSize, alignment);
    assert RawBytes(headerSize, size, alignment)
        == if SumFits(headerSize, size, alignment) then headerSize + size + alignment else headerSize + size + alignment - SIZE_RANGE;
  }

  // A request so large that the sum wraps around: 16 bytes are asked of the heap, and the payload leaves
  // them at once.
  lemma WrappedRequest(raw: Addr)
    requires raw < USER_RANGE && raw % 16 == 0
    ensures var size := SIZE_RANGE - 16;
            && Admissible(16) && !SumFits(16, size, 16) && RawBytes(16, size, 16) == 16
            && !Within(Segment(raw + 16, size), Segment(raw, RawBytes(16, size, 16)))
  {
    PowerOfTwoIff(16);
    assert Pow2(4) == 16;
  }

  lemma AlignsUp(value: nat, alignment: nat)
    requires Admissible(alignment) && value < 2 * USER_RANGE
    ensures alignment <= Pow2(SIZE_T_BITS)
    ensures var up := AlignUpSize(value, alignment); value <= up < value + alignment && up % alignment == 0
  {
    PowerOfTwoIff(alignment);
    var a: nat :| alignment == Pow2(a);
    Pow2At12And31And64();
    if a > 12 { Pow2Grows(12, a); }
    AlignUpRounds(value, a);
  }

  // --- Alignment ----------------------------------------------------------------------------------------

  lemma {:induction false} StaysAligned(base: nat, stride: nat, alignment: nat, i: nat)
    requires alignment > 0 && base % alignment == 0 && stride % alignment == 0
    ensures BlockAt(base, stride, i) % alignment == 0
  {
    if i > 0 {
      StaysAligned(base, stride, alignment, i - 1);
      assert BlockAt(base, stride, i) == BlockAt(base, stride, i - 1) + stride;
      SumAligned(BlockAt(base, stride, i - 1), stride, alignment);
    }
  }

  lemma SumAligned(x: nat, y: nat, m: nat)
    requires m > 0 && x % m == 0 && y % m == 0
    ensures (x + y) % m == 0
  {
    var a, b := x / m, y / m;
    assert x == a * m && y == b * m;
    assert x + y == (a + b) * m;
    MultipleLeavesNothing(a + b, m);
  }

  // VirtualAlloc's 64 KB granularity is enough for every alignment a pool accepts.
  lemma SegmentIsAligned(base: Addr, alignment: nat)
    requires base % GRANULARITY == 0 && IsPowerOfTwo(alignment) && alignment <= 4096
    ensures alignment > 0 && base % alignment == 0
  {
    PowerOfTwoIff(alignment);
    var a: nat :| alignment == Pow2(a);
    Pow2At12And31And64();
    if a > 12 { Pow2Grows(12, a); }
    assert Pow2(16) == 65536 by { Pow2Adds(12, 4); assert Pow2(4) == 16; }
    Pow2Divides(a, 16);
    MultipleOfMultiple(base, Pow2(16 - a), Pow2(a));
  }

  lemma MultipleOfMultiple(x: nat, k: nat, m: nat)
    requires m > 0 && k * m > 0 && x % (k * m) == 0
    ensures x % m == 0
  {
    var q := x / (k * m);
    assert x == q * (k * m);
    Regroup(q, k, m);
    MultipleLeavesNothing(q * k, m);
  }

  lemma Regroup(q: nat, k: nat, m: nat)
    ensures q * (k * m) == (q * k) * m
  {
  }
}
