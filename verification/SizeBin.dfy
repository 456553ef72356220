/** Block layout and size bins: pure arithmetic from a configuration to the constants of every bin. */
module SizeBin {
  import opened Bits

  const SEGMENT_TARGET_BYTES := 256 * 1024
  const CACHE_BYTES_PER_BIN := 64 * 1024
  const CACHE_CAP_BLOCK_LIMIT := 512
  const CACHE_CAP_MIN_BLOCKS := 4
  const MIN_BLOCK_SIZE := 32
  const MAX_BIN_COUNT := 24
  const BLOCK_HEADER_SIZE := 16
  const CHUNK_NODE_SIZE := 32
  const SIZE_T_BITS := 64
  const UINT32_RANGE := 0x1_0000_0000

  // (value + (alignment - 1)) & ~(alignment - 1) on size_t.
  function AlignUpSize(value: nat, alignment: nat): nat
    requires 0 < alignment <= Pow2(SIZE_T_BITS)
  {
    And(value + (alignment - 1), Pow2(SIZE_T_BITS) - alignment)
  }

  function HeaderSizeFor(alignment: nat): nat
    requires 0 < alignment <= Pow2(SIZE_T_BITS)
  {
    AlignUpSize(BLOCK_HEADER_SIZE, alignment)
  }

  function CeilLog2(value: nat): nat
  {
    if value <= 1 then 0 else ScanReverse(value - 1) + 1
  }

  datatype BinSpec = BinSpec(blockSize: nat, stride: nat, cacheCapBlocks: nat, batchBlocks: nat, blocksPerSegment: nat)

  datatype BinTable = BinTable(binCount: nat, minBinLog: nat, headerSize: nat, alignment: nat, specs: seq<BinSpec>)

  // ((size - 1) | minMask), then the bit scan; sizes are at least 1.
  function BinOf(minBinLog: nat, size: nat): int
    requires size > 0 && minBinLog > 0
  {
    OrBounds(size - 1, Pow2(minBinLog) - 1);
    ScanReverse(Or(size - 1, Pow2(minBinLog) - 1)) + 1 - minBinLog
  }

  function Cap(blockSize: nat): nat
    requires blockSize > 0
  {
    var cap := CACHE_BYTES_PER_BIN / blockSize;
    var limited := if cap > CACHE_CAP_BLOCK_LIMIT then CACHE_CAP_BLOCK_LIMIT else cap;
    if limited < CACHE_CAP_MIN_BLOCKS then 0 else limited
  }

  function Batch(blockSize: nat): nat
    requires blockSize > 0
  {
    if Cap(blockSize) >= CACHE_CAP_MIN_BLOCKS then Cap(blockSize) / 4 else 1
  }

  function MakeBinSpec(blockSize: nat, headerSize: nat, alignment: nat): BinSpec
    requires 0 < blockSize && 0 < alignment <= Pow2(SIZE_T_BITS)
  {
    var stride := AlignUpSize(headerSize + blockSize, alignment);
    var blocks := if stride == 0 then 0 else SEGMENT_TARGET_BYTES / stride;
    var enough := if blocks < 2 * Batch(blockSize) then 2 * Batch(blockSize) else blocks;
    BinSpec(blockSize, stride, Cap(blockSize), Batch(blockSize), if enough < 2 then 2 else enough)
  }

  // --- What they compute ------------------------------------------------------------------------

  // AlignUpSize rounds up to the next multiple of a power of two, unless the sum overflows.
  lemma AlignUpRounds(value: nat, k: nat)
    requires k <= SIZE_T_BITS && value + Pow2(k) - 1 < Pow2(SIZE_T_BITS)
    ensures Pow2(k) <= Pow2(SIZE_T_BITS)
    ensures var up := AlignUpSize(value, Pow2(k)); value <= up < value + Pow2(k) && up % Pow2(k) == 0
  {
    hide Pow2, And;
    var x := value + (Pow2(k) - 1);
    HighMaskRoundsDown(x, k, SIZE_T_BITS);
    RoundedDown(x, Pow2(k));
  }

  lemma RoundedDown(x: nat, m: nat)
    requires m > 0
    ensures x - m < x - x % m <= x && (x - x % m) % m == 0
  {
    assert x - x % m == x / m * m;
    MultipleLeavesNothing(x / m, m);
  }

  // CeilLog2 is the exponent of the smallest power of two that is at least the value.
  lemma CeilLog2Fits(value: nat)
    requires value > 0
    ensures value <= Pow2(CeilLog2(value))
    ensures CeilLog2(value) > 0 ==> Pow2(CeilLog2(value) - 1) < value
  {
    if value > 1 {
      ScanReverseBounds(value - 1);
    }
  }

  // The block size of a bin.
  function BlockSizeOf(minBinLog: nat, bin: nat): nat { Pow2(minBinLog + bin) }

  // BinOf picks the smallest bin that fits: its blocks are large enough and the next smaller ones,
  // if there are any, are not.
  lemma BinOfIsSmallestFit(minBinLog: nat, size: nat)
    requires size > 0 && minBinLog > 0
    ensures BinOf(minBinLog, size) >= 0
    ensures size <= BlockSizeOf(minBinLog, BinOf(minBinLog, size))
    ensures BinOf(minBinLog, size) > 0 ==> BlockSizeOf(minBinLog, BinOf(minBinLog, size) - 1) < size
  {
    var mask := Pow2(minBinLog) - 1;
    ScanReverseIs(mask, minBinLog - 1);
    ScanReverseOfOr(size - 1, mask);
    if size > 1 {
      ScanReverseBounds(size - 1);
      if ScanReverse(size - 1) < minBinLog - 1 { Pow2Grows(ScanReverse(size - 1), minBinLog - 1); }
    }
  }

  // Which bin it is does not depend on how it is computed.
  lemma SmallestFitIsUnique(minBinLog: nat, size: nat, a: nat, b: nat)
    requires size <= BlockSizeOf(minBinLog, a) && (a > 0 ==> BlockSizeOf(minBinLog, a - 1) < size)
    requires size <= BlockSizeOf(minBinLog, b) && (b > 0 ==> BlockSizeOf(minBinLog, b - 1) < size)
    ensures a == b
  {
    if a < b {
      if a < b - 1 { Pow2Grows(minBinLog + a, minBinLog + b - 1); }
    } else if b < a {
      if b < a - 1 { Pow2Grows(minBinLog + b, minBinLog + a - 1); }
    }
  }

  // The table has a bin for the size exactly when the size is at most the largest block.
  lemma BinOfInTable(minBinLog: nat, binCount: nat, size: nat)
    requires size > 0 && minBinLog > 0 && binCount > 0
    ensures BinOf(minBinLog, size) < binCount <==> size <= BlockSizeOf(minBinLog, binCount - 1)
  {
    BinOfIsSmallestFit(minBinLog, size);
    var bin := BinOf(minBinLog, size);
    if bin < binCount - 1 {
      Pow2Grows(minBinLog + bin, minBinLog + binCount - 1);
    } else if bin >= binCount && binCount - 1 < bin - 1 {
      Pow2Grows(minBinLog + binCount - 1, minBinLog + bin - 1);
    }
  }

  // What MakeBinSpec promises the tiers above: block and header fit the stride, strides keep the
  // alignment, a flush leaves at least three quarters of a full cache, and one segment serves at
  // least two batches.
  ghost predicate SpecSound(spec: BinSpec, headerSize: nat, alignment: nat)
  {
    && alignment > 0 && spec.blockSize >= MIN_BLOCK_SIZE
    && spec.stride >= headerSize + spec.blockSize && spec.stride % alignment == 0
    && headerSize >= BLOCK_HEADER_SIZE && headerSize % alignment == 0
    && 1 <= spec.batchBlocks && 2 * spec.batchBlocks <= spec.blocksPerSegment && 2 <= spec.blocksPerSegment
    && (spec.cacheCapBlocks == 0 ==> spec.batchBlocks == 1)
    && (spec.cacheCapBlocks > 0 ==> 4 * spec.batchBlocks <= spec.cacheCapBlocks < 4 * spec.batchBlocks + 4)
    && spec.cacheCapBlocks * spec.blockSize <= CACHE_BYTES_PER_BIN
  }

  // And that nothing is wasted: the header is one alignment, the stride the least that fits, the cache as
  // many blocks as 64 KB hold, up to 512 and none if they are fewer than 4, and the segment as many blocks
  // as 256 KB hold, or two batches if those are more.
  ghost predicate SpecTight(spec: BinSpec, headerSize: nat, alignment: nat)
  {
    && headerSize == alignment && spec.stride < headerSize + spec.blockSize + alignment
    && (spec.cacheCapBlocks == 0 <==> 4 * spec.blockSize > 65536)
    && (spec.cacheCapBlocks > 0 ==>
          && 4 <= spec.cacheCapBlocks <= 512 && spec.cacheCapBlocks * spec.blockSize <= 65536
          && (spec.cacheCapBlocks == 512 || (spec.cacheCapBlocks + 1) * spec.blockSize > 65536))
    && (spec.blocksPerSegment * spec.stride <= 262144 || spec.blocksPerSegment == 2 * spec.batchBlocks)
    && (spec.blocksPerSegment + 1) * spec.stride > 262144
  }

  // alignment is 2^a between 16 and 4096; block sizes are powers of two from 32 to 2^31.
  lemma MakeBinSpecIsSound(blockLog: nat, a: nat)
    requires 5 <= blockLog <= 31 && 4 <= a <= 12
    ensures Pow2(a) <= Pow2(SIZE_T_BITS)
    ensures SpecSound(MakeBinSpec(Pow2(blockLog), HeaderSizeFor(Pow2(a)), Pow2(a)), HeaderSizeFor(Pow2(a)), Pow2(a))
    ensures SpecTight(MakeBinSpec(Pow2(blockLog), HeaderSizeFor(Pow2(a)), Pow2(a)), HeaderSizeFor(Pow2(a)), Pow2(a))
  {
    hide Pow2, AlignUpSize, SpecSound, SpecTight, MakeBinSpec;
    Pow2Bounds(blockLog, a);
    AlignUpRounds(BLOCK_HEADER_SIZE, a);
    var header := HeaderSizeFor(Pow2(a));
    AlignUpRounds(header + Pow2(blockLog), a);
    OnlyMultiple(header, Pow2(a));
    SizesAreSound(Pow2(blockLog), header, Pow2(a));
    SizesAreTight(Pow2(blockLog), header, Pow2(a));
  }

  lemma SizesAreSound(blockSize: nat, headerSize: nat, alignment: nat)
    requires MIN_BLOCK_SIZE <= blockSize && 16 <= alignment <= Pow2(SIZE_T_BITS) && headerSize == alignment
    requires var stride := AlignUpSize(headerSize + blockSize, alignment);
             stride >= headerSize + blockSize && stride % alignment == 0
    ensures SpecSound(MakeBinSpec(blockSize, headerSize, alignment), headerSize, alignment)
  {
    hide Pow2, AlignUpSize;
    CapFits(blockSize);
    QuotientIs(headerSize, alignment, 1, 0);
    hide Cap;
  }

  lemma SizesAreTight(blockSize: nat, headerSize: nat, alignment: nat)
    requires 0 < blockSize && 0 < alignment <= Pow2(SIZE_T_BITS) && headerSize == alignment
    requires 0 < AlignUpSize(headerSize + blockSize, alignment) < headerSize + blockSize + alignment
    ensures SpecTight(MakeBinSpec(blockSize, headerSize, alignment), headerSize, alignment)
  {
    hide Pow2, AlignUpSize;
    var stride := AlignUpSize(headerSize + blockSize, alignment);
    CapFits(blockSize);
    SegmentFits(stride, Batch(blockSize));
    hide Cap;
  }

  lemma OnlyMultiple(x: nat, m: nat)
    requires m > 0 && 0 < x < 2 * m && x % m == 0
    ensures x == m
  {
    if x < m {
      QuotientIs(x, m, 0, x);
    } else {
      QuotientIs(x, m, 1, x - m);
    }
  }

  lemma Times(a: nat, b: nat, m: nat)
    requires a <= b
    ensures a * m <= b * m
  {
    assert b * m == a * m + (b - a) * m;
  }

  // How many pieces of m bytes a total holds: no fewer than q exactly if q of them fit.
  lemma Holds(total: nat, m: nat, q: nat)
    requires m > 0
    ensures total / m * m <= total < (total / m + 1) * m
    ensures q <= total / m <==> q * m <= total
  {
    var held := total / m;
    assert total == held * m + total % m;
    assert (held + 1) * m == held * m + m;
    if q <= held {
      Times(q, held, m);
    } else {
      Times(held + 1, q, m);
    }
  }

  // As many strides as the target holds, or two batches.
  lemma SegmentFits(stride: nat, batch: nat)
    requires stride > 0 && batch > 0
    ensures var held := SEGMENT_TARGET_BYTES / stride;
            var blocks := if held < 2 * batch then 2 * batch else held;
            (blocks * stride <= 262144 || blocks == 2 * batch) && (blocks + 1) * stride > 262144
  {
    var held := SEGMENT_TARGET_BYTES / stride;
    Holds(SEGMENT_TARGET_BYTES, stride, held);
    var blocks := if held < 2 * batch then 2 * batch else held;
    Times(held + 1, blocks + 1, stride);
  }

  lemma Pow2Bounds(blockLog: nat, a: nat)
    requires 5 <= blockLog <= 31 && 4 <= a <= 12
    ensures 32 <= Pow2(blockLog) <= 0x8000_0000 && 16 <= Pow2(a) <= 4096
    ensures Pow2(SIZE_T_BITS) == 0x1_0000_0000_0000_0000
  {
    assert Pow2(5) == 32 && Pow2(4) == 16;
    Pow2At12And31And64();
    if 5 < blockLog { Pow2Grows(5, blockLog); }
    if blockLog < 31 { Pow2Grows(blockLog, 31); }
    if 4 < a { Pow2Grows(4, a); }
    if a < 12 { Pow2Grows(a, 12); }
  }

  lemma Pow2At12And31And64()
    ensures Pow2(12) == 4096 && Pow2(31) == 0x8000_0000 && Pow2(SIZE_T_BITS) == 0x1_0000_0000_0000_0000
  {
    assert Pow2(8) == 256;
    Pow2Adds(8, 8);
    Pow2Adds(16, 16);
    Pow2Adds(32, 32);
    assert Pow2(12) == 4096;
  }

  lemma CapFits(blockSize: nat)
    requires blockSize > 0
    ensures Cap(blockSize) * blockSize <= CACHE_BYTES_PER_BIN && Cap(blockSize) <= 512
    ensures Cap(blockSize) == 0 <==> 4 * blockSize > 65536
    ensures Cap(blockSize) > 0 ==> Cap(blockSize) >= 4 && (Cap(blockSize) == 512 || (Cap(blockSize) + 1) * blockSize > 65536)
  {
    var cap := CACHE_BYTES_PER_BIN / blockSize;
    Holds(CACHE_BYTES_PER_BIN, blockSize, CACHE_CAP_MIN_BLOCKS);
    Holds(CACHE_BYTES_PER_BIN, blockSize, cap);
    Times(Cap(blockSize), cap, blockSize);
  }
}
