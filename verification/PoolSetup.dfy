/** From a configuration to the bin table, which configurations give a usable one, and to an empty pool. */
module PoolSetup {
  import opened Bits
  import opened SizeBin
  import opened BlockMemory
  import G = GlobalBlockPool
  import L = MemoryLayout
  import P = BlockPoolProtocol
  import Pic = PoolPicture
  import T = TlsMemoryPool

  datatype BinConfig = BinConfig(blockSize: nat, blockCount: nat)

  // DividesByZero: the block size of the last bin does not fit 32 bits, and MakeBinSpec divides by it.
  datatype Outcome = Refused | DividesByZero | Built(table: BinTable)

  predicate BadInput(configs: seq<BinConfig>, alignment: nat)
  {
    configs == [] || !IsPowerOfTwo(alignment) || alignment < 16 || alignment > 4096
    || exists i :: 0 <= i < |configs| && configs[i].blockSize == 0
  }

  ghost predicate IsSmallest(configs: seq<BinConfig>, m: nat)
  {
    (exists i :: 0 <= i < |configs| && configs[i].blockSize == m) && forall i :: 0 <= i < |configs| ==> m <= configs[i].blockSize
  }

  ghost predicate IsLargest(configs: seq<BinConfig>, m: nat)
  {
    (exists i :: 0 <= i < |configs| && configs[i].blockSize == m) && forall i :: 0 <= i < |configs| ==> configs[i].blockSize <= m
  }

  function Raised(smallest: nat): nat { if smallest < MIN_BLOCK_SIZE then MIN_BLOCK_SIZE else smallest }

  // The first loop of Initialize: the range of the configured sizes, unless one of them is zero.
  method FindRange(configs: seq<BinConfig>) returns (ok: bool, low: nat, high: nat)
    requires configs != []
    ensures ok <==> forall i :: 0 <= i < |configs| ==> configs[i].blockSize != 0
    ensures ok ==> IsSmallest(configs, low) && IsLargest(configs, high)
  {
    low, high := configs[0].blockSize, 0;
    var i := 0;
    while i < |configs|
      invariant 0 <= i <= |configs|
      invariant forall k :: 0 <= k < i ==> configs[k].blockSize != 0
      invariant i > 0 ==> IsSmallest(configs[..i], low) && IsLargest(configs[..i], high)
      invariant i == 0 ==> low == configs[0].blockSize && high == 0
    {
      if configs[i].blockSize == 0 {
        return false, 0, 0;
      }
      ExtremesGrow(configs, i, low, high);
      if configs[i].blockSize < low {
        low := configs[i].blockSize;
      }
      if configs[i].blockSize > high {
        high := configs[i].blockSize;
      }
      i := i + 1;
    }
    assert configs[..i] == configs;
    return true, low, high;
  }

  // The second loop: one specification for every power of two in the range; it fails at 2^32.
  method FillSpecs(minBinLog: nat, binCount: nat, headerSize: nat, alignment: nat) returns (ok: bool, specs: seq<BinSpec>)
    requires 0 < alignment <= Pow2(SIZE_T_BITS) && minBinLog <= 32
    ensures ok <==> minBinLog + binCount <= 32
    ensures ok ==> |specs| == binCount
                   && forall b :: 0 <= b < binCount ==> specs[b] == MakeBinSpec(Pow2(minBinLog + b), headerSize, alignment)
  {
    hide Pow2, MakeBinSpec;
    specs := [];
    var bin := 0;
    while bin < binCount
      invariant bin == |specs| <= binCount && minBinLog + bin <= 32
      invariant forall b :: 0 <= b < bin ==> specs[b] == MakeBinSpec(Pow2(minBinLog + b), headerSize, alignment)
    {
      if minBinLog + bin == 32 {
        return false, [];
      }
      specs := specs + [MakeBinSpec(Pow2(minBinLog + bin), headerSize, alignment)];
      bin := bin + 1;
    }
    return true, specs;
  }

  // The table part of TlsMemoryPool::Initialize; block sizes are 32-bit.
  method BuildTable(configs: seq<BinConfig>, alignment: nat) returns (o: Outcome, ghost smallest: nat, ghost largest: nat)
    requires forall i :: 0 <= i < |configs| ==> configs[i].blockSize < UINT32_RANGE
    ensures BadInput(configs, alignment) ==> o.Refused?
    ensures !BadInput(configs, alignment) ==> IsSmallest(configs, smallest) && IsLargest(configs, largest)
    ensures !BadInput(configs, alignment) ==> BuiltFrom(o, smallest, largest, alignment)
  {
    hide Pow2, MakeBinSpec, CeilLog2, And, HeaderSizeFor, IsSmallest;
    smallest, largest := 0, 0;
    if configs == [] {
      return Refused, 0, 0;
    }
    if alignment == 0 || And(alignment, alignment - 1) != 0 || alignment < 16 || alignment > 4096 {
      return Refused, 0, 0;
    }
    var ok, low, high := FindRange(configs);
    if !ok {
      return Refused, 0, 0;
    }
    smallest, largest := low, high;
    LogsFit(low, alignment);
    LogsFit(high, alignment);
    if low < MIN_BLOCK_SIZE {
      low := MIN_BLOCK_SIZE;
    }
    LogsFit(low, alignment);
    var minBinLog, maxBinLog := CeilLog2(low), CeilLog2(high);
    // the count is unsigned: a difference below zero is a huge one
    if maxBinLog + 1 < minBinLog || maxBinLog + 1 - minBinLog > MAX_BIN_COUNT {
      return Refused, smallest, largest;
    }
    var headerSize := HeaderSizeFor(alignment);
    var filled, specs := FillSpecs(minBinLog, maxBinLog + 1 - minBinLog, headerSize, alignment);
    if !filled {
      return DividesByZero, smallest, largest;
    }
    return Built(BinTable(maxBinLog + 1 - minBinLog, minBinLog, headerSize, alignment, specs)), smallest, largest;
  }

  // The outcome for a range of sizes, the smallest raised to MIN_BLOCK_SIZE.
  ghost predicate BuiltFrom(o: Outcome, smallest: nat, largest: nat, alignment: nat)
  {
    var minBinLog, maxBinLog := CeilLog2(Raised(smallest)), CeilLog2(largest);
    && (o.Refused? <==> maxBinLog + 1 < minBinLog || maxBinLog + 1 > minBinLog + MAX_BIN_COUNT)
    && (o.DividesByZero? <==> !o.Refused? && maxBinLog == 32)
    && (o.Built? ==>
          && 0 < alignment <= Pow2(SIZE_T_BITS)
          && o.table.minBinLog == minBinLog && o.table.alignment == alignment
          && o.table.headerSize == HeaderSizeFor(alignment)
          && o.table.binCount == |o.table.specs| == maxBinLog + 1 - minBinLog
          && forall b :: 0 <= b < |o.table.specs| ==>
               o.table.specs[b] == MakeBinSpec(Pow2(minBinLog + b), o.table.headerSize, alignment))
  }

  lemma ExtremesGrow(configs: seq<BinConfig>, i: nat, low: nat, high: nat)
    requires i < |configs|
    requires i > 0 ==> IsSmallest(configs[..i], low) && IsLargest(configs[..i], high)
    requires i == 0 ==> low == configs[0].blockSize && high == 0
    ensures var size := configs[i].blockSize;
            && IsSmallest(configs[..i + 1], if size < low then size else low)
            && IsLargest(configs[..i + 1], if size > high then size else high)
  {
    var longer := configs[..i + 1];
    assert longer[i] == configs[i] && longer[..i] == configs[..i];
    if i > 0 {
      var a :| 0 <= a < i && configs[..i][a].blockSize == low;
      var b :| 0 <= b < i && configs[..i][b].blockSize == high;
      assert longer[a].blockSize == low && longer[b].blockSize == high;
      forall k | 0 <= k < i ensures longer[k] == configs[..i][k] {}
    }
  }

  lemma LogsFit(size: nat, alignment: nat)
    requires size < UINT32_RANGE && 0 < alignment <= 4096
    ensures CeilLog2(size) <= 32 && alignment <= Pow2(SIZE_T_BITS)
  {
    Pow2At12And31And64();
    if size > 0 {
      CeilLog2Fits(size);
      if CeilLog2(size) > 33 { Pow2Grows(32, CeilLog2(size) - 1); }
      assert Pow2(32) == 2 * Pow2(31);
    }
  }

  // Which configurations give a pool with bins: those whose largest size lies between 17 bytes and
  // 2 GB, over at most 24 powers of two.  Sizes of 9 to 16 alone give a table without a bin, sizes up
  // to 8 are refused, and above 2 GB the table cannot be built.
  lemma UsableIff(o: Outcome, smallest: nat, largest: nat, alignment: nat)
    requires BuiltFrom(o, smallest, largest, alignment) && 0 < smallest <= largest < UINT32_RANGE
    ensures o.Built? && o.table.binCount > 0 <==>
              17 <= largest <= 0x8000_0000 && CeilLog2(largest) < CeilLog2(Raised(smallest)) + MAX_BIN_COUNT
    ensures o.Built? && o.table.binCount == 0 <==> 9 <= largest <= 16
    ensures largest <= 8 ==> o.Refused?
  {
    hide Pow2, MakeBinSpec, HeaderSizeFor;
    LogsFit(largest, 16);
    SmallLogs(largest);
    SmallLogs(Raised(smallest));
    LogsAreOrdered(smallest, largest);
  }

  lemma SmallLogs(size: nat)
    requires size > 0
    ensures CeilLog2(size) <= 3 <==> size <= 8
    ensures CeilLog2(size) <= 4 <==> size <= 16
    ensures CeilLog2(size) <= 5 <==> size <= 32
    ensures CeilLog2(size) <= 31 <==> size <= 0x8000_0000
  {
    assert Pow2(3) == 8 && Pow2(4) == 16 && Pow2(5) == 32;
    Pow2At12And31And64();
    LogAtMost(size, 3);
    LogAtMost(size, 4);
    LogAtMost(size, 5);
    LogAtMost(size, 31);
  }

  lemma LogAtMost(size: nat, k: nat)
    requires size > 0
    ensures CeilLog2(size) <= k <==> size <= Pow2(k)
  {
    CeilLog2Fits(size);
    var c := CeilLog2(size);
    if c < k { Pow2Grows(c, k); }
    if k + 1 < c { Pow2Grows(k, c - 1); }
  }

  lemma LogsAreOrdered(smallest: nat, largest: nat)
    requires 0 < smallest <= largest
    ensures largest >= MIN_BLOCK_SIZE ==> CeilLog2(Raised(smallest)) <= CeilLog2(largest)
    ensures largest < MIN_BLOCK_SIZE ==> CeilLog2(Raised(smallest)) == 5
  {
    SmallLogs(Raised(smallest));
    if largest >= MIN_BLOCK_SIZE {
      CeilLog2Fits(largest);
      LogAtMost(Raised(smallest), CeilLog2(largest));
    } else {
      LogAtMost(32, 4);
      assert Pow2(4) == 16;
    }
  }

  // Every bin of a built table is what the tiers above rely on.
  lemma BuiltIsSound(o: Outcome, smallest: nat, largest: nat, alignment: nat, b: nat)
    requires BuiltFrom(o, smallest, largest, alignment) && o.Built? && 0 < smallest <= largest < UINT32_RANGE
    requires IsPowerOfTwo(alignment) && 16 <= alignment <= 4096 && b < o.table.binCount
    ensures SpecSound(o.table.specs[b], o.table.headerSize, alignment) && SpecTight(o.table.specs[b], o.table.headerSize, alignment)
    ensures o.table.specs[b].blockSize == BlockSizeOf(o.table.minBinLog, b) && o.table.minBinLog >= 5
    ensures P.Sensible(Pic.SpecOf(o.table.specs[b])) && o.table.specs[b].stride > 0
  {
    hide MakeBinSpec, HeaderSizeFor;
    PowerOfTwoIff(alignment);
    var a: nat :| alignment == Pow2(a);
    assert Pow2(4) == 16;
    Pow2At12And31And64();
    if a < 4 { Pow2Grows(a, 4); }
    if a > 12 { Pow2Grows(12, a); }
    SmallLogs(Raised(smallest));
    LogsFit(largest, 16);
    MakeBinSpecIsSound(o.table.minBinLog + b, a);
    BlockSizeIs(o.table.specs[b], o.table.minBinLog + b, o.table.headerSize, alignment);
  }

  lemma BlockSizeIs(spec: BinSpec, log: nat, headerSize: nat, alignment: nat)
    requires 0 < alignment <= Pow2(SIZE_T_BITS) && spec == MakeBinSpec(Pow2(log), headerSize, alignment)
    ensures spec.blockSize == Pow2(log)
  {
  }

  // The request sizes the table serves are exactly those up to the largest power of two.
  lemma ServesUpToLargest(o: Outcome, smallest: nat, largest: nat, alignment: nat, size: nat)
    requires BuiltFrom(o, smallest, largest, alignment) && o.Built? && o.table.binCount > 0 && size > 0
    requires 0 < smallest <= largest < UINT32_RANGE
    ensures o.table.minBinLog > 0
    ensures BinOf(o.table.minBinLog, size) < o.table.binCount <==> size <= Pow2(CeilLog2(largest))
    ensures largest <= Pow2(CeilLog2(largest))
  {
    hide MakeBinSpec, HeaderSizeFor;
    SmallLogs(Raised(smallest));
    BinOfInTable(o.table.minBinLog, o.table.binCount, size);
    CeilLog2Fits(largest);
  }

  // --- The pool that comes out -------------------------------------------------------------------------

  // TlsMemoryPool::Initialize up to the preallocation: the table, the empty store and the registry.
  method Open(configs: seq<BinConfig>, alignment: nat, ownerTag: nat, threads: nat)
    returns (o: Outcome, pool: T.TlsMemoryPool?, ghost smallest: nat, ghost largest: nat)
    requires forall i :: 0 <= i < |configs| ==> configs[i].blockSize < UINT32_RANGE
    ensures pool != null <==> o.Built?
    ensures BadInput(configs, alignment) ==> o.Refused?
    ensures !BadInput(configs, alignment) ==>
              IsSmallest(configs, smallest) && IsLargest(configs, largest) && BuiltFrom(o, smallest, largest, alignment)
    ensures pool != null ==>
              && pool.Valid() && pool.Laid() && fresh(pool) && |pool.slots| == threads && pool.alignment == alignment
              && pool.pool.specs == o.table.specs && pool.minBinLog == o.table.minBinLog
              && (forall b :: 0 <= b < |pool.pool.specs| ==> P.Initial(pool.Abs(b)))
              && forall size :: 0 < size <= largest && o.table.binCount > 0 ==> BinOf(pool.minBinLog, size) < |pool.pool.specs|
  {
    hide BuiltFrom, BadInput, IsSmallest, IsLargest, T.TlsMemoryPool.Valid, T.TlsMemoryPool.Laid, P.Initial, BinOf;
    o, smallest, largest := BuildTable(configs, alignment);
    if !o.Built? {
      return o, null, smallest, largest;
    }
    TableIsSound(configs, o, smallest, largest, alignment);
    var mem := new Memory();
    var store := new G.GlobalBlockPool(mem, o.table.specs, o.table.headerSize, ownerTag);
    pool := new T.TlsMemoryPool(store, o.table.minBinLog, alignment, threads);
  }

  // What the tiers above take for granted of a table, and the sizes it serves.
  lemma TableIsSound(configs: seq<BinConfig>, o: Outcome, smallest: nat, largest: nat, alignment: nat)
    requires forall i :: 0 <= i < |configs| ==> configs[i].blockSize < UINT32_RANGE
    requires !BadInput(configs, alignment) && o.Built? && BuiltFrom(o, smallest, largest, alignment)
    requires IsSmallest(configs, smallest) && IsLargest(configs, largest)
    ensures L.Admissible(alignment) && alignment > 0 && o.table.minBinLog > 0 && |o.table.specs| <= MAX_BIN_COUNT
    ensures BLOCK_HEADER_SIZE <= o.table.headerSize <= 4096 && o.table.headerSize % alignment == 0
    ensures forall b :: 0 <= b < |o.table.specs| ==>
              && SpecSound(o.table.specs[b], o.table.headerSize, alignment)
              && o.table.specs[b].blockSize == BlockSizeOf(o.table.minBinLog, b) && o.table.specs[b].stride > 0
              && P.Sensible(Pic.SpecOf(o.table.specs[b]))
    ensures forall size :: 0 < size <= largest && o.table.binCount > 0 ==> BinOf(o.table.minBinLog, size) < |o.table.specs|
  {
    hide SpecSound, P.Sensible, BlockSizeOf, BinOf, MakeBinSpec, HeaderSizeFor, Pow2;
    RangeIsOrdered(configs, smallest, largest);
    HeaderFits(alignment);
    SmallLogs(Raised(smallest));
    forall b | 0 <= b < |o.table.specs|
      ensures && SpecSound(o.table.specs[b], o.table.headerSize, alignment)
              && o.table.specs[b].blockSize == BlockSizeOf(o.table.minBinLog, b) && o.table.specs[b].stride > 0
              && P.Sensible(Pic.SpecOf(o.table.specs[b]))
    {
      BuiltIsSound(o, smallest, largest, alignment, b);
    }
    forall size | 0 < size <= largest && o.table.binCount > 0 ensures BinOf(o.table.minBinLog, size) < |o.table.specs| {
      ServesUpToLargest(o, smallest, largest, alignment, size);
    }
  }

  lemma RangeIsOrdered(configs: seq<BinConfig>, smallest: nat, largest: nat)
    requires forall i :: 0 <= i < |configs| ==> 0 < configs[i].blockSize < UINT32_RANGE
    requires IsSmallest(configs, smallest) && IsLargest(configs, largest)
    ensures 0 < smallest <= largest < UINT32_RANGE
  {
  }

  lemma HeaderFits(alignment: nat)
    requires L.Admissible(alignment)
    ensures 0 < alignment <= Pow2(SIZE_T_BITS)
    ensures BLOCK_HEADER_SIZE <= HeaderSizeFor(alignment) <= 4096 && HeaderSizeFor(alignment) % alignment == 0
  {
    PowerOfTwoIff(alignment);
    var a: nat :| alignment == Pow2(a);
    assert Pow2(4) == 16;
    Pow2At12And31And64();
    if a < 4 { Pow2Grows(a, 4); }
    if a > 12 { Pow2Grows(12, a); }
    AlignUpRounds(BLOCK_HEADER_SIZE, a);
    Pow2Divides(4, a);
    OnlyMultiple(HeaderSizeFor(alignment), alignment);
  }
}
