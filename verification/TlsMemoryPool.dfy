/**
 The pool itself: a cache for every thread over one global store, and marks in the headers of live and
 free blocks.  Each method takes the pool from one state of the bin protocol to the next, so what is
 proved of that protocol holds of the memory these methods build.
 */
module TlsMemoryPool {
  import opened Tally
  import opened BlockMemory
  import Bits
  import opened SizeBin
  import opened PoolPicture
  import P = BlockPoolProtocol
  import Inv = BlockPoolInvariants
  import G = GlobalBlockPool
  import L = MemoryLayout
  import T = ThreadBlockCache

  lemma PoolFields(pool: G.GlobalBlockPool)
    requires pool.Valid()
    ensures |pool.bins| == |pool.chunks| == |pool.specs|
    ensures G.AllOk(pool.mem.headers, pool.mem.nodes, pool.headerSize, pool.bins, pool.chunks)
    ensures forall b :: 0 <= b < |pool.specs| ==> pool.specs[b].batchBlocks > 0
  {
  }

  lemma CacheFields(cache: T.ThreadBlockCache)
    requires cache.Valid()
    ensures |cache.lists| == |cache.chains| == |cache.acquireCount| == |cache.releaseCount| == |cache.pool.specs|
    ensures cache.pool.Valid() && T.ListsOk(cache.pool.mem.headers, cache.lists, cache.chains)
  {
  }

  // Taking links and marks over again keeps the blocks.
  lemma LinksKeepBlocks(h: Headers, header: Addr, magic: nat, next: Addr, h': Headers, blocks: set<Addr>)
    requires header in h && T.OnlyLinks(h[header := h[header].(magic := magic, next := next)], h', blocks)
    ensures L.SameBlocks(h, h')
  {
  }

  lemma MarkKeepsBlocks(h: Headers, header: Addr, magic: nat, next: Addr)
    requires header in h
    ensures L.SameBlocks(h, h[header := h[header].(magic := magic, next := next)])
  {
  }

  lemma LinksAreBlocks(h: Headers, h': Headers, blocks: set<Addr>)
    requires T.OnlyLinks(h, h', blocks)
    ensures L.SameBlocks(h, h')
  {
  }

  // An acquire's effect on the layout: the blocks of a new segment if it carved one, then one mark.
  ghost predicate Grew(l: L.Layout, l': L.Layout, bin: nat, base: Addr, carved: bool)
    requires bin < |l.mapped| && bin < |l.specs|
  {
    if carved then L.Gained(l, l', bin, base, G.SegmentBlockCount(l.specs[bin], l.specs[bin].batchBlocks))
    else l' == l.(headers := l'.headers) && L.SameBlocks(l.headers, l'.headers)
  }

  lemma MarkAfterGrowth(l: L.Layout, h1: Headers, mapped: seq<seq<L.Segment>>, bin: nat, base: Addr, carved: bool, tag: nat,
                        header: Addr, magic: nat, next: Addr)
    requires bin < |l.mapped| && bin < |l.specs| && header in h1
    requires if carved then
               && G.AddsFree(l.headers, h1, G.NewBlocks(l.specs[bin], l.specs[bin].batchBlocks, base), bin, tag)
               && mapped == G.WithSegment(l.mapped, bin, l.specs[bin], l.specs[bin].batchBlocks, base)
             else h1 == l.headers && mapped == l.mapped
    ensures Grew(l, l.(headers := h1[header := h1[header].(magic := magic, next := next)], mapped := mapped), bin, base, carved)
  {
  }

  // It keeps the chart, if the segment is memory nobody had.
  lemma GrowthIsCharted(l: L.Layout, l': L.Layout, bin: nat, base: Addr, carved: bool)
    requires L.Charted(l) && bin < |l.mapped| && bin < |l.specs| && Grew(l, l', bin, base, carved)
    requires carved ==> base != NULL && L.Maps(l, base, G.SegmentBytes(l.specs[bin], l.specs[bin].batchBlocks))
    ensures L.Charted(l')
  {
    hide L.Charted, L.Gained, L.SameBlocks, L.Unclaimed;
    if carved {
      L.GrowthKeepsChart(l, l', bin, base, G.SegmentBlockCount(l.specs[bin], l.specs[bin].batchBlocks));
    } else {
      L.MarksKeepChart(l, l'.headers);
    }
  }

  // Memory nobody has holds no block that is known.
  lemma FreshIsUnmapped(l: L.Layout, bin: nat, minBlocks: nat, base: Addr)
    requires L.Charted(l) && bin < |l.specs| && L.Maps(l, base, G.SegmentBytes(l.specs[bin], minBlocks)) && l.specs[bin].stride > 0
    ensures G.Unmapped(l.headers, l.specs[bin], minBlocks, base)
  {
    hide L.Charted, L.Unclaimed;
    if base != NULL {
      var blocks := G.SegmentBlockCount(l.specs[bin], minBlocks);
      forall j | 0 <= j < blocks ensures BlockAt(base, l.specs[bin].stride, j) !in l.headers {
        L.FreshBlock(l, base, l.specs[bin].stride, blocks, j);
      }
    }
  }

  lemma StockedIs(p: Picture, p1: Picture, specs: seq<BinSpec>, bin: nat, grown: seq<seq<Addr>>)
    requires Sized(p, |specs|) && Sized(p1, |specs|) && bin < |specs|
    requires p1 == p.(h := p1.h, nodes := p1.nodes, bins := p1.bins, chunks := p.chunks[bin := grown + p.chunks[bin]])
    requires G.Kept(p.h, p1.h) && G.AllOk(p1.h, p1.nodes, p1.headerSize, p1.bins, p1.chunks)
    requires MagicOf(p1.h, bin) == P.Marked(P.Flat(grown), MagicOf(p.h, bin))
    requires forall b :: b != bin ==> MagicOf(p1.h, b) == MagicOf(p.h, b)
    ensures Stocked(p, p1, bin, |specs|, grown)
  {
  }

  // A new segment and its blocks keep the chart.
  lemma SegmentIsCharted(l: L.Layout, l': L.Layout, bin: nat, minBlocks: nat, base: Addr, tag: nat)
    requires L.Charted(l) && bin < |l.specs| && bin < |l.mapped| && base != NULL
    requires L.Maps(l, base, G.SegmentBytes(l.specs[bin], minBlocks))
    requires l' == l.(headers := l'.headers, mapped := G.WithSegment(l.mapped, bin, l.specs[bin], minBlocks, base))
    requires G.AddsFree(l.headers, l'.headers, G.NewBlocks(l.specs[bin], minBlocks, base), bin, tag)
    ensures L.Charted(l')
  {
    hide L.Charted, L.Unclaimed;
    L.GrowthKeepsChart(l, l', bin, base, G.SegmentBlockCount(l.specs[bin], minBlocks));
  }

  // What a release by thread t is to the block's bin: it goes into the thread's cache, which is made first if
  // there is none, and past it only where none can be had.
  ghost predicate Releases(c: P.Spec, s: P.State, s': P.State, t: nat, b: Addr, granted: bool)
  {
    && c.batch > 0 && b in s.magic
    && if P.HasCache(s, t) then s' == P.ReleaseNext(c, s, t, b)
       else if granted then P.Enabled(c, s, P.Attach(t)) && s' == P.ReleaseNext(c, P.Next(c, s, P.Attach(t)), t, b)
       else s' == P.ReleaseUncachedNext(s, b)
  }

  // What a call of thread t is to every other bin: its cache joins them, if it is made now.
  ghost predicate Attaches(c: P.Spec, s: P.State, s': P.State, t: nat, granted: bool)
  {
    if P.HasCache(s, t) || !granted then s' == s
    else c.batch > 0 && P.Enabled(c, s, P.Attach(t)) && s' == P.Next(c, s, P.Attach(t))
  }

  // What a call of thread t on a block of one bin is to all of them.
  ghost predicate AllReleased(specs: seq<BinSpec>, before: seq<P.State>, after: seq<P.State>, bin: nat, t: nat, b: Addr, granted: bool)
  {
    |before| == |after| == |specs| &&
    forall i :: 0 <= i < |specs| ==>
      if i == bin then Releases(SpecOf(specs[i]), before[i], after[i], t, b, granted)
      else Attaches(SpecOf(specs[i]), before[i], after[i], t, granted)
  }

  ghost predicate AllAcquired(specs: seq<BinSpec>, before: seq<P.State>, after: seq<P.State>, bin: nat, t: nat, grown: seq<seq<Addr>>,
                              granted: bool, header: int)
  {
    |before| == |after| == |specs| &&
    forall i :: 0 <= i < |specs| ==>
      if i == bin then Acquires(SpecOf(specs[i]), before[i], after[i], t, grown, granted, header)
      else Attaches(SpecOf(specs[i]), before[i], after[i], t, granted)
  }

  // What an acquire by thread t is to its bin.
  ghost predicate Acquires(c: P.Spec, s: P.State, s': P.State, t: nat, grown: seq<seq<Addr>>, granted: bool, header: int)
  {
    if P.HasCache(s, t) then Takes(c, s, s', t, grown, header)
    else if granted then c.batch > 0 && P.Enabled(c, s, P.Attach(t)) && Takes(c, P.Next(c, s, P.Attach(t)), s', t, grown, header)
    else s' == s && header == NULL
  }

  ghost predicate Takes(c: P.Spec, s: P.State, s': P.State, t: nat, grown: seq<seq<Addr>>, header: int)
  {
    && P.Enabled(c, s, P.Acquire(t, grown)) && s' == P.AcquireNext(s, t, grown)
    && var handed := P.AcquireResult(s, t, grown);
       header == (if handed == [] then NULL else handed[0])
  }

  // Exactly this block is no longer out, which it was before.
  ghost predicate GaveBack(live: seq<set<Addr>>, live': seq<set<Addr>>, bypass: set<Addr>, bypass': set<Addr>, bin: nat, header: Addr)
  {
    if bin == BIN_BYPASS then live' == live && header in bypass && bypass' == bypass - {header}
    else bin < |live| && header in live[bin] && live' == live[bin := live[bin] - {header}] && bypass' == bypass
  }

  lemma AttachedIsEmpty(c: P.Spec, s: P.State, t: nat)
    requires c.batch > 0 && P.Enabled(c, s, P.Attach(t))
    ensures P.HasCache(P.Next(c, s, P.Attach(t)), t) && P.Next(c, s, P.Attach(t)).caches[t].cache.blocks == []
  {
  }

  lemma AlignmentFits(alignment: nat)
    requires L.Admissible(alignment)
    ensures 0 < alignment <= Bits.Pow2(SIZE_T_BITS)
  {
    L.AlignsUp(0, alignment);
  }

  // No known block has its header among bytes nobody has.
  lemma NothingThere(l: L.Layout, range: L.Segment, header: Addr, bytes: nat)
    requires L.Charted(l) && L.Unclaimed(l, range) && bytes >= BLOCK_HEADER_SIZE && L.Within(L.Segment(header, bytes), range)
    ensures header !in l.headers && header !in l.heap
  {
    hide L.Charted, L.Unclaimed;
    if header in l.headers || header in l.heap { L.KnownIsClaimed(l, range, header); }
  }

  lemma NothingLaidYet(l: L.Layout)
    requires L.Admissible(l.alignment) && l.headers == map[] && l.heap == map[] && l.mapped == seq(|l.specs|, _ => [])
    requires l.headerSize >= BLOCK_HEADER_SIZE && l.alignment > 0 && l.headerSize % l.alignment == 0
    requires forall b :: 0 <= b < |l.specs| ==> SpecSound(l.specs[b], l.headerSize, l.alignment)
    ensures L.Charted(l)
  {
    hide SpecSound, L.Admissible;
  }

  const BIN_BYPASS := 0xFF
  const POOL_ID_NONE := 0xFF

  class TlsMemoryPool {
    const pool: G.GlobalBlockPool
    const minBinLog: nat
    const alignment: nat
    // One cache for every thread that has used the pool.
    var slots: seq<T.ThreadBlockCache?>
    var retiredAcquire: seq<nat>
    var retiredRelease: seq<nat>
    var bypassAcquire: nat
    var bypassRelease: nat
    // The blocks out with callers, bin by bin, and those straight from the heap.
    ghost var live: seq<set<Addr>>
    ghost var bypass: set<Addr>
    // What the heap gave for those.
    ghost var heap: map<Addr, L.HeapBlock>

    ghost function Caches(): set<T.ThreadBlockCache?>
      reads this
    {
      set c | c in slots && c != null
    }

    ghost function ViewAt(t: nat): View
      reads this, Caches()
      requires t < |slots|
    {
      if slots[t] == null then NoCache
      else
        assert slots[t] in Caches();
        View(slots[t].lists, slots[t].chains, slots[t].acquireCount, slots[t].releaseCount)
    }

    ghost function Views(): (v: seq<View>)
      reads this, Caches()
      ensures |v| == |slots| && forall t :: 0 <= t < |slots| ==> v[t] == ViewAt(t)
    {
      seq(|slots|, t requires 0 <= t < |slots| reads this, Caches() => ViewAt(t))
    }

    ghost function Shot(): Picture
      reads this, pool, pool.mem, Caches()
    {
      Picture(pool.mem.headers, pool.mem.nodes, pool.headerSize, pool.bins, pool.chunks, Views(), live,
              retiredAcquire, retiredRelease)
    }

    // What the table gives the pool for its headers.
    ghost predicate Aligned()
    {
      L.Admissible(alignment) && BLOCK_HEADER_SIZE <= pool.headerSize <= 4096 && pool.headerSize % alignment == 0
    }

    ghost predicate Wired()
      reads this, pool, pool.mem, Caches()
    {
      && pool.Valid() && minBinLog > 0 && |pool.specs| <= MAX_BIN_COUNT
      && (forall b :: 0 <= b < |pool.specs| ==> pool.specs[b].stride > 0 && pool.specs[b].blockSize == BlockSizeOf(minBinLog, b))
      && bypassAcquire == bypassRelease + |bypass| && Aligned()
      && (forall t :: 0 <= t < |slots| && slots[t] != null ==> slots[t] in Caches() && slots[t].pool == pool)
      && (forall t, u :: 0 <= t < u < |slots| && slots[t] != null ==> slots[t] != slots[u])
    }

    ghost predicate Valid()
      reads this, pool, pool.mem, Caches()
    {
      Wired() && Sound(Shot(), pool.specs)
    }

    ghost function Layout(): L.Layout
      reads this`heap, pool, pool.mem
    {
      L.Layout(pool.mem.headers, pool.mapped, heap, pool.specs, pool.headerSize, alignment)
    }

    // Every block lies in a segment of its bin or in what the heap gave for it, and no two of them meet.
    ghost predicate Laid()
      reads this`heap, this`bypass, pool, pool.mem
    {
      heap.Keys == bypass && L.Charted(Layout())
    }

    // The state of the bin protocol this memory is in.
    ghost function Abs(bin: nat): P.State
      reads this, pool, pool.mem, Caches()
      requires Valid() && bin < |pool.specs|
    {
      AbsOf(Shot(), bin)
    }

    ghost function States(): (s: seq<P.State>)
      reads this, pool, pool.mem, Caches()
      requires Valid()
      ensures |s| == |pool.specs| && forall b :: 0 <= b < |pool.specs| ==> s[b] == Abs(b)
    {
      seq(|pool.specs|, b requires 0 <= b < |pool.specs| && Valid() reads this, pool, pool.mem, Caches() => Abs(b))
    }

    constructor (pool: G.GlobalBlockPool, minBinLog: nat, alignment: nat, threads: nat)
      requires pool.Valid() && minBinLog > 0 && pool.mem.headers == map[] && |pool.specs| <= MAX_BIN_COUNT
      requires forall b :: 0 <= b < |pool.specs| ==>
                 && pool.specs[b].stride > 0 && pool.specs[b].blockSize == BlockSizeOf(minBinLog, b)
                 && P.Sensible(SpecOf(pool.specs[b])) && pool.chunks[b] == []
      requires pool.mapped == seq(|pool.specs|, _ => []) && L.Admissible(alignment) && alignment > 0
      requires BLOCK_HEADER_SIZE <= pool.headerSize <= 4096 && pool.headerSize % alignment == 0
      requires forall b :: 0 <= b < |pool.specs| ==> SpecSound(pool.specs[b], pool.headerSize, alignment)
      ensures Valid() && Laid() && this.pool == pool && this.minBinLog == minBinLog && this.alignment == alignment
      ensures |slots| == threads
      ensures forall b :: 0 <= b < |pool.specs| ==> P.Initial(Abs(b))
    {
      hide L.Charted, SpecSound, L.Admissible;
      this.pool, this.minBinLog, this.alignment := pool, minBinLog, alignment;
      slots := seq(threads, _ => null);
      retiredAcquire, retiredRelease := seq(|pool.specs|, _ => 0), seq(|pool.specs|, _ => 0);
      live, bypass, heap := seq(|pool.specs|, _ => {}), {}, map[];
      bypassAcquire, bypassRelease := 0, 0;
      new;
      NothingLaidYet(Layout());
      forall b | 0 <= b < |pool.specs| ensures P.Initial(AbsOf(Shot(), b)) && Inv.Sound(SpecOf(pool.specs[b]), AbsOf(Shot(), b)) {
        Inv.InitialIsSound(SpecOf(pool.specs[b]), AbsOf(Shot(), b));
      }
    }

    lemma CacheIsValid(t: nat)
      requires Valid() && t < |slots| && slots[t] != null
      ensures slots[t].Valid() && slots[t].pool == pool && Views()[t].View? && |slots[t].lists| == |pool.specs|
      ensures forall b :: 0 <= b < |pool.specs| ==> P.HasCache(Abs(b), t)
    {
      assert ViewOk(Shot().h, Views()[t], |pool.specs|);
    }

    // Before the pool is used: a segment with as many blocks of the bin as configured.
    method Preallocate(bin: nat, blocks: nat, segment: Addr, listed: bool) returns (ok: bool)
      requires Valid() && Laid()
      requires bin < |pool.specs| ==> L.Maps(Layout(), segment, G.SegmentBytes(pool.specs[bin], blocks))
      modifies pool, pool.mem
      ensures Valid() && Laid()
      ensures ok <==> bin < |pool.specs| && blocks > 0 && segment != NULL && listed
      ensures ok ==>
                && pool.specs[bin].batchBlocks > 0
                && P.Enabled(SpecOf(pool.specs[bin]), old(Abs(bin)), P.Preallocate(G.NewChunks(pool.specs[bin], blocks, segment)))
                && Abs(bin) == P.Next(SpecOf(pool.specs[bin]), old(Abs(bin)),
                                      P.Preallocate(G.NewChunks(pool.specs[bin], blocks, segment)))
      ensures forall b :: 0 <= b < |pool.specs| && (b != bin || !ok) ==> Abs(b) == old(Abs(b))
    {
      hide Aligned, G.AllOk, Inv.Sound, G.NewChunks, G.NewBlocks, G.Unmapped, G.AddsFree, T.ListsOk, MagicOf,
           P.Marked, Sound, L.Charted, L.Maps, P.FreshChunks, G.Kept, P.Flat, BlockSizeOf, Stocked, Grew;
      ghost var p, l := Shot(), Layout();
      SizedOf(p, pool.specs);
      PoolFields(pool);
      LayoutIsSized();
      if bin < |pool.specs| { FreshIsUnmapped(l, bin, blocks, segment); }
      ok := pool.Preallocate(bin, blocks, segment, listed);
      PoolFields(pool);
      ghost var p1 := Shot();
      assert p1.views == p.views;
      if !ok {
        NothingFound(p, p1, pool.specs);
        assert Layout() == l;
        return;
      }
      ghost var grown := G.NewChunks(pool.specs[bin], blocks, segment);
      NewChunksAreFresh(p.h, pool.specs[bin], blocks, segment, bin, AbsOf(p, bin));
      MagicAfterCarve(p.h, p1.h, pool.specs[bin], blocks, segment, bin, pool.ownerTag, AbsOf(p, bin), true, grown);
      StockedIs(p, p1, pool.specs, bin, grown);
      PreallocateStep(p, p1, pool.specs, bin, grown);
      SegmentIsCharted(l, Layout(), bin, blocks, segment, pool.ownerTag);
    }

    // Whether an acquire carves a new segment.
    ghost predicate Carves(t: nat, bin: nat, segment: Addr, listed: bool)
      reads this, pool, pool.mem, Caches()
      requires Valid() && t < |slots| && slots[t] != null && bin < |pool.specs|
    {
      CacheIsValid(t);
      slots[t].chains[bin] == [] && pool.chunks[bin] == [] && pool.Grows(bin, segment, listed)
    }

    // What a refill that has to grow would carve.
    ghost function Grown(t: nat, bin: nat, segment: Addr, listed: bool): seq<seq<Addr>>
      reads this, pool, pool.mem, Caches()
      requires Valid() && t < |slots| && slots[t] != null && bin < |pool.specs|
    {
      if Carves(t, bin, segment, listed) then
        G.NewChunks(pool.specs[bin], pool.specs[bin].batchBlocks, segment)
      else []
    }

    lemma GrownIsFresh(t: nat, bin: nat, segment: Addr, listed: bool)
      requires Valid() && t < |slots| && slots[t] != null && bin < |pool.specs|
      requires G.Unmapped(pool.mem.headers, pool.specs[bin], pool.specs[bin].batchBlocks, segment)
      ensures P.Enabled(SpecOf(pool.specs[bin]), Abs(bin), P.Acquire(t, Grown(t, bin, segment, listed)))
      ensures forall b, i :: 0 <= b < |pool.chunks| && 0 <= i < |pool.chunks[b]| ==> Distinct(pool.chunks[b][i])
    {
      hide Inv.Sound, Inv.AllPlaced, G.AllOk, T.ListsOk;
      CacheIsValid(t);
      if Grown(t, bin, segment, listed) != [] {
        NewChunksAreFresh(pool.mem.headers, pool.specs[bin], pool.specs[bin].batchBlocks, segment, bin, Abs(bin));
      }
      forall b, i | 0 <= b < |pool.chunks| && 0 <= i < |pool.chunks[b]| ensures Distinct(pool.chunks[b][i]) {
        SoundParts(SpecOf(pool.specs[b]), Abs(b));
        ChunksAreDistinct(Abs(b), i);
      }
    }

    // The blocks a pop has at hand: the thread's own, else the top chunk of the stock.
    lemma ReadyBlocks(t: nat, bin: nat, segment: Addr, listed: bool)
      requires Valid() && t < |slots| && slots[t] != null && bin < |pool.specs|
      requires G.Unmapped(pool.mem.headers, pool.specs[bin], pool.specs[bin].batchBlocks, segment)
      ensures P.HasCache(Abs(bin), t) && pool.Valid()
      ensures var own, stock, grown := slots[t].chains[bin], pool.Stock(bin, segment, listed), Grown(t, bin, segment, listed);
              && ReadyOf(Abs(bin), t, grown) == (if own != [] then own else if stock != [] then stock[0] else [])
              && (own == [] ==> StockOf(Abs(bin), grown) == stock)
              && grown == (if own == [] && pool.chunks[bin] == [] && pool.Grows(bin, segment, listed)
                           then G.NewChunks(pool.specs[bin], pool.specs[bin].batchBlocks, segment) else [])
    {
      hide G.AllOk, Inv.Sound, G.NewChunks, G.NewBlocks, G.Unmapped, G.AddsFree, T.ListsOk, MagicOf, P.Marked, Sound,
           G.GlobalBlockPool.Valid, T.ThreadBlockCache.Valid, BlockSizeOf, P.FreshChunks;
      CacheIsValid(t);
      GrownIsFresh(t, bin, segment, listed);
    }

    // The pop inside an acquire, as it changes the picture.
    method PopFrom(t: nat, bin: nat, segment: Addr, listed: bool) returns (header: Addr)
      requires Valid() && t < |slots| && slots[t] != null && bin < |pool.specs|
      requires G.Unmapped(pool.mem.headers, pool.specs[bin], pool.specs[bin].batchBlocks, segment)
      modifies slots[t], pool, pool.mem
      ensures Wired() && P.HasCache(old(Abs(bin)), t) && Sized(Shot(), |pool.specs|)
      ensures var ready := ReadyOf(old(Abs(bin)), t, old(Grown(t, bin, segment, listed))); header == First(ready) && (header == NULL <==> ready == [])
      ensures if old(Carves(t, bin, segment, listed)) then
                && G.AddsFree(old(pool.mem.headers), pool.mem.headers,
                              G.NewBlocks(pool.specs[bin], pool.specs[bin].batchBlocks, segment), bin, pool.ownerTag)
                && pool.mapped == G.WithSegment(old(pool.mapped), bin, pool.specs[bin], pool.specs[bin].batchBlocks, segment)
              else pool.mem.headers == old(pool.mem.headers) && pool.mapped == old(pool.mapped)
      ensures header == NULL ==> Valid() && forall b :: 0 <= b < |pool.specs| ==> Abs(b) == old(Abs(b))
      ensures header != NULL ==> header in pool.mem.headers && pool.mem.headers[header].binIndex == bin
                                 && Popped(old(Shot()), Shot(), t, bin, |pool.specs|, old(Grown(t, bin, segment, listed)))
    {
      hide Aligned, G.AllOk, Inv.Sound, G.NewChunks, G.NewBlocks, G.Unmapped, G.AddsFree, T.ListsOk, MagicOf,
           P.Marked, Sound, G.GlobalBlockPool.Valid, T.ThreadBlockCache.Valid, BlockSizeOf, P.FreshChunks, Grown,
           StockOf, ReadyOf, G.Kept, P.Flat, P.Enabled, Distinct;
      ghost var p, grown, spec := Shot(), Grown(t, bin, segment, listed), pool.specs[bin];
      ghost var s := Abs(bin);
      PoolFields(pool);
      CacheIsValid(t);
      ghost var carved := Carves(t, bin, segment, listed);
      GrownIsFresh(t, bin, segment, listed);
      NothingTaken(s, t, grown, spec, segment);
      SizedOf(p, pool.specs);
      TopIsNotEmpty(p, pool.specs, bin);
      ReadyBlocks(t, bin, segment, listed);
      header := slots[t].Pop(bin, segment, listed);
      CacheFields(slots[t]);
      PoolFields(pool);
      ghost var p1 := Shot();
      assert p1.views == p.views[t := p1.views[t]];
      MagicAfterCarve(p.h, p1.h, spec, spec.batchBlocks, segment, bin, pool.ownerTag, s, carved, grown);
      if header == NULL {
        assert p.chunks[bin] == [];
        assert p.chunks[bin := []] == p.chunks;
        assert p1.views == p.views;
        NothingFound(p, p1, pool.specs);
      }
    }

    lemma LayoutIsSized()
      requires Valid()
      ensures |pool.mapped| == |pool.specs|
    {
      hide Sound;
    }

    lemma LayoutGrows(l: L.Layout, bin: nat, segment: Addr, carved: bool)
      requires bin < |pool.specs| == |l.mapped| && l == Layout().(headers := l.headers, mapped := l.mapped)
      requires if carved then
                 && G.AddsFree(l.headers, pool.mem.headers, G.NewBlocks(pool.specs[bin], pool.specs[bin].batchBlocks, segment), bin,
                               pool.ownerTag)
                 && pool.mapped == G.WithSegment(l.mapped, bin, pool.specs[bin], pool.specs[bin].batchBlocks, segment)
               else pool.mem.headers == l.headers && pool.mapped == l.mapped
      ensures Grew(l, Layout(), bin, segment, carved)
    {
    }

    // Acquire with this thread's cache at hand: the header of a block, or NULL.
    method AcquireFrom(t: nat, bin: nat, segment: Addr, listed: bool) returns (header: Addr)
      requires Valid() && t < |slots| && slots[t] != null && bin < |pool.specs|
      requires G.Unmapped(pool.mem.headers, pool.specs[bin], pool.specs[bin].batchBlocks, segment)
      modifies this`live, slots[t], pool, pool.mem
      ensures Valid()
      ensures bin < |old(pool.mapped)| && Grew(old(Layout()), Layout(), bin, segment, old(Carves(t, bin, segment, listed)))
      ensures P.HasCache(old(Abs(bin)), t)
      ensures Abs(bin) == P.AcquireNext(old(Abs(bin)), t, old(Grown(t, bin, segment, listed)))
      ensures forall b :: 0 <= b < |pool.specs| && b != bin ==> Abs(b) == old(Abs(b))
      ensures var handed := P.AcquireResult(old(Abs(bin)), t, old(Grown(t, bin, segment, listed)));
              header == (if handed == [] then NULL else handed[0]) && (header == NULL <==> handed == [])
      ensures header != NULL ==> header in pool.mem.headers && pool.mem.headers[header].binIndex == bin
    {
      hide P.Flat, Distinct, Aligned, Grew, L.SameBlocks, G.AddsFree, G.NewBlocks, G.AllOk, Inv.Sound, G.NewChunks, G.Unmapped,
           T.ListsOk, P.FreshChunks, MagicOf, P.AcquireNext, P.AcquireResult, Popped, ReadyOf, BlockSizeOf, AbsOf,
           ViewOk;
      ghost var p, grown := Shot(), Grown(t, bin, segment, listed);
      ghost var s, c := Abs(bin), SpecOf(pool.specs[bin]);
      CacheIsValid(t);
      GrownIsFresh(t, bin, segment, listed);
      SoundParts(c, s);
      AcquireIsFields(c, s, t, grown);
      ghost var l, carved := Layout(), Carves(t, bin, segment, listed);
      LayoutIsSized();
      header := PopFrom(t, bin, segment, listed);
      LayoutGrows(l, bin, segment, carved);
      if header == NULL {
        return;
      }
      MarkAfterGrowth(l, pool.mem.headers, pool.mapped, bin, segment, carved, pool.ownerTag, header, P.MAGIC_LIVE, NULL);
      ghost var p1 := Shot();
      AcquireStep(p, p1, pool.specs, t, bin, grown);
      pool.mem.headers := pool.mem.headers[header := pool.mem.headers[header].(magic := P.MAGIC_LIVE, next := NULL)];
      live := live[bin := live[bin] + {header}];
      assert Shot() == Acquired(p1, bin, header);
      assert Layout() == l.(headers := pool.mem.headers, mapped := pool.mapped);
    }

    // This thread's cache, made on its first use; granted: whether HeapAlloc succeeds.
    method GetOrCreate(t: nat, granted: bool) returns (cache: T.ThreadBlockCache?)
      requires Valid() && t < |slots|
      modifies this`slots
      ensures Valid() && |slots| == |old(slots)| && cache == slots[t] && (cache == null <==> old(slots)[t] == null && !granted)
      ensures old(slots)[t] != null || !granted ==> slots == old(slots)
      ensures old(slots)[t] == null && granted ==> fresh(slots[t]) && slots == old(slots)[t := slots[t]]
      ensures forall b :: 0 <= b < |pool.specs| ==>
                if old(slots)[t] == null && granted then
                  && P.Enabled(SpecOf(pool.specs[b]), old(Abs(b)), P.Attach(t))
                  && Abs(b) == P.Next(SpecOf(pool.specs[b]), old(Abs(b)), P.Attach(t))
                else Abs(b) == old(Abs(b))
    {
      hide Aligned, G.AllOk, Inv.Sound, T.ListsOk, MagicOf;
      if slots[t] != null || !granted {
        return slots[t];
      }
      ghost var p := Shot();
      cache := new T.ThreadBlockCache(pool);
      slots := slots[t := cache];
      assert forall u :: 0 <= u < |slots| && u != t ==> slots[u] == old(slots)[u] && slots[u] != cache;
      AttachStep(p, pool.specs, t, ViewAt(t));
      assert Shot().views == p.views[t := ViewAt(t)];
    }

    // Release with this thread's cache at hand.
    method ReleaseInto(t: nat, bin: nat, header: Addr)
      requires Valid() && t < |slots| && slots[t] != null && bin < |pool.specs| && header in live[bin] && header != NULL
      modifies this`live, slots[t], pool`bins, pool`chunks, pool.mem
      ensures Valid()
      ensures P.HasCache(old(Abs(bin)), t) && header in old(Abs(bin)).magic
      ensures Abs(bin) == P.ReleaseNext(SpecOf(pool.specs[bin]), old(Abs(bin)), t, header)
      ensures forall b :: 0 <= b < |pool.specs| && b != bin ==> Abs(b) == old(Abs(b))
      ensures L.SameBlocks(old(pool.mem.headers), pool.mem.headers)
    {
      hide Aligned, L.SameBlocks, T.OnlyLinks, G.AllOk, Inv.Sound, T.ListsOk, MagicOf, P.ReleaseNext, Sound, Loose,
           T.Apart, BlockSizeOf;
      ghost var p := Shot();
      CacheIsValid(t);
      LiveIsMapped(p, pool.specs, bin, header);
      MarkTells(p, pool.specs, header);
      SizedOf(p, pool.specs);
      ReadyToPush(p, pool.specs, t, bin, header);
      MarkLoose(p, pool.specs, header, P.MAGIC_FREE, p.h[header].next);
      pool.mem.headers := pool.mem.headers[header := pool.mem.headers[header].(magic := P.MAGIC_FREE)];
      ghost var chain := slots[t].chains[bin];
      slots[t].Push(bin, header);
      LinksKeepBlocks(p.h, header, P.MAGIC_FREE, p.h[header].next, pool.mem.headers, Elements([header] + chain));
      live := live[bin := live[bin] - {header}];
      ghost var p1 := Shot();
      assert p1.views == p.views[t := p1.views[t]];
      ReleaseStep(p, p1, pool.specs, t, bin, header);
    }

    // Release when no cache can be had: the block becomes a chunk of its own.
    method ReleaseUncached(bin: nat, header: Addr)
      requires Valid() && bin < |pool.specs| && header in live[bin] && header != NULL
      modifies this`live, this`retiredRelease, pool`bins, pool`chunks, pool.mem
      ensures Valid()
      ensures header in old(Abs(bin)).magic && Abs(bin) == P.ReleaseUncachedNext(old(Abs(bin)), header)
      ensures forall b :: 0 <= b < |pool.specs| && b != bin ==> Abs(b) == old(Abs(b))
      ensures L.SameBlocks(old(pool.mem.headers), pool.mem.headers)
    {
      hide InStore, P.Flat, Distinct, ViewOk, Aligned, L.SameBlocks, G.AllOk, Inv.Sound, T.ListsOk, MagicOf, Sound,
           Loose, G.NewHead;
      ghost var p := Shot();
      LiveIsMapped(p, pool.specs, bin, header);
      MarkTells(p, pool.specs, header);
      SizedOf(p, pool.specs);
      LooseHere(bin, header);
      MarkLoose(p, pool.specs, header, P.MAGIC_FREE, NULL);
      LooseIsNewHead(p, header);
      pool.mem.headers := pool.mem.headers[header := pool.mem.headers[header].(magic := P.MAGIC_FREE, next := NULL)];
      MarkKeepsBlocks(p.h, header, P.MAGIC_FREE, NULL);
      AloneLinks(pool.mem.headers, header, bin);
      pool.PushChunk(bin, header, 1, [header]);
      live := live[bin := live[bin] - {header}];
      retiredRelease := retiredRelease[bin := retiredRelease[bin] + 1];
      ghost var p1 := Shot();
      assert p1.views == p.views;
      UncachedStep(p, p1, pool.specs, bin, header);
    }

    lemma LooseHere(bin: nat, header: Addr)
      requires Valid() && bin < |pool.specs| && header in live[bin]
      ensures Loose(Shot(), header)
    {
      var p := Shot();
      LiveIsMapped(p, pool.specs, bin, header);
      SoundParts(SpecOf(pool.specs[bin]), AbsOf(p, bin));
      LiveIsLoose(p, pool.specs, bin, header, AbsOf(p, bin));
    }

    method EmptyCache(t: nat)
      requires Valid() && t < |slots| && slots[t] != null
      modifies this`slots, this`retiredAcquire, this`retiredRelease, slots[t], pool`bins, pool`chunks, pool.mem
      ensures Valid() && slots == old(slots)[t := null]
      ensures forall b :: 0 <= b < |pool.specs| ==>
                P.HasCache(old(Abs(b)), t) && Abs(b) == P.DetachNext(SpecOf(pool.specs[b]), old(Abs(b)), t)
      ensures L.SameBlocks(old(pool.mem.headers), pool.mem.headers)
    {
      hide L.SameBlocks, Aligned, BlockSizeOf, G.AllOk, Inv.Sound, T.ListsOk, MagicOf, Sound, T.OnlyLinks, T.AllApart,
           T.Batches, P.DetachNext;
      ghost var p := Shot();
      CacheIsValid(t);
      SizedOf(p, pool.specs);
      ListsApart(p, pool.specs, t);
      var cache := slots[t];
      ghost var all := T.AllElements(cache.chains);
      cache.FlushAll();
      LinksAreBlocks(p.h, pool.mem.headers, all);
      retiredAcquire := seq(|retiredAcquire|, b requires 0 <= b < |retiredAcquire| == |cache.acquireCount| reads this, cache =>
                              retiredAcquire[b] + cache.acquireCount[b]);
      retiredRelease := seq(|retiredRelease|, b requires 0 <= b < |retiredRelease| == |cache.releaseCount| reads this, cache =>
                              retiredRelease[b] + cache.releaseCount[b]);
      slots := slots[t := null];
      ghost var p1 := Shot();
      assert forall u :: 0 <= u < |slots| && u != t ==> slots[u] == old(slots)[u] && slots[u] != cache;
      assert p1.views == p.views[t := NoCache];
      DetachStep(p, p1, pool.specs, t);
    }

    // The thread is leaving: its lists go to the store, its counters are kept, its cache is freed.
    method Detach(t: nat)
      requires Valid() && t < |slots| && slots[t] != null
      modifies this`slots, this`retiredAcquire, this`retiredRelease, slots[t], pool`bins, pool`chunks, pool.mem
      ensures Valid() && slots == old(slots)[t := null]
      ensures forall b :: 0 <= b < |pool.specs| ==>
                P.HasCache(old(Abs(b)), t) && Abs(b) == P.DetachNext(SpecOf(pool.specs[b]), old(Abs(b)), t)
      ensures old(Laid()) ==> Laid()
    {
      hide Valid, Abs, L.Charted, L.SameBlocks, P.DetachNext, Wired, Shot;
      ghost var l := Layout();
      EmptyCache(t);
      if old(Laid()) { MarksKeepLaid(l); }
    }

    // What the heap may give for an oversized request: bytes nobody has; NULL when it fails.  Where the
    // byte count has wrapped around, the header may lie outside them: it is taken to meet no known block.
    ghost predicate HeapGives(raw: Addr, size: nat)
      reads this`heap, this`bypass, pool, pool.mem
      requires Aligned()
    {
      raw != NULL ==>
        && raw < L.USER_RANGE && L.Unclaimed(Layout(), RawOf(raw, size))
        && (!L.SumFits(pool.headerSize, size, alignment) ==>
              HeaderFor(raw) > NULL && HeaderFor(raw) !in pool.mem.headers && HeaderFor(raw) !in bypass)
    }

    ghost function RawOf(raw: Addr, size: nat): L.Segment
    {
      L.Segment(raw, L.RawBytes(pool.headerSize, size, alignment))
    }

    // Where AcquireBypass puts the header.
    ghost function HeaderFor(raw: Addr): int
      requires Aligned()
    {
      AlignmentFits(alignment);
      AlignUpSize(raw + pool.headerSize, alignment) - pool.headerSize
    }

    // With a byte count that has not wrapped around, the header is new and lies in what the heap gave.
    lemma HeaderIsNew(raw: Addr, size: nat)
      requires Aligned() && Laid() && HeapGives(raw, size) && raw != NULL && 0 < size < L.SIZE_RANGE
      ensures HeaderFor(raw) > NULL && HeaderFor(raw) !in pool.mem.headers && HeaderFor(raw) !in bypass
      ensures (HeaderFor(raw) + pool.headerSize) % alignment == 0
      ensures L.SumFits(pool.headerSize, size, alignment) ==>
                L.Within(L.Segment(HeaderFor(raw), pool.headerSize + size), RawOf(raw, size))
    {
      hide AlignUpSize, L.Charted, L.Admissible, L.RawBytes;
      L.HeapBlockFitsIff(raw, pool.headerSize, size, alignment);
      if L.SumFits(pool.headerSize, size, alignment) {
        NothingThere(Layout(), RawOf(raw, size), HeaderFor(raw), pool.headerSize + size);
      }
    }

    // A request above the largest bin: header and payload in a heap block; raw: what HeapAlloc returns.
    method AcquireBypass(raw: Addr, size: nat) returns (payload: Addr)
      requires Valid() && Laid() && 0 < size < L.SIZE_RANGE && HeapGives(raw, size)
      modifies this`bypassAcquire, this`bypass, this`heap, pool.mem`headers
      ensures Valid() && forall b :: 0 <= b < |pool.specs| ==> Abs(b) == old(Abs(b))
      ensures L.SumFits(pool.headerSize, size, alignment) ==> Laid()
      ensures States() == old(States()) && bypassAcquire == old(bypassAcquire) + (if raw == NULL then 0 else 1)
      ensures raw == NULL ==> payload == NULL && bypass == old(bypass) && heap == old(heap)
                              && pool.mem.headers == old(pool.mem.headers)
      ensures payload == NULL ==> raw == NULL
      ensures raw != NULL ==> payload == HeaderFor(raw) + pool.headerSize && payload % alignment == 0
                              && bypass == old(bypass) + {payload - pool.headerSize}
                              && heap == old(heap)[payload - pool.headerSize := L.HeapBlock(RawOf(raw, size), size)]
                              && pool.mem.headers == old(pool.mem.headers)[payload - pool.headerSize :=
                                                       BlockHeader(P.MAGIC_LIVE, BIN_BYPASS, pool.ownerTag, raw)]
    {
      hide Valid, AlignUpSize, Abs, L.Charted, L.Unclaimed, L.Admissible, L.Within, L.SumFits, Wired, Shot, L.RawBytes;
      Parts();
      if raw == NULL {
        return NULL;
      }
      HeaderIsNew(raw, size);
      AlignmentFits(alignment);
      ghost var l := Layout();
      payload := AlignUpSize(raw + pool.headerSize, alignment);
      WriteBypassHeader(payload - pool.headerSize, raw, L.HeapBlock(RawOf(raw, size), size));
      if L.SumFits(pool.headerSize, size, alignment) {
        L.HeapBlockJoins(l, payload - pool.headerSize, BlockHeader(P.MAGIC_LIVE, BIN_BYPASS, pool.ownerTag, raw),
                         L.HeapBlock(RawOf(raw, size), size));
      }
    }

    // The header that marks the block as one of the heap's, and the count of those.
    method WriteBypassHeader(header: Addr, raw: Addr, ghost block: L.HeapBlock)
      requires Valid() && header > NULL && header !in pool.mem.headers && header !in bypass
      modifies this`bypassAcquire, this`bypass, this`heap, pool.mem`headers
      ensures Valid() && forall b :: 0 <= b < |pool.specs| ==> Abs(b) == old(Abs(b))
      ensures bypass == old(bypass) + {header} && heap == old(heap)[header := block] && bypassAcquire == old(bypassAcquire) + 1
      ensures pool.mem.headers == old(pool.mem.headers)[header := BlockHeader(P.MAGIC_LIVE, BIN_BYPASS, pool.ownerTag, raw)]
    {
      hide Aligned, G.AllOk, Inv.Sound, T.ListsOk, MagicOf, Sound, AbsOf, ViewOk, BlockSizeOf, P.Sensible, L.Admissible;
      ghost var p := Shot();
      SizedOf(p, pool.specs);
      OutsideStep(p, p.h[header := BlockHeader(P.MAGIC_LIVE, BIN_BYPASS, pool.ownerTag, raw)], pool.specs, header);
      StillOk(p, p.h[header := BlockHeader(P.MAGIC_LIVE, BIN_BYPASS, pool.ownerTag, raw)], pool.specs);
      pool.mem.headers := pool.mem.headers[header := BlockHeader(P.MAGIC_LIVE, BIN_BYPASS, pool.ownerTag, raw)];
      bypassAcquire := bypassAcquire + 1;
      bypass := bypass + {header};
      heap := heap[header := block];
      assert Shot().views == p.views && Shot() == p.(h := pool.mem.headers);
    }

    // The heap block goes back and its header with it.
    method ReleaseBypass(header: Addr)
      requires Valid() && header in bypass && header in pool.mem.headers && pool.mem.headers[header].binIndex == BIN_BYPASS
      modifies this`bypassRelease, this`bypass, this`heap, pool.mem`headers
      ensures Valid() && forall b :: 0 <= b < |pool.specs| ==> Abs(b) == old(Abs(b))
      ensures bypass == old(bypass) - {header} && pool.mem.headers == old(pool.mem.headers) - {header}
      ensures bypassRelease == old(bypassRelease) + 1 && heap == old(heap) - {header}
      ensures old(Laid()) ==> Laid()
    {
      hide Aligned, G.AllOk, Inv.Sound, T.ListsOk, MagicOf, Sound, AbsOf, ViewOk, BlockSizeOf, P.Sensible,
           L.Admissible, L.Charted;
      ghost var l := Layout();
      if Laid() { L.HeapBlockLeaves(l, header); }
      ghost var p := Shot();
      SizedOf(p, pool.specs);
      OutsideStep(p, p.h - {header}, pool.specs, header);
      StillOk(p, p.h - {header}, pool.specs);
      pool.mem.headers := pool.mem.headers - {header};
      bypassRelease := bypassRelease + 1;
      bypass := bypass - {header};
      heap := heap - {header};
      assert Layout() == l.(headers := l.headers - {header}, heap := l.heap - {header});
      assert Shot().views == p.views && Shot() == p.(h := pool.mem.headers);
    }

    // The thread has no cache and gets none, or it has no block of the bin, the store has none, and the bin
    // does not grow.
    ghost predicate Starved(t: nat, bin: nat, granted: bool, segment: Addr, listed: bool)
      reads this, pool, pool.mem, Caches()
      requires Valid() && t < |slots| && bin < |pool.specs|
    {
      if slots[t] == null then !granted || Dry(bin, segment, listed)
      else
        CacheIsValid(t);
        slots[t].chains[bin] == [] && Dry(bin, segment, listed)
    }

    ghost predicate Dry(bin: nat, segment: Addr, listed: bool)
      reads pool
      requires bin < |pool.specs| == |pool.chunks|
    {
      pool.chunks[bin] == [] && !pool.Grows(bin, segment, listed)
    }

    lemma NothingReady(t: nat, bin: nat, segment: Addr, listed: bool)
      requires Valid() && t < |slots| && slots[t] != null && bin < |pool.specs|
      requires G.Unmapped(pool.mem.headers, pool.specs[bin], pool.specs[bin].batchBlocks, segment)
      ensures P.HasCache(Abs(bin), t) && |pool.chunks| == |pool.specs|
      ensures P.AcquireResult(Abs(bin), t, Grown(t, bin, segment, listed)) == []
         <==> Abs(bin).caches[t].cache.blocks == [] && Dry(bin, segment, listed)
    {
      hide G.AllOk, Inv.Sound, G.NewChunks, G.Unmapped, T.ListsOk, MagicOf, Sound, BlockSizeOf, P.FreshChunks, P.AcquireNext;
      PoolFields(pool);
      CacheIsValid(t);
      GrownIsFresh(t, bin, segment, listed);
      ReadyBlocks(t, bin, segment, listed);
      TopIsNotEmpty(Shot(), pool.specs, bin);
      NothingTaken(Abs(bin), t, [], pool.specs[bin], segment);
      AcquireIsFields(SpecOf(pool.specs[bin]), Abs(bin), t, Grown(t, bin, segment, listed));
    }

    lemma StarvedIs(t: nat, bin: nat, segment: Addr, listed: bool)
      requires Valid() && t < |slots| && bin < |pool.specs|
      ensures |pool.chunks| == |pool.specs|
      ensures slots[t] == null ==> forall granted :: Starved(t, bin, granted, segment, listed) <==> !granted || Dry(bin, segment, listed)
      ensures slots[t] != null ==> P.HasCache(Abs(bin), t)
      ensures slots[t] != null ==> forall granted ::
                Starved(t, bin, granted, segment, listed) <==> Abs(bin).caches[t].cache.blocks == [] && Dry(bin, segment, listed)
    {
      PoolFields(pool);
      if slots[t] != null { CacheIsValid(t); }
    }

    // What an acquire carves if it has to grow, whether or not the thread has its cache yet.
    ghost function Carved(t: nat, bin: nat, segment: Addr, listed: bool): seq<seq<Addr>>
      reads this, pool, pool.mem, Caches()
      requires Valid() && t < |slots| && bin < |pool.specs|
    {
      if slots[t] != null then Grown(t, bin, segment, listed)
      else if pool.chunks[bin] == [] && pool.Grows(bin, segment, listed) then
        G.NewChunks(pool.specs[bin], pool.specs[bin].batchBlocks, segment)
      else []
    }

    lemma CarvedIs(t: nat, bin: nat, segment: Addr, listed: bool)
      requires Valid() && t < |slots| && bin < |pool.specs|
      ensures |pool.chunks| == |pool.specs| && pool.specs[bin].batchBlocks > 0 && (P.HasCache(Abs(bin), t) <==> slots[t] != null)
      ensures Carved(t, bin, segment, listed)
           == if (P.HasCache(Abs(bin), t) ==> Abs(bin).caches[t].cache.blocks == [])
                 && pool.chunks[bin] == [] && pool.Grows(bin, segment, listed)
              then G.NewChunks(pool.specs[bin], pool.specs[bin].batchBlocks, segment) else []
    {
      PoolFields(pool);
      if slots[t] != null { CacheIsValid(t); }
    }

    // A block of a bin becomes live, or nothing does.
    method AcquirePooled(t: nat, bin: nat, granted: bool, segment: Addr, listed: bool) returns (header: Addr)
      requires Valid() && Laid() && t < |slots| && bin < |pool.specs|
      requires L.Maps(Layout(), segment, NextSegmentBytes(bin))
      modifies this`slots, this`live, Caches(), pool, pool.mem
      ensures Valid() && Laid() && bin < |live| == |old(live)|
      ensures AllAcquired(pool.specs, old(States()), States(), bin, t, old(Carved(t, bin, segment, listed)), granted, header)
      ensures header == NULL <==> old(Starved(t, bin, granted, segment, listed))
      ensures header == NULL ==> live == old(live)
      ensures header != NULL ==>
                && header !in old(live)[bin] && live == old(live)[bin := old(live)[bin] + {header}]
                && header in pool.mem.headers && pool.mem.headers[header].magic == P.MAGIC_LIVE
                && pool.mem.headers[header].binIndex == bin
    {
      hide Starved, Dry, Valid, Abs, Wired, Shot, Laid, L.Maps, P.Next, P.Enabled, Takes, Carved;
      ghost var l := Layout();
      Parts();
      AbsShowsLive();
      StarvedIs(t, bin, segment, listed);
      CarvedIs(t, bin, segment, listed);
      HasCacheIff(t);
      var cache := GetOrCreate(t, granted);
      if cache == null {
        return NULL;
      }
      AbsShowsLive();
      CarvedIs(t, bin, segment, listed);
      if old(slots)[t] == null { AttachedIsEmpty(SpecOf(pool.specs[bin]), old(Abs(bin)), t); }
      header := AcquireAttached(t, bin, segment, listed);
    }

    method AcquireAttached(t: nat, bin: nat, segment: Addr, listed: bool) returns (header: Addr)
      requires Valid() && Laid() && t < |slots| && slots[t] != null && bin < |pool.specs|
      requires L.Maps(Layout(), segment, NextSegmentBytes(bin))
      modifies this`live, slots[t], pool, pool.mem
      ensures Valid() && Laid() && bin < |live| == |old(live)|
      ensures P.HasCache(old(Abs(bin)), t)
      ensures Takes(SpecOf(pool.specs[bin]), old(Abs(bin)), Abs(bin), t, old(Carved(t, bin, segment, listed)), header)
      ensures forall b :: 0 <= b < |pool.specs| && b != bin ==> Abs(b) == old(Abs(b))
      ensures header == NULL <==> old(Abs(bin)).caches[t].cache.blocks == [] && old(Dry(bin, segment, listed))
      ensures header == NULL ==> live == old(live)
      ensures header != NULL ==>
                && header !in old(live)[bin] && live == old(live)[bin := old(live)[bin] + {header}]
                && header in pool.mem.headers && pool.mem.headers[header].magic == P.MAGIC_LIVE
                && pool.mem.headers[header].binIndex == bin
    {
      hide Dry, Valid, Abs, Wired, Shot, L.Charted, L.Maps, Grew, P.AcquireNext, P.AcquireResult, P.Next, P.Enabled,
           G.Unmapped, Carves, Grown;
      ghost var l := Layout();
      LayoutIsSized();
      Parts();
      FreshIsUnmapped(l, bin, pool.specs[bin].batchBlocks, segment);
      AbsShowsLive();
      NothingReady(t, bin, segment, listed);
      LiveOfAcquire(t, bin, segment, listed);
      GrownIsFresh(t, bin, segment, listed);
      ghost var carved := Carves(t, bin, segment, listed);
      if carved { NullIsNoSegment(t, bin, segment, listed); }
      header := AcquireFrom(t, bin, segment, listed);
      GrowthIsCharted(l, Layout(), bin, segment, carved);
      AbsShowsLive();
      assert live == old(live)[bin := live[bin]];
      if header != NULL {
        LiveIsMarked(bin, header);
      }
    }

    lemma NullIsNoSegment(t: nat, bin: nat, segment: Addr, listed: bool)
      requires Valid() && t < |slots| && slots[t] != null && bin < |pool.specs| && Carves(t, bin, segment, listed)
      ensures segment != NULL
    {
    }

    lemma LiveIsMarked(bin: nat, header: Addr)
      requires Valid() && bin < |live| && header in live[bin]
      ensures header in pool.mem.headers && pool.mem.headers[header].magic == P.MAGIC_LIVE && pool.mem.headers[header].binIndex == bin
    {
      SizedOf(Shot(), pool.specs);
      LiveIsMapped(Shot(), pool.specs, bin, header);
    }

    twostate predicate HandsOut(bin: nat, header: int, size: nat)
      reads this, pool, pool.mem
    {
      && bin < |live| == |old(live)| == |pool.specs|
      && header >= 0 && header !in old(live)[bin] && live == old(live)[bin := old(live)[bin] + {header}]
      && header in pool.mem.headers && pool.mem.headers[header].magic == P.MAGIC_LIVE && pool.mem.headers[header].binIndex == bin
      && size <= pool.specs[bin].blockSize && (bin > 0 ==> pool.specs[bin - 1].blockSize < size)
    }

    // What a refill that has to grow asks VirtualAlloc for.
    ghost function NextSegmentBytes(bin: nat): nat
      requires bin < |pool.specs|
    {
      G.SegmentBytes(pool.specs[bin], pool.specs[bin].batchBlocks)
    }

    // Whether the pool can serve the size without leaving size_t: only a request above the largest bin
    // can be too large for it.
    predicate Servable(size: nat)
      requires minBinLog > 0
    {
      size == 0 || BinOf(minBinLog, size) < |pool.specs| || L.SumFits(pool.headerSize, size, alignment)
    }

    ghost predicate NothingFor(t: nat, size: nat, granted: bool, segment: Addr, listed: bool, raw: Addr)
      reads this, pool, pool.mem, Caches()
      requires Valid() && t < |slots|
    {
      size == 0
      || if 0 <= BinOf(minBinLog, size) < |pool.specs| then Starved(t, BinOf(minBinLog, size), granted, segment, listed)
         else raw == NULL
    }

    // Acquire: a block of the smallest bin that fits, or one from the heap above the largest bin.
    // granted, segment, listed and raw are what the operating system answers if it is asked.
    method Acquire(t: nat, size: nat, granted: bool, segment: Addr, listed: bool, raw: Addr) returns (payload: Addr)
      requires Valid() && Laid() && t < |slots| && size < L.SIZE_RANGE && HeapGives(raw, size)
      requires size > 0 && 0 <= BinOf(minBinLog, size) < |pool.specs| ==>
                 L.Maps(Layout(), segment, NextSegmentBytes(BinOf(minBinLog, size)))
      modifies this`slots, this`live, this`bypassAcquire, this`bypass, this`heap, Caches(), pool, pool.mem
      ensures Valid() && |pool.specs| == |live| == |old(live)|
      // nothing comes back exactly for size 0, to a starved thread, and when the heap gives nothing
      ensures payload == NULL <==> old(NothingFor(t, size, granted, segment, listed, raw))
      ensures payload == NULL ==> live == old(live) && bypass == old(bypass)
      // a pooled block: not live before, live now, of the smallest bin whose blocks are large enough
      ensures payload != NULL && size > 0 && 0 <= BinOf(minBinLog, size) < |pool.specs| ==>
                HandsOut(BinOf(minBinLog, size), payload - pool.headerSize, size) && bypass == old(bypass)
      // an oversized one
      ensures payload != NULL && size > 0 && BinOf(minBinLog, size) >= |pool.specs| ==>
                live == old(live) && bypass == old(bypass) + {payload - pool.headerSize}
      // either way aligned, at least `size` bytes inside one segment or heap block, apart from every
      // header and from every other payload
      ensures Servable(size) ==> Laid()
      ensures Servable(size) && payload != NULL ==> GivesPlace(payload, size)
      // only the bin's own acquire happens, with the thread's own cache
      ensures size > 0 && 0 <= BinOf(minBinLog, size) < |pool.specs| ==>
                AllAcquired(pool.specs, old(States()), States(), BinOf(minBinLog, size), t,
                            old(Carved(t, BinOf(minBinLog, size), segment, listed)), granted,
                            if payload == NULL then NULL else payload - pool.headerSize)
      ensures size == 0 || BinOf(minBinLog, size) >= |pool.specs| ==> States() == old(States())
    {
      hide Starved, Valid, Laid, BinOf, L.Maps, HeapGives, GivesPlace, AllAcquired, Carved, BlockSizeOf, Abs, L.SumFits, Aligned, Wired, Shot,
           L.RawBytes, HeaderFor;
      Parts();
      if size == 0 {
        return NULL;
      }
      BinOfIsSmallestFit(minBinLog, size);
      var bin := BinOf(minBinLog, size);
      if bin >= |pool.specs| {
        payload := AcquireBypass(raw, size);
        Parts();
        if Servable(size) && payload != NULL { GivenIsPlaced(payload, size); }
        return;
      }
      var header := AcquirePooled(t, bin, granted, segment, listed);
      if header == NULL {
        return NULL;
      }
      payload := header + pool.headerSize;
      Parts();
      GivenIsPlaced(payload, size);
    }

    // What the methods for callers need of Valid().
    lemma Parts()
      requires Valid()
      ensures forall b :: 0 <= b < |pool.specs| ==> pool.specs[b].batchBlocks > 0
      ensures minBinLog > 0 && |live| == |pool.specs| <= MAX_BIN_COUNT && Aligned()
      ensures forall b :: 0 <= b < |pool.specs| ==> pool.specs[b].stride > 0 && pool.specs[b].blockSize == BlockSizeOf(minBinLog, b)
    {
      SizedOf(Shot(), pool.specs);
      PoolFields(pool);
    }

    // The caller's bytes: aligned, `size` of them at least, and well placed.
    ghost predicate GivesPlace(payload: Addr, size: nat)
      reads this`heap, pool, pool.mem
    {
      var header := payload - pool.headerSize;
      && alignment > 0 && payload % alignment == 0
      && |pool.mapped| == |pool.specs| && header >= 0 && header in pool.mem.headers
      && (L.Pooled(Layout(), header) || header in heap)
      && size <= L.PayloadOf(Layout(), header).bytes && L.WellPlaced(Layout(), header)
    }

    lemma GivenIsPlaced(payload: Addr, size: nat)
      requires Laid() && payload >= pool.headerSize && payload - pool.headerSize in pool.mem.headers
      requires var header := payload - pool.headerSize;
               if L.Pooled(Layout(), header) then size <= pool.specs[pool.mem.headers[header].binIndex].blockSize
               else header in heap && size <= heap[header].size
      ensures GivesPlace(payload, size)
    {
      L.EveryBlockIsWellPlaced(Layout(), payload - pool.headerSize);
    }

    lemma LiveOfAcquire(t: nat, bin: nat, segment: Addr, listed: bool)
      requires Valid() && t < |slots| && slots[t] != null && bin < |pool.specs|
      requires G.Unmapped(pool.mem.headers, pool.specs[bin], pool.specs[bin].batchBlocks, segment)
      ensures P.HasCache(Abs(bin), t)
      ensures var s, grown := Abs(bin), Grown(t, bin, segment, listed);
              var handed := P.AcquireResult(s, t, grown);
              if handed == [] then P.AcquireNext(s, t, grown).live == s.live
              else handed[0] !in s.live && P.AcquireNext(s, t, grown).live == s.live + {handed[0]}
    {
      hide Inv.Sound, P.AcquireNext, P.AcquireResult;
      CacheIsValid(t);
      GrownIsFresh(t, bin, segment, listed);
      Inv.AcquireIsSound(SpecOf(pool.specs[bin]), Abs(bin), t, Grown(t, bin, segment, listed));
    }

    // Release of what Acquire handed out; a block already marked free, a header with neither mark, and
    // a block of another pool are refused and change nothing.
    method Release(t: nat, payload: Addr, granted: bool)
      requires payload > pool.headerSize && payload - pool.headerSize in pool.mem.headers
      requires pool.mem.headers[payload - pool.headerSize].binIndex == BIN_BYPASS ==> payload - pool.headerSize in bypass
      requires pool.mem.headers[payload - pool.headerSize].binIndex < |pool.specs|
               || pool.mem.headers[payload - pool.headerSize].binIndex == BIN_BYPASS
      requires Valid() && t < |slots|
      modifies this`slots, this`live, this`bypassRelease, this`bypass, this`heap, this`retiredRelease, Caches()
      modifies pool`bins, pool`chunks, pool.mem
      ensures |live| == |old(live)| == |pool.specs|
      ensures old(Laid()) ==> Laid()
      ensures Valid()
      ensures var header := payload - pool.headerSize;
              var h := old(pool.mem.headers)[header];
              if h.magic != 0xA110C8ED || (h.poolId != POOL_ID_NONE && h.poolId != pool.ownerTag) then
                && live == old(live) && bypass == old(bypass) && slots == old(slots)
                && pool.mem.headers == old(pool.mem.headers) && pool.chunks == old(pool.chunks) && States() == old(States())
              else
                && GaveBack(old(live), live, old(bypass), bypass, h.binIndex, header)
                && if h.binIndex == BIN_BYPASS then States() == old(States())
                   else AllReleased(pool.specs, old(States()), States(), h.binIndex, t, header, granted)
    {
      hide Valid, Abs, Wired, Shot, L.Charted, L.SameBlocks, AllReleased;
      var header := payload - pool.headerSize;
      Parts();
      if pool.mem.headers[header].magic == P.MAGIC_FREE {
        return;
      }
      if pool.mem.headers[header].magic != P.MAGIC_LIVE {
        return;
      }
      if pool.mem.headers[header].poolId != POOL_ID_NONE && pool.mem.headers[header].poolId != pool.ownerTag {
        return;
      }
      var bin := pool.mem.headers[header].binIndex;
      if bin == BIN_BYPASS {
        AbsShowsLive();
        ReleaseBypass(header);
        AbsShowsLive();
        Parts();
        return;
      }
      ReleasePooled(t, bin, header, granted);
    }

    method ReleasePooled(t: nat, bin: nat, header: Addr, granted: bool)
      requires Valid() && t < |slots| && bin < |pool.specs| && header != NULL && header in pool.mem.headers
      requires pool.mem.headers[header].binIndex == bin && pool.mem.headers[header].magic == P.MAGIC_LIVE
      modifies this`slots, this`live, this`retiredRelease, Caches(), pool`bins, pool`chunks, pool.mem
      ensures |live| == |old(live)| == |pool.specs|
      ensures header in old(live)[bin] && live == old(live)[bin := old(live)[bin] - {header}]
      ensures old(Laid()) ==> Laid()
      ensures Valid()
      ensures AllReleased(pool.specs, old(States()), States(), bin, t, header, granted)
    {
      hide Valid, Abs, Wired, Shot, L.Charted, L.SameBlocks, P.ReleaseNext, P.ReleaseUncachedNext, P.Next, P.Enabled;
      Parts();
      HasCacheIff(t);
      AbsShowsLive();
      MarkIsTrue(header);
      var cache := GetOrCreate(t, granted);
      AbsShowsLive();
      HasCacheIff(t);
      MarkIsTrue(header);
      LiveOfRelease(t, bin, header);
      ghost var l := Layout();
      ghost var laid := Laid();
      if cache == null {
        ReleaseUncached(bin, header);
      } else {
        ReleaseInto(t, bin, header);
      }
      if laid { MarksKeepLaid(l); }
      AbsShowsLive();
      Parts();
      assert live == old(live)[bin := old(live)[bin] - {header}];
    }

    lemma HasCacheIff(t: nat)
      requires Valid() && t < |slots|
      ensures forall b :: 0 <= b < |pool.specs| ==> (P.HasCache(Abs(b), t) <==> slots[t] != null)
    {
      if slots[t] != null { CacheIsValid(t); }
    }

    // The mark of a pooled block says whether it is live.
    lemma MarkIsTrue(header: Addr)
      requires Valid() && header in pool.mem.headers && pool.mem.headers[header].binIndex < |pool.specs|
      ensures var bin := pool.mem.headers[header].binIndex;
              && bin < |live| && header in Abs(bin).magic && (pool.mem.headers[header].magic == P.MAGIC_LIVE <==> header in live[bin])
    {
      SizedOf(Shot(), pool.specs);
      MarkTells(Shot(), pool.specs, header);
    }

    lemma AbsShowsLive()
      requires Valid()
      ensures |live| == |pool.specs| && forall b :: 0 <= b < |pool.specs| ==> Abs(b).live == live[b]
    {
      SizedOf(Shot(), pool.specs);
    }

    lemma MarksKeepLaid(l: L.Layout)
      requires heap.Keys == bypass && L.Charted(l) && Layout() == l.(headers := pool.mem.headers)
      requires L.SameBlocks(l.headers, pool.mem.headers)
      ensures Laid()
    {
      hide L.Charted;
      L.MarksKeepChart(l, pool.mem.headers);
    }

    lemma LiveOfRelease(t: nat, bin: nat, header: Addr)
      requires Valid() && t < |slots| && bin < |pool.specs| && header in Abs(bin).magic && header in live[bin]
      ensures Abs(bin).magic[header] == P.MAGIC_LIVE
      ensures P.ReleaseUncachedNext(Abs(bin), header).live == Abs(bin).live - {header}
      ensures P.HasCache(Abs(bin), t) ==>
                P.ReleaseNext(SpecOf(pool.specs[bin]), Abs(bin), t, header).live == Abs(bin).live - {header}
    {
      hide Inv.Sound, P.ReleaseNext;
      SoundParts(SpecOf(pool.specs[bin]), Abs(bin));
      Inv.LiveMagic(Abs(bin), header);
      if P.HasCache(Abs(bin), t) {
        Inv.ReleaseIsSound(SpecOf(pool.specs[bin]), Abs(bin), t, header);
      }
    }

    // Every live block of every bin keeps its place as long as it is out: aligned, inside one segment,
    // apart from every header and from the payload of every other block.
    lemma LiveIsPlaced(bin: nat, header: Addr)
      requires Valid() && Laid() && bin < |live| && header in live[bin]
      ensures |live| == |pool.specs| && GivesPlace(header + pool.headerSize, pool.specs[bin].blockSize)
    {
      hide Valid, Laid, GivesPlace, Wired, Shot;
      Parts();
      LiveIsMarked(bin, header);
      GivenIsPlaced(header + pool.headerSize, pool.specs[bin].blockSize);
    }

    // The node of a stored chunk lies in the payload of the chunk's first block, which nobody holds: its
    // bytes meet no header, no other block's payload, and so no byte any caller has.
    lemma NodesAreApart(bin: nat, i: nat, y: Addr)
      requires Valid() && Laid() && bin < |pool.chunks| && i < |pool.chunks[bin]| && y in pool.mem.headers
      ensures var l, chunk := Layout(), pool.chunks[bin][i];
              && chunk != [] && bin < |pool.bins| && i < |pool.bins[bin].chunkList|
              && pool.bins[bin].chunkList[i] == chunk[0] + pool.headerSize && (L.Pooled(l, y) || y in heap)
              && L.Apart(L.Segment(chunk[0] + pool.headerSize, CHUNK_NODE_SIZE), L.HeaderOf(y))
              && (y != chunk[0] ==> L.Apart(L.Segment(chunk[0] + pool.headerSize, CHUNK_NODE_SIZE), L.PayloadOf(l, y)))
              && chunk[0] in pool.mem.headers && pool.mem.headers[chunk[0]].magic != P.MAGIC_LIVE
    {
      hide L.Charted, Inv.Sound;
      PoolFields(pool);
      var chunk, p := pool.chunks[bin][i], Shot();
      SizedOf(p, pool.specs);
      assert G.BinOk(p.h, p.nodes, p.headerSize, p.bins[bin], p.chunks[bin], bin);
      assert ChunkAt(p.h, p.nodes, p.headerSize, p.bins[bin].chunkList[i], chunk, bin);
      SoundParts(SpecOf(pool.specs[bin]), AbsOf(p, bin));
      StoredIsNotLive(AbsOf(p, bin), i, chunk[0]);
      MarkTells(p, pool.specs, chunk[0]);
      L.NodeIsApart(Layout(), chunk[0], y);
    }
  }

  lemma StoredIsNotLive(s: P.State, i: nat, b: Addr)
    requires Inv.AllPlaced(s) && i < |s.chunks| && b in s.chunks[i]
    ensures b !in s.live
  {
    if b in s.live { LiveIsNotHeld(s, b); }
  }
}
