/**
 A picture of the pool's memory as values, the state of the bin protocol it shows, and how the pieces of
 an acquire, a release and a thread's leaving move it from one state of that protocol to the next.
 */
module PoolPicture {
  import opened Tally
  import opened BlockMemory
  import opened SizeBin
  import P = BlockPoolProtocol
  import Inv = BlockPoolInvariants
  import G = GlobalBlockPool
  import T = ThreadBlockCache

  function SpecOf(spec: BinSpec): P.Spec { P.Spec(spec.cacheCapBlocks, spec.batchBlocks) }

  // The marks of a bin's blocks.
  function MagicOf(h: Headers, bin: nat): map<Addr, nat>
  {
    map b | b in h && h[b].binIndex == bin :: h[b].magic
  }

  // --- The marks ------------------------------------------------------------------------------------

  lemma NewChunksAreFresh(h: Headers, spec: BinSpec, minBlocks: nat, base: Addr, bin: nat, s: P.State)
    requires spec.batchBlocks > 0 && spec.stride > 0 && base != NULL && G.Unmapped(h, spec, minBlocks, base)
    requires s.magic == MagicOf(h, bin)
    ensures P.FreshChunks(SpecOf(spec), s, G.NewChunks(spec, minBlocks, base))
    ensures Elements(P.Flat(G.NewChunks(spec, minBlocks, base))) == G.NewBlocks(spec, minBlocks, base)
  {
    var n := G.SegmentBlockCount(spec, minBlocks);
    CarvedSizes(base, spec.stride, spec.batchBlocks, 0, n);
    CarvedAreDistinct(base, spec.stride, spec.batchBlocks, 0, n);
    forall b: Addr
      ensures b in P.Flat(G.NewChunks(spec, minBlocks, base)) <==> b in G.NewBlocks(spec, minBlocks, base)
    {
      CarvedBlocks(base, spec.stride, spec.batchBlocks, 0, n, b);
    }
  }

  lemma MagicAfterGrow(h: Headers, h': Headers, blocks: seq<Addr>, bin: nat, ownerTag: nat)
    requires G.AddsFree(h, h', Elements(blocks), bin, ownerTag)
    requires forall b :: b in blocks ==> b !in h
    ensures MagicOf(h', bin) == P.Marked(blocks, MagicOf(h, bin))
    ensures forall b :: b != bin ==> MagicOf(h', b) == MagicOf(h, b)
  {
  }

  lemma MagicAfterMark(h: Headers, b: Addr, magic: nat, next: Addr)
    requires b in h
    ensures var h' := h[b := h[b].(magic := magic, next := next)];
            && MagicOf(h', h[b].binIndex) == MagicOf(h, h[b].binIndex)[b := magic]
            && forall bin :: bin != h[b].binIndex ==> MagicOf(h', bin) == MagicOf(h, bin)
  {
  }

  lemma MagicKeptByLinks(h: Headers, h': Headers, blocks: set<Addr>)
    requires T.OnlyLinks(h, h', blocks)
    ensures forall bin :: MagicOf(h', bin) == MagicOf(h, bin)
  {
  }

  // --- Who holds a block ----------------------------------------------------------------------------

  ghost predicate InStore(chunks: seq<seq<Addr>>, b: Addr)
  {
    exists i :: 0 <= i < |chunks| && b in chunks[i]
  }

  ghost predicate InSlot(slot: P.Slot, b: Addr)
  {
    slot.Attached? && b in slot.cache.blocks
  }

  lemma InChunkCounts(chunks: seq<seq<Addr>>, i: nat, b: Addr)
    requires i < |chunks| && b in chunks[i]
    ensures Inv.InChunks(chunks, b) >= 1
  {
    InListCounts(chunks[i], b);
    AtLeast(chunks, i, (chunk: seq<Addr>) => Total(chunk, Inv.Is(b)));
  }

  lemma InListCounts(blocks: seq<Addr>, b: Addr)
    requires b in blocks
    ensures Total(blocks, Inv.Is(b)) >= 1
  {
    var i :| 0 <= i < |blocks| && blocks[i] == b;
    AtLeast(blocks, i, Inv.Is(b));
  }

  lemma InSlotCounts(caches: seq<P.Slot>, t: nat, b: Addr)
    requires t < |caches| && InSlot(caches[t], b)
    ensures Inv.InCaches(caches, b) >= 1
  {
    InListCounts(caches[t].cache.blocks, b);
    AtLeast(caches, t, (slot: P.Slot) => Inv.InSlot(slot, b));
  }

  // A live block is in no chunk and no cache.
  lemma LiveIsNotHeld(s: P.State, b: Addr)
    requires Inv.AllPlaced(s) && b in s.live
    ensures !InStore(s.chunks, b) && forall t :: 0 <= t < |s.caches| ==> !InSlot(s.caches[t], b)
  {
    assert Inv.Placed(s, b);
    if InStore(s.chunks, b) {
      var i :| 0 <= i < |s.chunks| && b in s.chunks[i];
      InChunkCounts(s.chunks, i, b);
    }
    forall t | 0 <= t < |s.caches| ensures !InSlot(s.caches[t], b) {
      if InSlot(s.caches[t], b) { InSlotCounts(s.caches, t, b); }
    }
  }

  // A block in a cache is in no chunk, in no other cache, and there only once.
  lemma CachedIsNotStored(s: P.State, t: nat, b: Addr)
    requires Inv.AllPlaced(s) && t < |s.caches| && InSlot(s.caches[t], b)
    ensures !InStore(s.chunks, b) && b !in s.live
    ensures forall u :: 0 <= u < |s.caches| && u != t ==> !InSlot(s.caches[u], b)
  {
    assert Inv.Placed(s, b);
    InSlotCounts(s.caches, t, b);
    if InStore(s.chunks, b) {
      var i :| 0 <= i < |s.chunks| && b in s.chunks[i];
      InChunkCounts(s.chunks, i, b);
    }
    forall u | 0 <= u < |s.caches| && u != t ensures !InSlot(s.caches[u], b) {
      if InSlot(s.caches[u], b) {
        InListCounts(s.caches[t].cache.blocks, b);
        InListCounts(s.caches[u].cache.blocks, b);
        if t < u {
          AtLeastTwo(s.caches, t, u, (slot: P.Slot) => Inv.InSlot(slot, b));
        } else {
          AtLeastTwo(s.caches, u, t, (slot: P.Slot) => Inv.InSlot(slot, b));
        }
      }
    }
  }

  // No chunk has a block twice.
  lemma ChunksAreDistinct(s: P.State, i: nat)
    requires Inv.AllPlaced(s) && i < |s.chunks|
    ensures Distinct(s.chunks[i])
  {
    var chunk := s.chunks[i];
    forall x, y | 0 <= x < y < |chunk| ensures chunk[x] != chunk[y] {
      if chunk[x] == chunk[y] {
        assert Inv.Placed(s, chunk[x]);
        AtLeastTwo(chunk, x, y, Inv.Is(chunk[x]));
        AtLeast(s.chunks, i, (c: seq<Addr>) => Total(c, Inv.Is(chunk[x])));
      }
    }
  }

  // --- An acquire, field by field -----------------------------------------------------------------

  // The chunks a refill chooses from, and the list an acquire takes the head of.
  function StockOf(s: P.State, grown: seq<seq<Addr>>): seq<seq<Addr>>
  {
    if s.chunks == [] then grown else s.chunks
  }

  function ReadyOf(s: P.State, t: nat, grown: seq<seq<Addr>>): seq<Addr>
    requires P.HasCache(s, t)
  {
    var blocks := s.caches[t].cache.blocks;
    if blocks != [] then blocks else if StockOf(s, grown) != [] then StockOf(s, grown)[0] else []
  }

  function AcquireFields(s: P.State, t: nat, grown: seq<seq<Addr>>): P.State
    requires P.HasCache(s, t)
  {
    var cache := s.caches[t].cache;
    var ready := ReadyOf(s, t, grown);
    if ready == [] then s
    else
      var magic := if cache.blocks == [] && s.chunks == [] then P.Marked(P.Flat(grown), s.magic) else s.magic;
      s.(chunks := if cache.blocks != [] then s.chunks else StockOf(s, grown)[1..],
         caches := s.caches[t := P.Attached(P.Cache(ready[1..], cache.acquired + 1, cache.released))],
         magic := magic[ready[0] := P.MAGIC_LIVE], live := s.live + {ready[0]})
  }

  lemma AcquireIsFields(c: P.Spec, s: P.State, t: nat, grown: seq<seq<Addr>>)
    requires P.HasCache(s, t) && P.FreshChunks(c, s, grown) && (s.chunks != [] ==> s.chunks[0] != [])
    ensures P.AcquireNext(s, t, grown) == AcquireFields(s, t, grown)
    ensures P.AcquireResult(s, t, grown) == if ReadyOf(s, t, grown) == [] then [] else [ReadyOf(s, t, grown)[0]]
  {
    var blocks := s.caches[t].cache.blocks;
    if blocks == [] {
      assert grown + [] == grown;
      if s.chunks == [] {
        assert grown != [] ==> grown[0] != [];
        assert P.Marked([], s.magic) == s.magic;
      }
      var stocked := if s.chunks == [] then P.Grow(s, grown) else s;
      if stocked.chunks != [] {
        var refilled := P.Refill(s, t, grown);
        assert refilled.caches[t] == P.Attached(s.caches[t].cache.(blocks := stocked.chunks[0]));
        assert refilled.caches[t := P.Attached(P.Cache(stocked.chunks[0][1..], s.caches[t].cache.acquired + 1, s.caches[t].cache.released))]
            == s.caches[t := P.Attached(P.Cache(stocked.chunks[0][1..], s.caches[t].cache.acquired + 1, s.caches[t].cache.released))];
      }
    }
  }

  // --- A picture of the whole pool as values ---------------------------------------------------------

  // A thread's cache, if it has one.
  datatype View = NoCache | View(lists: seq<T.FreeList>, chains: seq<seq<Addr>>, acquired: seq<nat>, released: seq<nat>)

  datatype Picture = Picture(h: Headers, nodes: Nodes, headerSize: nat, bins: seq<G.Bin>, chunks: seq<seq<seq<Addr>>>,
                             views: seq<View>, live: seq<set<Addr>>, retiredAcquire: seq<nat>, retiredRelease: seq<nat>)

  function SlotOf(v: View, bin: nat): P.Slot
  {
    if v.NoCache? || bin >= |v.chains| || bin >= |v.acquired| || bin >= |v.released| then P.Gone
    else P.Attached(P.Cache(v.chains[bin], v.acquired[bin], v.released[bin]))
  }

  function SlotsOf(views: seq<View>, bin: nat): (slots: seq<P.Slot>)
    ensures |slots| == |views| && forall t :: 0 <= t < |views| ==> slots[t] == SlotOf(views[t], bin)
  {
    seq(|views|, t requires 0 <= t < |views| => SlotOf(views[t], bin))
  }

  predicate Sized(p: Picture, n: nat)
  {
    n == |p.bins| == |p.chunks| == |p.live| == |p.retiredAcquire| == |p.retiredRelease|
  }

  // The state of the bin protocol the picture shows.
  function AbsOf(p: Picture, bin: nat): P.State
    requires Sized(p, |p.chunks|) && bin < |p.chunks|
  {
    P.State(p.chunks[bin], SlotsOf(p.views, bin), MagicOf(p.h, bin), p.live[bin], p.retiredAcquire[bin], p.retiredRelease[bin])
  }

  ghost predicate ViewOk(h: Headers, v: View, n: nat)
  {
    v.View? ==> n == |v.lists| == |v.chains| == |v.acquired| == |v.released| && T.ListsOk(h, v.lists, v.chains)
  }

  // Every list and chunk is as its fields say, and every bin is in a sound state.
  ghost predicate Sound(p: Picture, specs: seq<BinSpec>)
  {
    && Sized(p, |specs|) && G.AllOk(p.h, p.nodes, p.headerSize, p.bins, p.chunks)
    && (forall t :: 0 <= t < |p.views| ==> ViewOk(p.h, p.views[t], |specs|))
    && (forall b :: 0 <= b < |specs| ==> P.Sensible(SpecOf(specs[b])) && Inv.Sound(SpecOf(specs[b]), AbsOf(p, b)))
  }

  // --- Changing one header ------------------------------------------------------------------------

  // Every block that is somewhere in a view or a chunk is unlike b.
  ghost predicate Loose(p: Picture, b: Addr)
  {
    && (forall bin :: 0 <= bin < |p.chunks| ==> !InStore(p.chunks[bin], b))
    && (forall t, bin :: 0 <= t < |p.views| && p.views[t].View? && 0 <= bin < |p.views[t].chains| ==> b !in p.views[t].chains[bin])
  }

  lemma ViewKeptBy(h: Headers, h': Headers, v: View, n: nat, b: Addr)
    requires ViewOk(h, v, n) && v.View? && forall x :: x in h && x != b ==> x in h' && h'[x] == h[x]
    requires forall bin :: 0 <= bin < |v.chains| ==> b !in v.chains[bin]
    ensures ViewOk(h', v, n)
  {
    forall bin | 0 <= bin < n ensures T.ListOk(h', v.lists[bin], v.chains[bin], bin) {
      assert T.ListOk(h, v.lists[bin], v.chains[bin], bin);
      LinksKept(h, h', v.chains[bin], bin);
    }
  }

  // A block its bin's state counts as live is loose: no other bin has it.
  lemma LiveIsLoose(p: Picture, specs: seq<BinSpec>, bin: nat, b: Addr, s: P.State)
    requires Sized(p, |specs|) && G.AllOk(p.h, p.nodes, p.headerSize, p.bins, p.chunks) && bin < |specs|
    requires forall t :: 0 <= t < |p.views| ==> ViewOk(p.h, p.views[t], |specs|)
    requires s.chunks == p.chunks[bin] && s.caches == SlotsOf(p.views, bin) && Inv.AllPlaced(s)
    requires b in s.live && b in p.h && p.h[b].binIndex == bin
    ensures Loose(p, b)
  {
    LiveIsNotHeld(s, b);
    forall c | 0 <= c < |p.chunks| && c != bin ensures !InStore(p.chunks[c], b) {
      assert G.BinOk(p.h, p.nodes, p.headerSize, p.bins[c], p.chunks[c], c);
      forall i | 0 <= i < |p.chunks[c]| ensures b !in p.chunks[c][i] {
        assert ChunkAt(p.h, p.nodes, p.headerSize, p.bins[c].chunkList[i], p.chunks[c][i], c);
      }
    }
    forall t, c | 0 <= t < |p.views| && p.views[t].View? && 0 <= c < |p.views[t].chains| ensures b !in p.views[t].chains[c] {
      assert T.ListOk(p.h, p.views[t].lists[c], p.views[t].chains[c], c);
      if c == bin {
        assert !InSlot(s.caches[t], b);
      }
    }
  }

  // Marking a loose block changes nothing but its mark.
  lemma MarkLoose(p: Picture, specs: seq<BinSpec>, b: Addr, magic: nat, next: Addr)
    requires Sized(p, |specs|) && G.AllOk(p.h, p.nodes, p.headerSize, p.bins, p.chunks)
    requires forall t :: 0 <= t < |p.views| ==> ViewOk(p.h, p.views[t], |specs|)
    requires Loose(p, b) && b in p.h
    ensures var h' := p.h[b := p.h[b].(magic := magic, next := next)];
            && G.AllOk(h', p.nodes, p.headerSize, p.bins, p.chunks)
            && forall t :: 0 <= t < |p.views| ==> ViewOk(h', p.views[t], |specs|)
  {
    var h' := p.h[b := p.h[b].(magic := magic, next := next)];
    forall c, i, x | 0 <= c < |p.chunks| && 0 <= i < |p.chunks[c]| && x in p.chunks[c][i] ensures x != b {
      assert !InStore(p.chunks[c], b);
    }
    T.StoredUntouched(p.h, h', p.nodes, p.headerSize, p.bins, p.chunks, {b});
    forall t | 0 <= t < |p.views| ensures ViewOk(h', p.views[t], |specs|) {
      if p.views[t].View? { ViewKeptBy(p.h, h', p.views[t], |specs|, b); }
    }
  }

  lemma SlotsUpdate(views: seq<View>, t: nat, v: View, bin: nat)
    requires t < |views|
    ensures SlotsOf(views[t := v], bin) == SlotsOf(views, bin)[t := SlotOf(v, bin)]
  {
  }

  // Views that did not change stay as they are while memory only gains blocks.
  lemma ViewsKept(h: Headers, h': Headers, views: seq<View>, views': seq<View>, t: nat, n: nat)
    requires t < |views| == |views'| && G.Kept(h, h') && views' == views[t := views'[t]] && ViewOk(h', views'[t], n)
    requires forall u :: 0 <= u < |views| ==> ViewOk(h, views[u], n)
    ensures forall u :: 0 <= u < |views'| ==> ViewOk(h', views'[u], n)
  {
    forall u | 0 <= u < |views'| ensures ViewOk(h', views'[u], n) {
      if u != t { ViewStays(h, h', views[u], n); }
    }
  }

  // What ThreadBlockCache::Pop does to the picture when it hands out a block.
  ghost predicate Popped(p: Picture, p1: Picture, t: nat, bin: nat, n: nat, grown: seq<seq<Addr>>)
    requires Sized(p, n) && Sized(p1, n) && bin < n && t < |p.views| && P.HasCache(AbsOf(p, bin), t)
  {
    var s, v, v1 := AbsOf(p, bin), p.views[t], if t < |p1.views| then p1.views[t] else NoCache;
    var ready := ReadyOf(s, t, grown);
    && ready != [] && p1.headerSize == p.headerSize
    && p1.views == p.views[t := v1] && v1.View? && v.View? && bin < |v.chains| == |v.acquired|
    && v1.chains == v.chains[bin := ready[1..]] && v1.acquired == v.acquired[bin := v.acquired[bin] + 1] && v1.released == v.released
    && p1.chunks == (if v.chains[bin] != [] then p.chunks else p.chunks[bin := StockOf(s, grown)[1..]])
    && p1.live == p.live && p1.retiredAcquire == p.retiredAcquire && p1.retiredRelease == p.retiredRelease
    && G.Kept(p.h, p1.h) && G.AllOk(p1.h, p1.nodes, p1.headerSize, p1.bins, p1.chunks) && ViewOk(p1.h, v1, n)
    && ready[0] in p1.h && p1.h[ready[0]].binIndex == bin
    && MagicOf(p1.h, bin) == (if v.chains[bin] == [] && p.chunks[bin] == [] then P.Marked(P.Flat(grown), s.magic) else s.magic)
    && forall b :: b != bin ==> MagicOf(p1.h, b) == MagicOf(p.h, b)
  }

  // And what Acquire does to the header then.
  function Acquired(p: Picture, bin: nat, b: Addr): Picture
    requires b in p.h && bin < |p.live|
  {
    p.(h := p.h[b := p.h[b].(magic := P.MAGIC_LIVE, next := NULL)], live := p.live[bin := p.live[bin] + {b}])
  }

  lemma AcquireShows(p: Picture, p1: Picture, specs: seq<BinSpec>, t: nat, bin: nat, grown: seq<seq<Addr>>)
    requires Sound(p, specs) && Sized(p1, |specs|) && bin < |specs| && t < |p.views| && p.views[t].View?
    requires P.HasCache(AbsOf(p, bin), t) && P.FreshChunks(SpecOf(specs[bin]), AbsOf(p, bin), grown)
    requires Popped(p, p1, t, bin, |specs|, grown)
    ensures var b := ReadyOf(AbsOf(p, bin), t, grown)[0];
            AbsOf(Acquired(p1, bin, b), bin) == P.AcquireNext(AbsOf(p, bin), t, grown)
  {
    hide G.AllOk, Inv.AllPlaced, MagicOf, T.ListsOk, P.AcquireNext, P.FreshChunks;
    var s := AbsOf(p, bin);
    var b := ReadyOf(s, t, grown)[0];
    assert Inv.Sound(SpecOf(specs[bin]), s);
    AcquireIsFields(SpecOf(specs[bin]), s, t, grown);
    SlotsUpdate(p.views, t, p1.views[t], bin);
    MagicAfterMark(p1.h, b, P.MAGIC_LIVE, NULL);
  }

  lemma AcquireStep(p: Picture, p1: Picture, specs: seq<BinSpec>, t: nat, bin: nat, grown: seq<seq<Addr>>)
    requires Sound(p, specs) && Sized(p1, |specs|) && bin < |specs| && t < |p.views| && p.views[t].View?
    requires P.HasCache(AbsOf(p, bin), t) && P.FreshChunks(SpecOf(specs[bin]), AbsOf(p, bin), grown)
    requires Popped(p, p1, t, bin, |specs|, grown)
    ensures var b := ReadyOf(AbsOf(p, bin), t, grown)[0];
            var p2 := Acquired(p1, bin, b);
            && Sound(p2, specs) && AbsOf(p2, bin) == P.AcquireNext(AbsOf(p, bin), t, grown)
            && forall c :: 0 <= c < |specs| && c != bin ==> AbsOf(p2, c) == AbsOf(p, c)
  {
    hide G.AllOk, Inv.Sound, MagicOf, T.ListsOk, P.AcquireNext, P.FreshChunks, Loose, ReadyOf;
    var s, c := AbsOf(p, bin), SpecOf(specs[bin]);
    var b := ReadyOf(s, t, grown)[0];
    var p2 := Acquired(p1, bin, b);
    AcquireShows(p, p1, specs, t, bin, grown);
    Inv.AcquireIsSound(c, s, t, grown);
    ViewsKept(p.h, p1.h, p.views, p1.views, t, |specs|);
    SoundParts(c, AbsOf(p2, bin));
    LiveIsLoose(p1, specs, bin, b, AbsOf(p2, bin));
    MarkLoose(p1, specs, b, P.MAGIC_LIVE, NULL);
    MagicAfterMark(p1.h, b, P.MAGIC_LIVE, NULL);
    forall d | 0 <= d < |specs| && d != bin ensures AbsOf(p2, d) == AbsOf(p, d) {
      SlotsUpdate(p.views, t, p1.views[t], d);
      assert SlotOf(p1.views[t], d) == SlotOf(p.views[t], d);
      assert SlotsOf(p.views, d)[t := SlotOf(p.views[t], d)] == SlotsOf(p.views, d);
    }
    forall d | 0 <= d < |specs| ensures P.Sensible(SpecOf(specs[d])) && Inv.Sound(SpecOf(specs[d]), AbsOf(p2, d)) {
      if d != bin { assert Inv.Sound(SpecOf(specs[d]), AbsOf(p, d)); }
    }
  }

  lemma SoundParts(c: P.Spec, s: P.State)
    requires Inv.Sound(c, s)
    ensures Inv.AllPlaced(s) && Inv.SmallChunks(c, s.chunks)
  {
  }

  lemma NothingTaken(s: P.State, t: nat, grown: seq<seq<Addr>>, spec: BinSpec, segment: Addr)
    requires spec.batchBlocks > 0
    ensures G.NewChunks(spec, spec.batchBlocks, segment) != [] && G.NewChunks(spec, spec.batchBlocks, segment)[0] != []
  {
    CarvedSizes(segment, spec.stride, spec.batchBlocks, 0, G.SegmentBlockCount(spec, spec.batchBlocks));
  }

  lemma TopIsNotEmpty(p: Picture, specs: seq<BinSpec>, bin: nat)
    requires Sound(p, specs) && bin < |specs|
    ensures p.chunks[bin] != [] ==> p.chunks[bin][0] != []
  {
    SoundParts(SpecOf(specs[bin]), AbsOf(p, bin));
  }

  lemma SizedOf(p: Picture, specs: seq<BinSpec>)
    requires Sound(p, specs)
    ensures Sized(p, |specs|) && forall t :: 0 <= t < |p.views| ==> ViewOk(p.h, p.views[t], |specs|)
  {
  }

  // Nothing was handed out: only counters of the store changed.
  lemma NothingFound(p: Picture, p1: Picture, specs: seq<BinSpec>)
    requires Sound(p, specs) && Sized(p1, |specs|) && p1.h == p.h && p1.chunks == p.chunks && p1.views == p.views
    requires p1.live == p.live && p1.retiredAcquire == p.retiredAcquire && p1.retiredRelease == p.retiredRelease
    requires G.AllOk(p1.h, p1.nodes, p1.headerSize, p1.bins, p1.chunks)
    ensures Sound(p1, specs) && forall b :: 0 <= b < |specs| ==> AbsOf(p1, b) == AbsOf(p, b)
  {
    hide G.AllOk, Inv.Sound, MagicOf, T.ListsOk;
    forall b | 0 <= b < |specs| ensures AbsOf(p1, b) == AbsOf(p, b) {}
  }

  // The marks after a pop or a preallocation that carved a segment, or did not.
  lemma MagicAfterCarve(h: Headers, h1: Headers, spec: BinSpec, minBlocks: nat, base: Addr, bin: nat, tag: nat, s: P.State,
                        carved: bool, grown: seq<seq<Addr>>)
    requires spec.batchBlocks > 0 && spec.stride > 0 && s.magic == MagicOf(h, bin)
    requires carved ==> base != NULL && G.Unmapped(h, spec, minBlocks, base) && grown == G.NewChunks(spec, minBlocks, base)
                        && G.AddsFree(h, h1, G.NewBlocks(spec, minBlocks, base), bin, tag)
    requires !carved ==> h1 == h && grown == []
    ensures MagicOf(h1, bin) == P.Marked(P.Flat(grown), s.magic) && G.Kept(h, h1)
    ensures forall b :: b != bin ==> MagicOf(h1, b) == MagicOf(h, b)
  {
    if carved {
      NewChunksAreFresh(h, spec, minBlocks, base, bin, s);
      forall b | b in P.Flat(grown) ensures b !in h {
        assert b in G.NewBlocks(spec, minBlocks, base);
      }
      MagicAfterGrow(h, h1, P.Flat(grown), bin, tag);
    }
  }

  // What Preallocate does to the picture.
  ghost predicate Stocked(p: Picture, p1: Picture, bin: nat, n: nat, grown: seq<seq<Addr>>)
    requires Sized(p, n) && bin < n
  {
    && Sized(p1, n) && p1 == p.(h := p1.h, nodes := p1.nodes, bins := p1.bins, chunks := p.chunks[bin := grown + p.chunks[bin]])
    && G.Kept(p.h, p1.h) && G.AllOk(p1.h, p1.nodes, p1.headerSize, p1.bins, p1.chunks)
    && MagicOf(p1.h, bin) == P.Marked(P.Flat(grown), MagicOf(p.h, bin))
    && forall b :: b != bin ==> MagicOf(p1.h, b) == MagicOf(p.h, b)
  }

  lemma PreallocateStep(p: Picture, p1: Picture, specs: seq<BinSpec>, bin: nat, grown: seq<seq<Addr>>)
    requires Sound(p, specs) && bin < |specs| && Stocked(p, p1, bin, |specs|, grown)
    requires P.FreshChunks(SpecOf(specs[bin]), AbsOf(p, bin), grown)
    ensures Sound(p1, specs) && AbsOf(p1, bin) == P.Grow(AbsOf(p, bin), grown)
    ensures forall c :: 0 <= c < |specs| && c != bin ==> AbsOf(p1, c) == AbsOf(p, c)
  {
    hide G.AllOk, Inv.Sound, MagicOf, T.ListsOk, P.FreshChunks;
    Inv.PreallocateIsSound(SpecOf(specs[bin]), AbsOf(p, bin), grown);
    forall t | 0 <= t < |p.views| ensures ViewOk(p1.h, p.views[t], |specs|) {
      ViewStays(p.h, p1.h, p.views[t], |specs|);
    }
    forall c | 0 <= c < |specs| && c != bin ensures AbsOf(p1, c) == AbsOf(p, c) {}
  }

  lemma ViewStays(h: Headers, h': Headers, v: View, n: nat)
    requires ViewOk(h, v, n) && G.Kept(h, h')
    ensures ViewOk(h', v, n)
  {
    if v.View? {
      forall bin | 0 <= bin < n ensures T.ListOk(h', v.lists[bin], v.chains[bin], bin) {
        assert T.ListOk(h, v.lists[bin], v.chains[bin], bin);
        LinksKept(h, h', v.chains[bin], bin);
      }
    }
  }

  // --- A release -------------------------------------------------------------------------------------

  // The header marked free, before the block goes anywhere.
  function Freed(p: Picture, b: Addr): Picture
    requires b in p.h
  {
    p.(h := p.h[b := p.h[b].(magic := P.MAGIC_FREE)])
  }

  // What ThreadBlockCache::Push does to the picture, with the block no longer live.
  ghost predicate PushedBack(p: Picture, p1: Picture, t: nat, bin: nat, spec: BinSpec, n: nat, b: Addr)
    requires Sized(p, n) && Sized(p1, n) && bin < n && t < |p.views|
  {
    var v, v1 := p.views[t], if t < |p1.views| then p1.views[t] else NoCache;
    && p1.headerSize == p.headerSize && p1.views == p.views[t := v1] && v1.View? && v.View?
    && bin < |v.chains| == |v.released|
    && (var longer := [b] + v.chains[bin];
        var take := Less(spec.batchBlocks, |longer|);
        && T.OnlyLinks(p.h, p1.h, Elements(longer))
        && (if |longer| > spec.cacheCapBlocks then
              v1.chains == v.chains[bin := longer[take..]] && p1.chunks == p.chunks[bin := [longer[..take]] + p.chunks[bin]]
            else v1.chains == v.chains[bin := longer] && p1.chunks == p.chunks))
    && v1.released == v.released[bin := v.released[bin] + 1] && v1.acquired == v.acquired
    && p1.live == p.live[bin := p.live[bin] - {b}]
    && p1.retiredAcquire == p.retiredAcquire && p1.retiredRelease == p.retiredRelease
    && G.AllOk(p1.h, p1.nodes, p1.headerSize, p1.bins, p1.chunks) && ViewOk(p1.h, v1, n)
  }

  // A release in the terms of the protocol, field by field.
  lemma ReleaseIsFields(c: P.Spec, s: P.State, t: nat, b: Addr)
    requires P.HasCache(s, t) && b in s.magic && s.magic[b] == P.MAGIC_LIVE
    ensures var cache := s.caches[t].cache;
            var longer := [b] + cache.blocks;
            var take := Less(c.batch, |longer|);
            P.ReleaseNext(c, s, t, b) ==
              if |longer| > c.cap then
                s.(chunks := [longer[..take]] + s.chunks,
                   caches := s.caches[t := P.Attached(P.Cache(longer[take..], cache.acquired, cache.released + 1))],
                   magic := s.magic[b := P.MAGIC_FREE], live := s.live - {b})
              else
                s.(caches := s.caches[t := P.Attached(P.Cache(longer, cache.acquired, cache.released + 1))],
                   magic := s.magic[b := P.MAGIC_FREE], live := s.live - {b})
  {
    var cache := s.caches[t].cache;
    var longer := [b] + cache.blocks;
    var take := Less(c.batch, |longer|);
    var pushed := P.Pushed(s, t, b);
    assert pushed.caches[t] == P.Attached(P.Cache(longer, cache.acquired, cache.released + 1));
    assert pushed.caches[t := P.Attached(P.Cache(longer[take..], cache.acquired, cache.released + 1))]
        == s.caches[t := P.Attached(P.Cache(longer[take..], cache.acquired, cache.released + 1))];
  }

  // A live block is on no list of the cache, and none of the cache's blocks is in the store.
  lemma ReadyToPush(p: Picture, specs: seq<BinSpec>, t: nat, bin: nat, b: Addr)
    requires Sound(p, specs) && bin < |specs| && t < |p.views| && p.views[t].View?
    requires b in p.live[bin] && b in p.h && p.h[b].binIndex == bin
    ensures Loose(p, b) && bin < |p.views[t].chains| && b !in p.views[t].chains[bin]
    ensures T.Apart([b] + p.views[t].chains[bin], p.chunks)
  {
    var s := AbsOf(p, bin);
    SoundParts(SpecOf(specs[bin]), s);
    LiveIsLoose(p, specs, bin, b, s);
    var chain := p.views[t].chains[bin];
    forall c, i, x | 0 <= c < |p.chunks| && 0 <= i < |p.chunks[c]| && x in p.chunks[c][i] ensures x !in [b] + chain {
      assert !InStore(p.chunks[c], b);
      if x in chain {
        OfOneBin(p, specs, t, bin, c, i, x);
        assert InSlot(s.caches[t], x);
        assert InStore(p.chunks[bin], x);
        CachedIsNotStored(s, t, x);
      }
    }
  }

  // A block on a list of one bin and in a chunk of another would belong to both.
  lemma OfOneBin(p: Picture, specs: seq<BinSpec>, t: nat, bin: nat, c: nat, i: nat, x: Addr)
    requires Sound(p, specs) && bin < |specs| && t < |p.views| && p.views[t].View? && bin < |p.views[t].chains|
    requires x in p.views[t].chains[bin] && c < |p.chunks| && i < |p.chunks[c]| && x in p.chunks[c][i]
    ensures c == bin
  {
    assert ViewOk(p.h, p.views[t], |specs|);
    assert T.ListOk(p.h, p.views[t].lists[bin], p.views[t].chains[bin], bin);
    assert G.BinOk(p.h, p.nodes, p.headerSize, p.bins[c], p.chunks[c], c);
    assert ChunkAt(p.h, p.nodes, p.headerSize, p.bins[c].chunkList[i], p.chunks[c][i], c);
  }

  // Other threads' lists do not meet the links a push or flush writes.
  lemma OtherViewsKept(p: Picture, specs: seq<BinSpec>, t: nat, bin: nat, b: Addr, h1: Headers, h': Headers, u: nat)
    requires Sound(p, specs) && bin < |specs| && t < |p.views| && p.views[t].View? && u < |p.views| && u != t
    requires Loose(p, b) && b in p.h && bin < |p.views[t].chains|
    requires b in h1 && h1 == p.h[b := h1[b]] && T.OnlyLinks(h1, h', Elements([b] + p.views[t].chains[bin]))
    ensures ViewOk(h', p.views[u], |specs|)
  {
    var v, w, s := p.views[t], p.views[u], AbsOf(p, bin);
    SoundParts(SpecOf(specs[bin]), s);
    assert ViewOk(p.h, v, |specs|) && ViewOk(p.h, w, |specs|);
    if w.View? {
      forall d | 0 <= d < |specs| ensures T.ListOk(h', w.lists[d], w.chains[d], d) {
        assert T.ListOk(p.h, w.lists[d], w.chains[d], d) && T.ListOk(p.h, v.lists[bin], v.chains[bin], bin);
        forall x | x in w.chains[d] ensures x != b && x !in v.chains[bin] && x in p.h {
          if x in v.chains[bin] {
            assert d == bin && InSlot(s.caches[t], x) && InSlot(s.caches[u], x);
            CachedIsNotStored(s, t, x);
          }
        }
        LinksKept(p.h, h', w.chains[d], d);
      }
    }
  }

  lemma ReleaseStep(p: Picture, p1: Picture, specs: seq<BinSpec>, t: nat, bin: nat, b: Addr)
    requires Sound(p, specs) && Sized(p1, |specs|) && bin < |specs| && t < |p.views| && p.views[t].View?
    requires P.HasCache(AbsOf(p, bin), t)
    requires b in p.live[bin] && b in p.h && p.h[b].binIndex == bin && p.h[b].magic == P.MAGIC_LIVE
    requires PushedBack(Freed(p, b), p1, t, bin, specs[bin], |specs|, b)
    ensures Sound(p1, specs) && AbsOf(p1, bin) == P.ReleaseNext(SpecOf(specs[bin]), AbsOf(p, bin), t, b)
    ensures forall c :: 0 <= c < |specs| && c != bin ==> AbsOf(p1, c) == AbsOf(p, c)
  {
    hide G.AllOk, Inv.Sound, Inv.AllPlaced, MagicOf, P.ReleaseNext, T.OnlyLinks, T.ListsOk, Loose, T.Apart;
    var s, c := AbsOf(p, bin), SpecOf(specs[bin]);
    ReadyToPush(p, specs, t, bin, b);
    MagicAfterMark(p.h, b, P.MAGIC_FREE, p.h[b].next);
    MagicKeptByLinks(Freed(p, b).h, p1.h, Elements([b] + p.views[t].chains[bin]));
    MagicIs(p.h, b);
    ReleaseIsFields(c, s, t, b);
    SlotsUpdate(p.views, t, p1.views[t], bin);
    assert AbsOf(p1, bin) == P.ReleaseNext(c, s, t, b);
    Inv.ReleaseIsSound(c, s, t, b);
    forall u | 0 <= u < |p1.views| ensures ViewOk(p1.h, p1.views[u], |specs|) {
      if u != t { OtherViewsKept(p, specs, t, bin, b, Freed(p, b).h, p1.h, u); }
    }
    forall d | 0 <= d < |specs| && d != bin ensures AbsOf(p1, d) == AbsOf(p, d) {
      SlotsUpdate(p.views, t, p1.views[t], d);
      assert SlotOf(p1.views[t], d) == SlotOf(p.views[t], d);
      assert SlotsOf(p.views, d)[t := SlotOf(p.views[t], d)] == SlotsOf(p.views, d);
    }
    forall d | 0 <= d < |specs| ensures P.Sensible(SpecOf(specs[d])) && Inv.Sound(SpecOf(specs[d]), AbsOf(p1, d)) {
      if d != bin { assert Inv.Sound(SpecOf(specs[d]), AbsOf(p, d)); }
    }
  }

  lemma MagicIs(h: Headers, b: Addr)
    requires b in h
    ensures b in MagicOf(h, h[b].binIndex) && MagicOf(h, h[b].binIndex)[b] == h[b].magic
  {
  }

  // --- A release without a cache --------------------------------------------------------------------

  ghost predicate PushedAlone(p: Picture, p1: Picture, bin: nat, b: Addr)
    requires bin < |p.chunks| && bin < |p.live| && bin < |p.retiredRelease| && b in p.h
  {
    && p1.h == p.h[b := p.h[b].(magic := P.MAGIC_FREE, next := NULL)] && p1.headerSize == p.headerSize
    && p1.chunks == p.chunks[bin := [[b]] + p.chunks[bin]] && p1.views == p.views
    && p1.live == p.live[bin := p.live[bin] - {b}] && p1.retiredAcquire == p.retiredAcquire
    && p1.retiredRelease == p.retiredRelease[bin := p.retiredRelease[bin] + 1]
    && G.AllOk(p1.h, p1.nodes, p1.headerSize, p1.bins, p1.chunks)
  }

  lemma UncachedStep(p: Picture, p1: Picture, specs: seq<BinSpec>, bin: nat, b: Addr)
    requires Sound(p, specs) && Sized(p1, |specs|) && bin < |specs|
    requires b in p.live[bin] && b in p.h && p.h[b].binIndex == bin && p.h[b].magic == P.MAGIC_LIVE
    requires PushedAlone(p, p1, bin, b)
    ensures Sound(p1, specs) && MagicOf(p.h, bin) == AbsOf(p, bin).magic && b in AbsOf(p, bin).magic
    ensures AbsOf(p1, bin) == P.ReleaseUncachedNext(AbsOf(p, bin), b)
    ensures forall c :: 0 <= c < |specs| && c != bin ==> AbsOf(p1, c) == AbsOf(p, c)
  {
    hide G.AllOk, Inv.Sound, Inv.AllPlaced, MagicOf, T.ListsOk, Loose;
    var s, c := AbsOf(p, bin), SpecOf(specs[bin]);
    SoundParts(c, s);
    LiveIsLoose(p, specs, bin, b, s);
    MarkLoose(p, specs, b, P.MAGIC_FREE, NULL);
    MagicAfterMark(p.h, b, P.MAGIC_FREE, NULL);
    MagicIs(p.h, b);
    Inv.UncachedIsSound(c, s, b);
    forall d | 0 <= d < |specs| ensures P.Sensible(SpecOf(specs[d])) && Inv.Sound(SpecOf(specs[d]), AbsOf(p1, d)) {
      if d != bin { assert Inv.Sound(SpecOf(specs[d]), AbsOf(p, d)) && AbsOf(p1, d) == AbsOf(p, d); }
    }
  }

  // --- A thread leaves --------------------------------------------------------------------------------

  lemma {:induction false} FlushAllIsBatches(c: P.Spec, s: P.State, t: nat)
    requires P.HasCache(s, t) && c.batch > 0
    ensures var r, cache := P.FlushAll(c, s, t), s.caches[t].cache;
            r == s.(chunks := T.Batches(cache.blocks, c.batch) + s.chunks,
                    caches := s.caches[t := P.Attached(cache.(blocks := []))])
    decreases |s.caches[t].cache.blocks|
  {
    var cache := s.caches[t].cache;
    if cache.blocks == [] {
      assert s.caches[t := s.caches[t]] == s.caches;
      assert [] + s.chunks == s.chunks;
    } else {
      var take := Less(c.batch, |cache.blocks|);
      var once := P.FlushOnce(c, s, t);
      FlushAllIsBatches(c, once, t);
      assert once.caches[t := P.Attached(cache.(blocks := []))] == s.caches[t := P.Attached(cache.(blocks := []))];
      assert T.Batches(cache.blocks[take..], c.batch) + ([cache.blocks[..take]] + s.chunks)
          == T.Batches(cache.blocks[take..], c.batch) + [cache.blocks[..take]] + s.chunks;
    }
  }

  // What Detach leaves: the thread's lists in the store, its counters retired, its cache gone.
  ghost predicate Left(p: Picture, p1: Picture, t: nat, specs: seq<BinSpec>)
    requires Sized(p, |specs|) && Sized(p1, |specs|) && t < |p.views|
  {
    var v := p.views[t];
    && v.View? && |specs| == |v.chains| == |v.acquired| == |v.released|
    && p1.headerSize == p.headerSize && p1.views == p.views[t := NoCache] && p1.live == p.live
    && T.OnlyLinks(p.h, p1.h, T.AllElements(v.chains))
    && G.AllOk(p1.h, p1.nodes, p1.headerSize, p1.bins, p1.chunks)
    && (forall b :: 0 <= b < |specs| ==>
          && specs[b].batchBlocks > 0
          && p1.chunks[b] == T.Batches(v.chains[b], specs[b].batchBlocks) + p.chunks[b]
          && p1.retiredAcquire[b] == p.retiredAcquire[b] + v.acquired[b]
          && p1.retiredRelease[b] == p.retiredRelease[b] + v.released[b])
  }

  lemma DetachShows(p: Picture, p1: Picture, specs: seq<BinSpec>, t: nat, bin: nat)
    requires Sized(p, |specs|) && Sized(p1, |specs|) && t < |p.views| && Left(p, p1, t, specs) && bin < |specs|
    ensures P.HasCache(AbsOf(p, bin), t) && AbsOf(p1, bin) == P.DetachNext(SpecOf(specs[bin]), AbsOf(p, bin), t)
  {
    hide G.AllOk, T.OnlyLinks, MagicOf;
    var s := AbsOf(p, bin);
    MagicKeptByLinks(p.h, p1.h, T.AllElements(p.views[t].chains));
    FlushAllIsBatches(SpecOf(specs[bin]), s, t);
    SlotsUpdate(p.views, t, NoCache, bin);
    var cache := s.caches[t].cache;
    assert s.caches[t := P.Attached(cache.(blocks := []))][t := P.Gone] == s.caches[t := P.Gone];
  }

  lemma DetachStep(p: Picture, p1: Picture, specs: seq<BinSpec>, t: nat)
    requires Sound(p, specs) && Sized(p1, |specs|) && t < |p.views| && Left(p, p1, t, specs)
    ensures Sound(p1, specs)
    ensures forall b :: 0 <= b < |specs| ==>
              P.HasCache(AbsOf(p, b), t) && AbsOf(p1, b) == P.DetachNext(SpecOf(specs[b]), AbsOf(p, b), t)
  {
    hide G.AllOk, Inv.Sound, MagicOf, T.OnlyLinks, P.DetachNext;
    forall b | 0 <= b < |specs|
      ensures P.HasCache(AbsOf(p, b), t) && AbsOf(p1, b) == P.DetachNext(SpecOf(specs[b]), AbsOf(p, b), t)
      ensures P.Sensible(SpecOf(specs[b])) && Inv.Sound(SpecOf(specs[b]), AbsOf(p1, b))
    {
      DetachShows(p, p1, specs, t, b);
      assert Inv.Sound(SpecOf(specs[b]), AbsOf(p, b));
      Inv.DetachIsSound(SpecOf(specs[b]), AbsOf(p, b), t);
    }
    forall u | 0 <= u < |p1.views| ensures ViewOk(p1.h, p1.views[u], |specs|) {
      if u != t { LeaverTouchesNoOne(p, p1.h, specs, t, u); }
    }
  }

  // The lists of other threads share no block with the leaver's.
  lemma LeaverTouchesNoOne(p: Picture, h': Headers, specs: seq<BinSpec>, t: nat, u: nat)
    requires Sound(p, specs) && t < |p.views| && p.views[t].View? && u < |p.views| && u != t
    requires T.OnlyLinks(p.h, h', T.AllElements(p.views[t].chains))
    ensures ViewOk(h', p.views[u], |specs|)
  {
    var v, w := p.views[t], p.views[u];
    assert ViewOk(p.h, v, |specs|) && ViewOk(p.h, w, |specs|);
    if w.View? {
      forall d | 0 <= d < |specs| ensures T.ListOk(h', w.lists[d], w.chains[d], d) {
        assert T.ListOk(p.h, w.lists[d], w.chains[d], d);
        SoundParts(SpecOf(specs[d]), AbsOf(p, d));
        forall x | x in w.chains[d] ensures x in p.h && h'[x] == p.h[x] {
          if x in T.AllElements(v.chains) {
            var e :| 0 <= e < |v.chains| && x in v.chains[e];
            assert T.ListOk(p.h, v.lists[e], v.chains[e], e);
            assert InSlot(AbsOf(p, d).caches[t], x) && InSlot(AbsOf(p, d).caches[u], x);
            CachedIsNotStored(AbsOf(p, d), t, x);
          }
        }
        LinksKept(p.h, h', w.chains[d], d);
      }
    }
  }

  // --- A thread's first use ---------------------------------------------------------------------------

  lemma AttachStep(p: Picture, specs: seq<BinSpec>, t: nat, v: View)
    requires Sound(p, specs) && t < |p.views| && p.views[t].NoCache? && v.View?
    requires v.chains == seq(|specs|, _ => []) && v.acquired == v.released == seq(|specs|, _ => 0) && ViewOk(p.h, v, |specs|)
    ensures var p1 := p.(views := p.views[t := v]);
            && Sound(p1, specs)
            && forall b :: 0 <= b < |specs| ==>
                 && P.Enabled(SpecOf(specs[b]), AbsOf(p, b), P.Attach(t))
                 && AbsOf(p1, b) == P.Next(SpecOf(specs[b]), AbsOf(p, b), P.Attach(t))
  {
    hide G.AllOk, Inv.Sound, MagicOf, T.ListsOk;
    var p1 := p.(views := p.views[t := v]);
    forall b | 0 <= b < |specs|
      ensures P.Enabled(SpecOf(specs[b]), AbsOf(p, b), P.Attach(t))
      ensures AbsOf(p1, b) == P.Next(SpecOf(specs[b]), AbsOf(p, b), P.Attach(t)) && Inv.Sound(SpecOf(specs[b]), AbsOf(p1, b))
    {
      SlotsUpdate(p.views, t, v, b);
      Inv.AttachIsSound(SpecOf(specs[b]), AbsOf(p, b), t);
    }
  }

  // --- Headers outside the bins: blocks straight from the heap ---------------------------------------------

  lemma OutsideStep(p: Picture, h': Headers, specs: seq<BinSpec>, b: Addr)
    requires Sound(p, specs)
    requires forall x :: x != b ==> (x in h' <==> x in p.h) && (x in h' ==> h'[x] == p.h[x])
    requires (b in p.h ==> p.h[b].binIndex >= |specs|) && (b in h' ==> h'[b].binIndex >= |specs|)
    ensures var p1 := p.(h := h');
            Sound(p1, specs) && forall c :: 0 <= c < |specs| ==> AbsOf(p1, c) == AbsOf(p, c)
  {
    hide Inv.Sound;
    var p1 := p.(h := h');
    forall c, i, x | 0 <= c < |p.chunks| && 0 <= i < |p.chunks[c]| && x in p.chunks[c][i] ensures x in p.h && x != b {
      assert G.BinOk(p.h, p.nodes, p.headerSize, p.bins[c], p.chunks[c], c);
      assert ChunkAt(p.h, p.nodes, p.headerSize, p.bins[c].chunkList[i], p.chunks[c][i], c);
    }
    AllKept(p.h, h', p.nodes, p.headerSize, p.bins, p.chunks);
    forall t | 0 <= t < |p.views| ensures ViewOk(h', p.views[t], |specs|) {
      assert ViewOk(p.h, p.views[t], |specs|);
      if p.views[t].View? {
        forall d | 0 <= d < |specs| ensures T.ListOk(h', p.views[t].lists[d], p.views[t].chains[d], d) {
          assert T.ListOk(p.h, p.views[t].lists[d], p.views[t].chains[d], d);
          LinksKept(p.h, h', p.views[t].chains[d], d);
        }
      }
    }
    forall c | 0 <= c < |specs| ensures AbsOf(p1, c) == AbsOf(p, c) && P.Sensible(SpecOf(specs[c])) && Inv.Sound(SpecOf(specs[c]), AbsOf(p1, c)) {
      assert MagicOf(h', c) == MagicOf(p.h, c);
      assert Inv.Sound(SpecOf(specs[c]), AbsOf(p, c));
    }
  }

  lemma AllKept(h: Headers, h': Headers, nodes: Nodes, headerSize: nat, bins: seq<G.Bin>, chunks: seq<seq<seq<Addr>>>)
    requires G.AllOk(h, nodes, headerSize, bins, chunks)
    requires forall c, i, x :: 0 <= c < |chunks| && 0 <= i < |chunks[c]| && x in chunks[c][i] ==> x in h && x in h' && h'[x] == h[x]
    ensures G.AllOk(h', nodes, headerSize, bins, chunks)
  {
    forall b | 0 <= b < |bins| ensures G.BinOk(h', nodes, headerSize, bins[b], chunks[b], b) {
      assert G.BinOk(h, nodes, headerSize, bins[b], chunks[b], b);
      forall i | 0 <= i < |bins[b].chunkList| ensures bins[b].chunkList[i] in nodes {
        assert ChunkAt(h, nodes, headerSize, bins[b].chunkList[i], chunks[b][i], b);
      }
      ChunksKept(h, h', nodes, nodes, headerSize, bins[b].chunkList, chunks[b], b);
    }
  }

  // The mark in the header of a pooled block says whether the block is live.
  lemma MarkTells(p: Picture, specs: seq<BinSpec>, b: Addr)
    requires Sound(p, specs) && b in p.h && p.h[b].binIndex < |specs|
    ensures p.h[b].magic == P.MAGIC_LIVE <==> b in p.live[p.h[b].binIndex]
    ensures b in AbsOf(p, p.h[b].binIndex).magic && AbsOf(p, p.h[b].binIndex).magic[b] == p.h[b].magic
  {
    var s := AbsOf(p, p.h[b].binIndex);
    SoundParts(SpecOf(specs[p.h[b].binIndex]), s);
    MagicIs(p.h, b);
    Inv.LiveMagic(s, b);
  }

  lemma LiveIsMapped(p: Picture, specs: seq<BinSpec>, bin: nat, b: Addr)
    requires Sound(p, specs) && bin < |specs| && b in p.live[bin]
    ensures b in p.h && p.h[b].binIndex == bin && p.h[b].magic == P.MAGIC_LIVE
  {
    var s := AbsOf(p, bin);
    SoundParts(SpecOf(specs[bin]), s);
    assert Inv.Placed(s, b);
  }

  lemma LooseIsNewHead(p: Picture, b: Addr)
    requires Loose(p, b)
    ensures G.NewHead(p.chunks, b)
  {
    forall c, i | 0 <= c < |p.chunks| && 0 <= i < |p.chunks[c]| && p.chunks[c][i] != [] ensures p.chunks[c][i][0] != b {
      assert !InStore(p.chunks[c], b);
    }
  }

  lemma AloneLinks(h: Headers, b: Addr, bin: nat)
    requires b in h && b != NULL && h[b].next == NULL && h[b].binIndex == bin
    ensures Links(h, [b], bin)
  {
  }

  // A thread's lists share nothing with the store.
  lemma ListsApart(p: Picture, specs: seq<BinSpec>, t: nat)
    requires Sound(p, specs) && t < |p.views| && p.views[t].View?
    ensures T.AllApart(p.views[t].chains, p.chunks)
  {
    var v := p.views[t];
    assert ViewOk(p.h, v, |specs|);
    forall d | 0 <= d < |v.chains| ensures T.Apart(v.chains[d], p.chunks) {
      SoundParts(SpecOf(specs[d]), AbsOf(p, d));
      forall c, i, x | 0 <= c < |p.chunks| && 0 <= i < |p.chunks[c]| && x in p.chunks[c][i] ensures x !in v.chains[d] {
        if x in v.chains[d] {
          OfOneBin(p, specs, t, d, c, i, x);
          assert InSlot(AbsOf(p, d).caches[t], x) && InStore(p.chunks[d], x);
          CachedIsNotStored(AbsOf(p, d), t, x);
        }
      }
    }
  }

  lemma StillOk(p: Picture, h': Headers, specs: seq<BinSpec>)
    requires Sound(p.(h := h'), specs)
    ensures G.AllOk(h', p.nodes, p.headerSize, p.bins, p.chunks)
  {
  }
}
