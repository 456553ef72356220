/**
 The bin as an allocator of live blocks: every created block is in exactly one place, no live block is
 handed out again, the counters account for every live block, and caches stay small and calm.
 */
module BlockPoolInvariants {
  import opened Tally
  import opened BlockPoolProtocol

  function Is(b: Addr): Addr -> nat { (x: Addr) => if x == b then 1 else 0 }

  // How often a block occurs in the global store, and in the caches.
  function InChunks(chunks: seq<seq<Addr>>, b: Addr): nat
  {
    Total(chunks, (chunk: seq<Addr>) => Total(chunk, Is(b)))
  }

  function InSlot(slot: Slot, b: Addr): nat
  {
    if slot.Attached? then Total(slot.cache.blocks, Is(b)) else 0
  }

  function InCaches(caches: seq<Slot>, b: Addr): nat
  {
    Total(caches, (slot: Slot) => InSlot(slot, b))
  }

  // Every created block is in exactly one of: a chunk, a cache, a caller's hands.
  ghost predicate Placed(s: State, b: Addr)
  {
    InChunks(s.chunks, b) + InCaches(s.caches, b) + One(b in s.live) == One(b in s.magic)
  }

  ghost predicate AllPlaced(s: State)
  {
    && (forall b: Addr :: Placed(s, b))
    && (forall b :: b in s.magic ==> s.magic[b] == if b in s.live then MAGIC_LIVE else MAGIC_FREE)
  }

  ghost predicate SmallChunks(c: Spec, chunks: seq<seq<Addr>>)
  {
    forall i :: 0 <= i < |chunks| ==> 1 <= |chunks[i]| <= c.batch
  }

  // No cache above its cap between operations.
  ghost predicate SmallCaches(c: Spec, s: State)
  {
    forall t: nat :: HasCache(s, t) ==> |s.caches[t].cache.blocks| <= c.cap
  }

  function Acquired(slot: Slot): nat { if slot.Attached? then slot.cache.acquired else 0 }
  function Released(slot: Slot): nat { if slot.Attached? then slot.cache.released else 0 }

  // SumCounters: acquires less releases, over retired and attached caches, are the live blocks.
  ghost predicate Accounted(s: State)
  {
    s.retiredAcquire + Total(s.caches, Acquired) == s.retiredRelease + Total(s.caches, Released) + |s.live|
  }

  ghost predicate Sound(c: Spec, s: State)
  {
    AllPlaced(s) && SmallChunks(c, s.chunks) && SmallCaches(c, s) && Accounted(s)
  }

  // --- Counting ---------------------------------------------------------------------------------

  lemma ChunkOnTop(chunk: seq<Addr>, chunks: seq<seq<Addr>>, b: Addr)
    ensures InChunks([chunk] + chunks, b) == Total(chunk, Is(b)) + InChunks(chunks, b)
  {
    var w := (chunk: seq<Addr>) => Total(chunk, Is(b));
    Concat([chunk], chunks, w);
    Single(chunk, w);
  }

  lemma {:induction false} ChunksOnTop(grown: seq<seq<Addr>>, chunks: seq<seq<Addr>>, b: Addr)
    ensures InChunks(grown + chunks, b) == Total(Flat(grown), Is(b)) + InChunks(chunks, b)
  {
    if grown == [] {
      assert grown + chunks == chunks;
    } else {
      ChunksOnTop(grown[1..], chunks, b);
      ChunkOnTop(grown[0], grown[1..] + chunks, b);
      assert [grown[0]] + (grown[1..] + chunks) == grown + chunks;
      Concat(grown[0], Flat(grown[1..]), Is(b));
    }
  }

  lemma {:induction false} AbsentCounts(blocks: seq<Addr>, b: Addr)
    requires b !in blocks
    ensures Total(blocks, Is(b)) == 0
  {
    forall i | 0 <= i < |blocks| ensures Is(b)(blocks[i]) == 0 {
      assert blocks[i] in blocks;
    }
    Zero(blocks, Is(b));
  }

  // A sequence without repetition holds each of its elements once.
  lemma {:induction false} DistinctCounts(blocks: seq<Addr>, b: Addr)
    requires forall i, j :: 0 <= i < j < |blocks| ==> blocks[i] != blocks[j]
    ensures Total(blocks, Is(b)) == One(b in blocks)
  {
    if blocks != [] {
      var last := |blocks| - 1;
      DistinctCounts(blocks[..last], b);
      assert blocks == blocks[..last] + [blocks[last]];
      if b == blocks[last] {
        assert b !in blocks[..last];
      }
    }
  }

  lemma SlotMoves(caches: seq<Slot>, t: nat, slot: Slot, b: Addr)
    requires t < |caches|
    ensures InCaches(caches[t := slot], b) + InSlot(caches[t], b) == InCaches(caches, b) + InSlot(slot, b)
  {
    Update(caches, t, slot, (x: Slot) => InSlot(x, b));
  }

  lemma CountersMove(caches: seq<Slot>, t: nat, slot: Slot)
    requires t < |caches|
    ensures Total(caches[t := slot], Acquired) + Acquired(caches[t]) == Total(caches, Acquired) + Acquired(slot)
    ensures Total(caches[t := slot], Released) + Released(caches[t]) == Total(caches, Released) + Released(slot)
  {
    Update(caches, t, slot, Acquired);
    Update(caches, t, slot, Released);
  }

  // --- What each piece of an operation keeps ------------------------------------------------------

  lemma GrowKeepsPlaces(c: Spec, s: State, grown: seq<seq<Addr>>)
    requires AllPlaced(s) && FreshChunks(c, s, grown)
    ensures AllPlaced(Grow(s, grown))
  {
    hide InChunks, InCaches;
    var r := Grow(s, grown);
    forall b: Addr ensures Placed(r, b) {
      assert Placed(s, b);
      ChunksOnTop(grown, s.chunks, b);
      DistinctCounts(Flat(grown), b);
    }
    forall b | b in s.live ensures b in s.magic {
      assert Placed(s, b);
    }
  }

  // Moving the top chunk into an empty free list.
  lemma RefillKeepsPlaces(c: Spec, s: State, t: nat, grown: seq<seq<Addr>>)
    requires AllPlaced(s) && HasCache(s, t) && s.caches[t].cache.blocks == [] && FreshChunks(c, s, grown)
    ensures AllPlaced(Refill(s, t, grown)) && HasCache(Refill(s, t, grown), t)
  {
    hide InChunks, InCaches, Placed;
    var stocked := if s.chunks == [] then Grow(s, grown) else s;
    if s.chunks == [] { GrowKeepsPlaces(c, s, grown); }
    var r := Refill(s, t, grown);
    forall b: Addr ensures Placed(r, b) {
      assert Placed(stocked, b);
      ChunkMovesToCache(stocked, t, b);
    }
  }

  lemma ChunkMovesToCache(s: State, t: nat, b: Addr)
    requires HasCache(s, t) && s.caches[t].cache.blocks == [] && Placed(s, b)
    ensures s.chunks != [] ==>
              Placed(WithCache(s, t, s.caches[t].cache.(blocks := s.chunks[0])).(chunks := s.chunks[1..]), b)
  {
    hide InChunks, InCaches;
    if s.chunks != [] {
      SlotMoves(s.caches, t, Attached(s.caches[t].cache.(blocks := s.chunks[0])), b);
      ChunkOnTop(s.chunks[0], s.chunks[1..], b);
      assert [s.chunks[0]] + s.chunks[1..] == s.chunks;
    }
  }

  // The head of the free list is not live, and becomes so.
  lemma TakeKeepsPlaces(s: State, t: nat)
    requires AllPlaced(s) && HasCache(s, t)
    ensures AllPlaced(Take(s, t))
    ensures var blocks := s.caches[t].cache.blocks; blocks != [] ==> blocks[0] !in s.live && blocks[0] in s.magic
  {
    hide InChunks;
    var cache := s.caches[t].cache;
    if cache.blocks != [] {
      var h := cache.blocks[0];
      var slot := Attached(Cache(cache.blocks[1..], cache.acquired + 1, cache.released));
      forall b: Addr ensures Placed(Take(s, t), b) && (b == h ==> b !in s.live && b in s.magic) {
        assert Placed(s, b);
        SlotMoves(s.caches, t, slot, b);
        HeadTail(cache.blocks, Is(b));
        AtLeast(s.caches, t, (x: Slot) => InSlot(x, b));
      }
      assert Placed(s, h);
    }
  }

  lemma FlushKeepsPlaces(c: Spec, s: State, t: nat)
    requires AllPlaced(s) && HasCache(s, t)
    ensures AllPlaced(FlushOnce(c, s, t))
  {
    hide InChunks, InCaches;
    var blocks := s.caches[t].cache.blocks;
    if blocks != [] {
      var take := if c.batch > |blocks| then |blocks| else c.batch;
      forall b: Addr ensures Placed(FlushOnce(c, s, t), b) {
        assert Placed(s, b);
        SlotMoves(s.caches, t, Attached(s.caches[t].cache.(blocks := blocks[take..])), b);
        ChunkOnTop(blocks[..take], s.chunks, b);
        Concat(blocks[..take], blocks[take..], Is(b));
        assert blocks[..take] + blocks[take..] == blocks;
      }
    }
  }

  // The pushed block joins the cache and stops being live.
  lemma PushKeepsPlaces(s: State, t: nat, b: Addr)
    requires AllPlaced(s) && HasCache(s, t) && b in s.live
    ensures AllPlaced(Pushed(s, t, b))
  {
    hide InChunks, InCaches;
    var cache := s.caches[t].cache;
    var slot := Attached(Cache([b] + cache.blocks, cache.acquired, cache.released + 1));
    assert Placed(s, b);
    forall x: Addr ensures Placed(Pushed(s, t, b), x) {
      assert Placed(s, x);
      SlotMoves(s.caches, t, slot, x);
      HeadTail([b] + cache.blocks, Is(x));
      assert ([b] + cache.blocks)[1..] == cache.blocks;
    }
  }

  lemma {:induction false} FlushAllKeepsPlaces(c: Spec, s: State, t: nat)
    requires AllPlaced(s) && HasCache(s, t) && c.batch > 0 && SmallChunks(c, s.chunks)
    ensures var r := FlushAll(c, s, t);
            && AllPlaced(r) && SmallChunks(c, r.chunks)
            && |r.caches| == |s.caches| && HasCache(r, t) && r.caches[t].cache.blocks == []
            && r.caches == s.caches[t := r.caches[t]] && r.live == s.live
            && r.caches[t].cache.acquired == s.caches[t].cache.acquired
            && r.caches[t].cache.released == s.caches[t].cache.released
    decreases |s.caches[t].cache.blocks|
  {
    hide AllPlaced;
    if s.caches[t].cache.blocks == [] {
      assert s.caches[t := s.caches[t]] == s.caches;
    } else {
      FlushKeepsPlaces(c, s, t);
      FlushAllKeepsPlaces(c, FlushOnce(c, s, t), t);
    }
  }

  // --- Each operation -----------------------------------------------------------------------------

  lemma FreshAreSmall(c: Spec, s: State, grown: seq<seq<Addr>>)
    requires FreshChunks(c, s, grown)
    ensures SmallChunks(c, grown)
  {
    hide Flat;
  }

  // Filling an empty list leaves sizes and counters as they should be.
  lemma RefillKeepsSizes(c: Spec, s: State, t: nat, grown: seq<seq<Addr>>)
    requires SmallChunks(c, s.chunks) && SmallChunks(c, grown) && Accounted(s)
    requires HasCache(s, t) && s.caches[t].cache.blocks == [] && (c.cap > 0 ==> c.batch <= c.cap) && (c.cap == 0 ==> c.batch == 1)
    ensures var r := Refill(s, t, grown);
            && SmallChunks(c, r.chunks) && Accounted(r) && r.live == s.live
            && |r.caches| == |s.caches| && HasCache(r, t) && r.caches == s.caches[t := r.caches[t]]
            && |r.caches[t].cache.blocks| <= c.cap + 1
  {
    hide Total, Flat, Marked;
    var r := Refill(s, t, grown);
    assert s.caches[t := s.caches[t]] == s.caches;
    CountersMove(s.caches, t, r.caches[t]);
  }

  lemma ReadyKeeps(c: Spec, s: State, t: nat, grown: seq<seq<Addr>>)
    requires Sensible(c) && Sound(c, s) && HasCache(s, t) && FreshChunks(c, s, grown)
    ensures var r := Ready(s, t, grown);
            && AllPlaced(r) && SmallChunks(c, r.chunks) && Accounted(r) && r.live == s.live
            && |r.caches| == |s.caches| && HasCache(r, t) && r.caches == s.caches[t := r.caches[t]]
            && |r.caches[t].cache.blocks| <= c.cap + 1
  {
    hide AllPlaced, FreshChunks, SmallChunks, Accounted, Refill;
    if s.caches[t].cache.blocks == [] {
      RefillKeepsPlaces(c, s, t, grown);
      FreshAreSmall(c, s, grown);
      RefillKeepsSizes(c, s, t, grown);
    } else {
      assert s.caches[t := s.caches[t]] == s.caches;
    }
  }

  lemma TakeAccounts(s: State, t: nat)
    requires HasCache(s, t) && Accounted(s)
    requires s.caches[t].cache.blocks != [] ==> s.caches[t].cache.blocks[0] !in s.live
    ensures Accounted(Take(s, t))
  {
    CountersMove(s.caches, t, Take(s, t).caches[t]);
  }

  lemma AcquireIsSound(c: Spec, s: State, t: nat, grown: seq<seq<Addr>>)
    requires Sensible(c) && Sound(c, s) && Enabled(c, s, Acquire(t, grown))
    ensures Sound(c, AcquireNext(s, t, grown))
    ensures var r := AcquireNext(s, t, grown);
            var handed := AcquireResult(s, t, grown);
            && (handed == [] ==> r.live == s.live)
            && (handed != [] ==> handed[0] !in s.live && r.live == s.live + {handed[0]} && handed[0] in r.magic)
  {
    hide AllPlaced, FreshChunks, Refill, Accounted;
    ReadyKeeps(c, s, t, grown);
    var ready := Ready(s, t, grown);
    TakeKeepsPlaces(ready, t);
    TakeAccounts(ready, t);
    var r := AcquireNext(s, t, grown);
    forall u: nat | HasCache(r, u) ensures |r.caches[u].cache.blocks| <= c.cap {
      if u != t { assert s.caches[u] == r.caches[u] && HasCache(s, u); }
    }
  }

  lemma ReleaseIsSound(c: Spec, s: State, t: nat, b: Addr)
    requires Sensible(c) && Sound(c, s) && Enabled(c, s, Release(t, b))
    ensures Sound(c, ReleaseNext(c, s, t, b))
    ensures ReleaseNext(c, s, t, b).live == s.live - {b}
    ensures b !in s.live ==> ReleaseNext(c, s, t, b) == s
  {
    LiveMagic(s, b);
    hide AllPlaced;
    if b in s.live {
      PushKeepsPlaces(s, t, b);
      FlushKeepsPlaces(c, Pushed(s, t, b), t);
      var r := ReleaseNext(c, s, t, b);
      CountersMove(s.caches, t, r.caches[t]);
      assert |s.live - {b}| == |s.live| - 1;
      assert r.caches == s.caches[t := r.caches[t]];
      forall u: nat | HasCache(r, u) ensures |r.caches[u].cache.blocks| <= c.cap {
        if u != t { assert s.caches[u] == r.caches[u] && HasCache(s, u); }
      }
    }
  }

  lemma LiveMagic(s: State, b: Addr)
    requires AllPlaced(s) && b in s.magic
    ensures s.magic[b] == MAGIC_LIVE <==> b in s.live
  {
  }

  lemma UncachedIsSound(c: Spec, s: State, b: Addr)
    requires Sensible(c) && Sound(c, s) && Enabled(c, s, ReleaseUncached(b))
    ensures Sound(c, ReleaseUncachedNext(s, b))
  {
    LiveMagic(s, b);
    if b in s.live {
      hide InChunks, InCaches, Total;
      var r := ReleaseUncachedNext(s, b);
      assert Placed(s, b);
      forall x: Addr ensures Placed(r, x) {
        assert Placed(s, x);
        ChunkOnTop([b], s.chunks, x);
        Single(b, Is(x));
      }
    }
  }

  lemma DetachIsSound(c: Spec, s: State, t: nat)
    requires Sensible(c) && Sound(c, s) && Enabled(c, s, Detach(t))
    ensures Sound(c, DetachNext(c, s, t))
  {
    hide FlushAll, InChunks, InCaches, Total;
    FlushAllKeepsPlaces(c, s, t);
    var flushed := FlushAll(c, s, t);
    var r := DetachNext(c, s, t);
    CountersMove(s.caches, t, Gone);
    assert r.caches == flushed.caches[t := Gone];
    forall b: Addr ensures Placed(r, b) {
      assert Placed(flushed, b);
      SlotMoves(flushed.caches, t, Gone, b);
      AbsentCounts([], b);
    }
  }

  lemma AttachIsSound(c: Spec, s: State, t: nat)
    requires Sensible(c) && Sound(c, s) && Enabled(c, s, Attach(t))
    ensures Sound(c, Next(c, s, Attach(t)))
  {
    hide InChunks, InCaches;
    var empty := Attached(Cache([], 0, 0));
    CountersMove(s.caches, t, empty);
    forall b: Addr ensures Placed(Next(c, s, Attach(t)), b) {
      assert Placed(s, b);
      SlotMoves(s.caches, t, empty, b);
      AbsentCounts([], b);
    }
  }

  lemma NextIsSound(c: Spec, s: State, a: Action)
    requires Sensible(c) && Sound(c, s) && Enabled(c, s, a)
    ensures Sound(c, Next(c, s, a))
  {
    hide Sound;
    match a {
      case Preallocate(grown) => PreallocateIsSound(c, s, grown);
      case Attach(t) => AttachIsSound(c, s, t);
      case Detach(t) => DetachIsSound(c, s, t);
      case Acquire(t, grown) => AcquireIsSound(c, s, t, grown);
      case Release(t, b) => ReleaseIsSound(c, s, t, b);
      case ReleaseUncached(b) => UncachedIsSound(c, s, b);
    }
  }

  lemma PreallocateIsSound(c: Spec, s: State, grown: seq<seq<Addr>>)
    requires Sensible(c) && Sound(c, s) && FreshChunks(c, s, grown)
    ensures Sound(c, Grow(s, grown))
  {
    hide AllPlaced;
    GrowKeepsPlaces(c, s, grown);
  }

  lemma InitialIsSound(c: Spec, s: State)
    requires Initial(s)
    ensures Sound(c, s)
  {
    forall b: Addr ensures Placed(s, b) {
      Zero(s.caches, (slot: Slot) => InSlot(slot, b));
    }
    Zero(s.caches, Acquired);
    Zero(s.caches, Released);
  }

  lemma {:induction false} RunIsSound(c: Spec, s: State, schedule: seq<Action>)
    requires Sensible(c) && Sound(c, s) && Runs(c, s, schedule)
    ensures Sound(c, After(c, s, schedule))
    decreases |schedule|
  {
    hide Sound, Next, Enabled;
    if schedule != [] {
      NextIsSound(c, s, schedule[0]);
      RunIsSound(c, Next(c, s, schedule[0]), schedule[1..]);
    }
  }

  // --- Theorems -----------------------------------------------------------------------------------

  // Over every run of acquires, releases, attaches and detaches by any threads: each created block is
  // in exactly one chunk, one cache, or live, and marked accordingly; Acquire never hands out a live
  // block; a second Release changes nothing; no cache ends an operation above its cap; and the
  // counters a finalizer adds up are the number of live blocks.
  lemma BlocksHaveOnePlace(c: Spec, s0: State, schedule: seq<Action>)
    requires Sensible(c) && Initial(s0) && Runs(c, s0, schedule)
    ensures var s := After(c, s0, schedule);
            && (forall b: Addr :: InChunks(s.chunks, b) + InCaches(s.caches, b) + One(b in s.live) == One(b in s.magic))
            && (forall b :: b in s.magic ==> (s.magic[b] == MAGIC_LIVE <==> b in s.live))
            && (forall t: nat, grown: seq<seq<Addr>> :: Enabled(c, s, Acquire(t, grown)) && AcquireResult(s, t, grown) != [] ==>
                  AcquireResult(s, t, grown)[0] !in s.live)
            && (forall t: nat, b: Addr :: Enabled(c, s, Release(t, b)) && b !in s.live ==> ReleaseNext(c, s, t, b) == s)
            && (forall t: nat :: HasCache(s, t) ==> |s.caches[t].cache.blocks| <= c.cap)
            && s.retiredAcquire + Total(s.caches, Acquired) - s.retiredRelease - Total(s.caches, Released) == |s.live|
  {
    hide Runs, After, Initial, FreshChunks, AcquireNext, AcquireResult, ReleaseNext, InChunks, InCaches, Total;
    var s := After(c, s0, schedule);
    InitialIsSound(c, s0);
    RunIsSound(c, s0, schedule);
    forall b: Addr ensures InChunks(s.chunks, b) + InCaches(s.caches, b) + One(b in s.live) == One(b in s.magic) {
      assert Placed(s, b);
    }
    forall t: nat, grown: seq<seq<Addr>> | Enabled(c, s, Acquire(t, grown)) && AcquireResult(s, t, grown) != []
      ensures AcquireResult(s, t, grown)[0] !in s.live
    {
      AcquireIsSound(c, s, t, grown);
    }
    forall t: nat, b: Addr | Enabled(c, s, Release(t, b)) && b !in s.live
      ensures ReleaseNext(c, s, t, b) == s
    {
      ReleaseIsSound(c, s, t, b);
    }
  }

  // --- Hysteresis ---------------------------------------------------------------------------------

  // What one cache operation does to the length of the free list, and whether it goes to the global
  // store; refill is the size of the chunk a refill gets.
  datatype CacheOp = PopOp(refill: nat) | PushOp

  function Length(c: Spec, n: nat, op: CacheOp): nat
  {
    match op
    case PopOp(refill) => if n > 0 then n - 1 else if refill > 0 then refill - 1 else 0
    case PushOp => if n + 1 <= c.cap then n + 1 else if n + 1 < c.batch then 0 else n + 1 - c.batch
  }

  predicate GoesGlobal(c: Spec, n: nat, op: CacheOp)
  {
    match op
    case PopOp(_) => n == 0
    case PushOp => n + 1 > c.cap
  }

  function LengthAfter(c: Spec, n: nat, ops: seq<CacheOp>): nat
    decreases |ops|
  {
    if ops == [] then n else LengthAfter(c, Length(c, n, ops[0]), ops[1..])
  }

  ghost predicate StaysLocal(c: Spec, n: nat, ops: seq<CacheOp>)
    decreases |ops|
  {
    ops == [] || (!GoesGlobal(c, n, ops[0]) && StaysLocal(c, Length(c, n, ops[0]), ops[1..]))
  }

  // The lengths are those of the free lists above.
  lemma LengthsAreReal(c: Spec, s: State, t: nat, grown: seq<seq<Addr>>, b: Addr)
    requires Sensible(c) && HasCache(s, t) && b in s.magic
    ensures s.magic[b] == MAGIC_LIVE ==>
              |ReleaseNext(c, s, t, b).caches[t].cache.blocks| == Length(c, |s.caches[t].cache.blocks|, PushOp)
              && (ReleaseNext(c, s, t, b).chunks != s.chunks <==> GoesGlobal(c, |s.caches[t].cache.blocks|, PushOp))
    ensures s.caches[t].cache.blocks != [] ==>
              |AcquireNext(s, t, grown).caches[t].cache.blocks| == Length(c, |s.caches[t].cache.blocks|, PopOp(0))
              && AcquireNext(s, t, grown).chunks == s.chunks
  {
    if s.magic[b] == MAGIC_LIVE {
      assert |ReleaseNext(c, s, t, b).chunks| == |s.chunks| + One(GoesGlobal(c, |s.caches[t].cache.blocks|, PushOp));
    }
  }

  // A list away from both ends by more than the number of operations does not reach them.
  lemma {:induction false} FarFromBothEnds(c: Spec, n: nat, ops: seq<CacheOp>)
    requires |ops| <= n && n + |ops| <= c.cap
    ensures StaysLocal(c, n, ops)
    decreases |ops|
  {
    if ops != [] {
      FarFromBothEnds(c, Length(c, n, ops[0]), ops[1..]);
    }
  }

  // After a flush caused by a push, the next exchange with the global store comes with the
  // batch-th further operation at the earliest; with pushes only it comes exactly then.
  lemma CalmAfterFlush(c: Spec, ops: seq<CacheOp>)
    requires Sensible(c) && c.cap > 0 && |ops| < c.batch
    ensures var n := Length(c, c.cap, PushOp);
            GoesGlobal(c, c.cap, PushOp) && n == c.cap + 1 - c.batch && StaysLocal(c, n, ops)
  {
    FarFromBothEnds(c, c.cap + 1 - c.batch, ops);
  }

  lemma {:induction false} PushesFill(c: Spec, n: nat, k: nat)
    requires n + k <= c.cap
    ensures LengthAfter(c, n, seq(k, _ => PushOp)) == n + k
    decreases k
  {
    if k > 0 {
      assert seq(k, _ => PushOp)[1..] == seq(k - 1, _ => PushOp);
      PushesFill(c, n + 1, k - 1);
    }
  }

  lemma BatchPushesFlushAgain(c: Spec)
    requires Sensible(c) && c.cap > 0
    ensures GoesGlobal(c, LengthAfter(c, Length(c, c.cap, PushOp), seq(c.batch - 1, _ => PushOp)), PushOp)
  {
    PushesFill(c, c.cap + 1 - c.batch, c.batch - 1);
  }
}
