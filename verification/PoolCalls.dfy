/**
 A call that no other thread's step interrupts ends in the very state the protocol of whole calls gives
 it: what the memory pool's methods are proved against is the taken-apart pool, run one call at a time.
 */
module PoolCalls {
  import opened Tally
  import opened PoolSteps
  import opened PoolStepsInvariants
  import P = BlockPoolProtocol

  function Slots(threads: seq<Thread>): seq<P.Slot>
  {
    seq(|threads|, i requires 0 <= i < |threads| => threads[i].slot)
  }

  // The taken-apart pool as the protocol of whole calls sees it.
  ghost function Whole(s: State): P.State
  {
    P.State(s.chunks, Slots(s.threads), s.magic, LiveBlocks(s.magic), s.retiredAcquire, s.retiredRelease)
  }

  ghost predicate AllBy(t: nat, schedule: seq<Action>)
  {
    forall i :: 0 <= i < |schedule| ==> schedule[i].t == t
  }

  // Steps of thread t alone lead from s to r.
  ghost predicate Alone(c: P.Spec, t: nat, s: State, r: State)
  {
    exists schedule :: Runs(c, s, schedule) && AllBy(t, schedule) && After(c, s, schedule) == r
  }

  // They lead to what e leaves, which is still sound.
  ghost predicate Gets(c: P.Spec, s: State, t: nat, e: Effect)
    requires t < |s.threads|
  {
    Sound(c, Applied(s, t, e)) && Alone(c, t, s, Applied(s, t, e))
  }

  lemma AppliedTwice(s: State, t: nat, e: Effect, e': Effect)
    requires t < |s.threads|
    ensures Applied(Applied(s, t, e), t, e') == Applied(s, t, e')
  {
    assert s.threads[t := e.th][t := e'.th] == s.threads[t := e'.th];
  }

  lemma Further(c: P.Spec, s: State, t: nat, r: State, a: Action)
    requires Alone(c, t, s, r) && Enabled(c, r, a) && a.t == t
    ensures Alone(c, t, s, Next(c, r, a))
  {
    hide Runs, After, Enabled, Next;
    var schedule :| Runs(c, s, schedule) && AllBy(t, schedule) && After(c, s, schedule) == r;
    RunsExtend(c, s, schedule, a);
    assert AllBy(t, schedule + [a]);
  }

  lemma Begins(c: P.Spec, s: State, a: Action)
    requires P.Sensible(c) && Sound(c, s) && Enabled(c, s, a) && !a.Step?
    ensures Gets(c, s, a.t, EffectOf(c, s, a))
  {
    hide Sound;
    assert Runs(c, s, []) && AllBy(a.t, []) && After(c, s, []) == s;
    assert Alone(c, a.t, s, s);
    Further(c, s, a.t, s, a);
    NextIsSound(c, s, a);
  }

  // The thread's next step, where it reads no mark.
  lemma Steps(c: P.Spec, s: State, t: nat, e: Effect, ok: bool, grown: seq<seq<Addr>>)
    requires P.Sensible(c) && t < |s.threads| && Gets(c, s, t, e) && !e.th.pc.Idle?
    requires e.th.pc.Lock? ==> !e.locked
    requires e.th.pc.Grow? ==> Fresh(c, e.magic, grown) && (ok ==> grown != [])
    requires e.th.pc.Check? ==> forall u :: 0 <= u < |s.threads| && u != t ==> s.threads[u].pc != Free(e.th.pc.block)
    ensures Gets(c, s, t, StepEffect(c, Applied(s, t, e), e.th, ok, grown))
  {
    hide Sound, Alone, Fresh;
    var r := Applied(s, t, e);
    var a := Step(t, ok, grown);
    assert Enabled(c, r, a) && !Overlaps(r, a);
    Further(c, s, t, r, a);
    NextIsSound(c, r, a);
    AppliedTwice(s, t, e, StepEffect(c, r, e.th, ok, grown));
  }

  // --- Release --------------------------------------------------------------------------------------------

  lemma SlotChanges(threads: seq<Thread>, t: nat, th: Thread)
    requires t < |threads|
    ensures Slots(threads[t := th]) == Slots(threads)[t := th.slot]
  {
  }

  lemma FreeLeavesLive(magic: map<Addr, nat>, b: Addr)
    requires b in magic
    ensures LiveBlocks(magic[b := P.MAGIC_FREE]) == LiveBlocks(magic) - {b}
    ensures LiveBlocks(magic[b := P.MAGIC_LIVE]) == LiveBlocks(magic) + {b}
  {
  }

  // The pool once the thread has a cache: its own, or an empty one attached by this call.
  ghost function Cached(c: P.Spec, s: State, t: nat): (w: P.State)
    requires c.batch > 0 && t < |s.threads|
    ensures P.HasCache(w, t) && |w.caches| == |s.threads|
  {
    if s.threads[t].slot.Attached? then Whole(s) else P.Next(c, Whole(s), P.Attach(t))
  }

  lemma CachedFields(c: P.Spec, s: State, t: nat)
    requires c.batch > 0 && t < |s.threads|
    ensures Cached(c, s, t) == Whole(s).(caches := Slots(s.threads)[t := P.Attached(CacheOf(s.threads[t].slot))])
  {
    assert Slots(s.threads)[t := s.threads[t].slot] == Slots(s.threads);
  }

  function CacheOf(slot: P.Slot): P.Cache { if slot.Attached? then slot.cache else P.Cache([], 0, 0) }

  // The released block joins the list of a thread that has a cache.
  lemma PutsAlone(c: P.Spec, s: State, t: nat, e: Effect, b: Addr) returns (r: Effect)
    requires P.Sensible(c) && t < |s.threads| && Gets(c, s, t, e) && b in s.magic && s.magic[b] == P.MAGIC_LIVE
    requires e == Same(s, Thread(P.Attached(CacheOf(s.threads[t].slot)), Put(b))).(magic := s.magic[b := P.MAGIC_FREE])
    ensures Gets(c, s, t, r) && r.th.pc.Idle?
    ensures Whole(Applied(s, t, r)) == P.ReleaseNext(c, Cached(c, s, t), t, b)
  {
    hide Gets, LiveBlocks;
    CachedFields(c, s, t);
    FreeLeavesLive(s.magic, b);
    Steps(c, s, t, e, true, []);
    r := StepEffect(c, Applied(s, t, e), e.th, true, []);
    if r.th.pc.Flush? {
      Steps(c, s, t, r, true, []);
      r := StepEffect(c, Applied(s, t, r), r.th, true, []);
    }
    SlotChanges(s.threads, t, r.th);
    assert Slots(s.threads)[t := P.Attached(CacheOf(s.threads[t].slot))][t := r.th.slot] == Slots(s.threads)[t := r.th.slot];
  }

  // Without a cache it becomes a chunk of its own, and the release is counted centrally.
  lemma OrphansAlone(c: P.Spec, s: State, t: nat, e: Effect, b: Addr) returns (r: Effect)
    requires P.Sensible(c) && t < |s.threads| && Gets(c, s, t, e) && b in s.magic && s.magic[b] == P.MAGIC_LIVE
    requires s.threads[t].slot.Gone?
    requires e == Same(s, Thread(P.Gone, Put(b))).(magic := s.magic[b := P.MAGIC_FREE])
    ensures Gets(c, s, t, r) && r.th.pc.Idle?
    ensures Whole(Applied(s, t, r)) == P.ReleaseUncachedNext(Whole(s), b)
  {
    hide Gets, LiveBlocks;
    FreeLeavesLive(s.magic, b);
    Steps(c, s, t, e, false, []);
    r := StepEffect(c, Applied(s, t, e), e.th, false, []);
    Steps(c, s, t, r, true, []);
    r := StepEffect(c, Applied(s, t, r), r.th, true, []);
    SlotChanges(s.threads, t, r.th);
    assert Slots(s.threads)[t := s.threads[t].slot] == Slots(s.threads);
  }

  // Release, from the magic read to the last push; granted: whether a thread without a cache gets one.
  // A block that is not live is refused before that.
  lemma ReleaseAlone(c: P.Spec, s: State, t: nat, b: Addr, granted: bool) returns (e: Effect)
    requires P.Sensible(c) && Sound(c, s) && t < |s.threads| && s.threads[t].pc.Idle?
    requires b in s.magic && forall u :: 0 <= u < |s.threads| ==> s.threads[u].pc != Free(b)
    ensures Gets(c, s, t, e) && e.th.pc.Idle?
    ensures Whole(Applied(s, t, e))
         == if s.magic[b] != P.MAGIC_LIVE then Whole(s)
            else if s.threads[t].slot.Gone? && !granted then P.ReleaseUncachedNext(Whole(s), b)
            else P.ReleaseNext(c, Cached(c, s, t), t, b)
  {
    hide Sound, Alone, Gets, LiveBlocks, P.ReleaseNext, P.ReleaseUncachedNext, Cached, PutStep;
    e := EffectOf(c, s, BeginRelease(t, b));
    Begins(c, s, BeginRelease(t, b));
    SlotChanges(s.threads, t, At(s.threads[t], Idle));
    assert Slots(s.threads)[t := s.threads[t].slot] == Slots(s.threads);
    Steps(c, s, t, e, true, []);
    e := StepEffect(c, Applied(s, t, e), e.th, true, []);
    if s.magic[b] == P.MAGIC_LIVE {
      Steps(c, s, t, e, true, []);
      e := StepEffect(c, Applied(s, t, e), e.th, true, []);
      if s.threads[t].slot.Gone? && !granted {
        e := OrphansAlone(c, s, t, e, b);
      } else {
        if s.threads[t].slot.Gone? { e := AttachesAtPut(c, s, t, e); }
        e := PutsAlone(c, s, t, e, b);
      }
    }
  }

  lemma AttachesAtPut(c: P.Spec, s: State, t: nat, e: Effect) returns (r: Effect)
    requires P.Sensible(c) && t < |s.threads| && Gets(c, s, t, e) && e.th.pc.Put? && e.th.slot.Gone?
    ensures Gets(c, s, t, r) && r == e.(th := e.th.(slot := FRESH_SLOT))
  {
    hide Gets;
    Steps(c, s, t, e, true, []);
    r := StepEffect(c, Applied(s, t, e), e.th, true, []);
  }

  // --- Acquire --------------------------------------------------------------------------------------------

  // The head is off the list: it is marked live.
  lemma MarksAlone(c: P.Spec, s: State, t: nat, e: Effect)
    requires P.Sensible(c) && t < |s.threads| && Gets(c, s, t, e) && e.th.pc.Mark?
    ensures Gets(c, s, t, e.(magic := e.magic[e.th.pc.block := P.MAGIC_LIVE], th := At(e.th, Idle)))
  {
    hide Alone, OnePlace, Marks, AllFit;
    MarkedIsFree(c, Applied(s, t, e), t);
    hide Sound;
    Steps(c, s, t, e, true, []);
    Steps(c, s, t, e.(th := At(e.th, Stamp(e.th.pc.block))), true, []);
  }

  // A chunk is in hand: it becomes the list, and its head is taken.
  lemma AdoptsAlone(c: P.Spec, s: State, t: nat, e: Effect) returns (r: Effect)
    requires P.Sensible(c) && t < |s.threads| && Gets(c, s, t, e)
    requires e.th.pc.Adopt? && e.th.slot.Attached? && e.th.pc.chunk != []
    ensures Gets(c, s, t, r)
    ensures var cache := e.th.slot.cache;
            var list := e.th.pc.chunk;
            r == e.(magic := e.magic[list[0] := P.MAGIC_LIVE],
                    th := Thread(P.Attached(P.Cache(list[1..], cache.acquired + 1, cache.released)), Idle))
  {
    hide Gets;
    Steps(c, s, t, e, true, []);
    r := StepEffect(c, Applied(s, t, e), e.th, true, []);
    MarksAlone(c, s, t, r);
    r := r.(magic := r.magic[r.th.pc.block := P.MAGIC_LIVE], th := At(r.th, Idle));
  }

  lemma {:induction false} FlatLast(chunks: seq<seq<Addr>>)
    requires chunks != []
    ensures P.Flat(chunks) == P.Flat(chunks[..|chunks| - 1]) + chunks[|chunks| - 1]
  {
    if |chunks| == 1 {
      assert chunks[1..] == [] && chunks[..0] == [];
    } else {
      FlatLast(chunks[1..]);
      assert chunks[1..][..|chunks| - 2] == chunks[..|chunks| - 1][1..];
    }
  }

  // The carved chunks are linked and pushed one after the other, the last one first.
  lemma {:induction false} CarvesAlone(c: P.Spec, s: State, t: nat, e: Effect) returns (r: Effect)
    requires P.Sensible(c) && t < |s.threads| && Gets(c, s, t, e) && e.th.pc.Carve?
    ensures Gets(c, s, t, r)
    ensures r == e.(chunks := e.th.pc.left + e.chunks, magic := P.Marked(P.Flat(e.th.pc.left), e.magic),
                    th := At(e.th, ThirdPop))
    decreases |e.th.pc.left|
  {
    hide Gets, P.Flat;
    Steps(c, s, t, e, true, []);
    var next := StepEffect(c, Applied(s, t, e), e.th, true, []);
    var left := e.th.pc.left;
    if left == [] {
      r := next;
      NothingFlat(left);
      assert P.Marked([], e.magic) == e.magic;
      assert left + e.chunks == e.chunks;
    } else {
      r := CarvesAlone(c, s, t, next);
      var n := |left| - 1;
      FlatLast(left);
      assert left[..n] + ([left[n]] + e.chunks) == left + e.chunks;
      MarkedTwice(P.Flat(left[..n]), left[n], e.magic);
    }
  }

  lemma NothingFlat(chunks: seq<seq<Addr>>)
    requires chunks == []
    ensures P.Flat(chunks) == []
  {
  }

  lemma NothingMarked(chunks: seq<seq<Addr>>, magic: map<Addr, nat>)
    requires chunks == []
    ensures P.Marked(P.Flat(chunks), magic) == magic
  {
  }

  lemma MarkedTwice(a: seq<Addr>, b: seq<Addr>, magic: map<Addr, nat>)
    ensures P.Marked(a, P.Marked(b, magic)) == P.Marked(a + b, magic)
  {
  }

  lemma FirstIsChunk(c: P.Spec, magic: map<Addr, nat>, grown: seq<seq<Addr>>)
    requires Fresh(c, magic, grown) && grown != []
    ensures grown[0] != []
  {
  }

  // Under the lock with an empty store: grown, carved, popped and unlocked.
  lemma GrowsAlone(c: P.Spec, s: State, t: nat, e: Effect, grown: seq<seq<Addr>>) returns (r: Effect)
    requires P.Sensible(c) && t < |s.threads| && Gets(c, s, t, e) && e.th.pc.Grow? && e.locked && e.chunks == []
    requires e.th.slot.Attached? && Fresh(c, e.magic, grown)
    ensures Gets(c, s, t, r)
    ensures r == e.(chunks := if grown == [] then [] else grown[1..], locked := false,
                    magic := P.Marked(P.Flat(grown), e.magic),
                    th := At(e.th, if grown == [] then Idle else Adopt(grown[0])))
  {
    hide Gets, P.Flat, P.Marked, Fresh;
    Steps(c, s, t, e, grown != [], grown);
    r := StepEffect(c, Applied(s, t, e), e.th, grown != [], grown);
    if grown == [] {
      NothingMarked(grown, e.magic);
    } else {
      r := CarvesAlone(c, s, t, r);
      assert grown + e.chunks == grown;
      Steps(c, s, t, r, true, []);
      r := StepEffect(c, Applied(s, t, r), r.th, true, []);
      FirstIsChunk(c, e.magic, grown);
    }
    Steps(c, s, t, r, true, []);
    r := StepEffect(c, Applied(s, t, r), r.th, true, []);
  }

  // A refill from the store, with the store grown if it was empty.
  lemma RefillsAlone(c: P.Spec, s: State, t: nat, e: Effect, grown: seq<seq<Addr>>) returns (r: Effect)
    requires P.Sensible(c) && t < |s.threads| && Gets(c, s, t, e) && e.th.pc.FirstPop? && !e.locked
    requires e.th.slot.Attached? && Fresh(c, e.magic, grown)
    ensures Gets(c, s, t, r)
    ensures var stocked := if e.chunks == [] then grown else e.chunks;
            r == e.(chunks := if stocked == [] then [] else stocked[1..],
                    magic := if e.chunks == [] then P.Marked(P.Flat(grown), e.magic) else e.magic,
                    th := At(e.th, if stocked == [] then Idle else Adopt(stocked[0])))
  {
    hide Gets, P.Flat;
    Steps(c, s, t, e, true, []);
    r := StepEffect(c, Applied(s, t, e), e.th, true, []);
    if e.chunks == [] {
      Steps(c, s, t, r, true, []);
      r := StepEffect(c, Applied(s, t, r), r.th, true, []);
      Steps(c, s, t, r, true, []);
      r := StepEffect(c, Applied(s, t, r), r.th, true, []);
      r := GrowsAlone(c, s, t, r, grown);
    }
  }

  lemma {:induction false} InFlat(chunks: seq<seq<Addr>>, b: Addr)
    ensures b in P.Flat(chunks) <==> exists i :: 0 <= i < |chunks| && b in chunks[i]
  {
    if chunks != [] {
      InFlat(chunks[1..], b);
      forall i | 0 <= i < |chunks| - 1 ensures chunks[1..][i] == chunks[i + 1] {
      }
      if i :| 0 <= i < |chunks| && b in chunks[i] { assert i == 0 || b in chunks[1..][i - 1]; }
    }
  }

  // Growing the bin marks no block live and takes no mark away.
  lemma GrowthIsNotLive(c: P.Spec, magic: map<Addr, nat>, grown: seq<seq<Addr>>)
    requires Fresh(c, magic, grown)
    ensures LiveBlocks(P.Marked(P.Flat(grown), magic)) == LiveBlocks(magic)
    ensures forall b :: grown != [] && b in grown[0] ==> b in P.Marked(P.Flat(grown), magic)
  {
    forall b | b in P.Flat(grown) ensures b !in magic {
      InFlat(grown, b);
    }
    FreeIsNotLive(magic, P.Flat(grown));
    forall b | grown != [] && b in grown[0] ensures b in P.Flat(grown) {
      InFlat(grown, b);
    }
  }

  // Acquire of a thread that has a cache.
  lemma TakesAlone(c: P.Spec, s: State, t: nat, e0: Effect, grown: seq<seq<Addr>>) returns (e: Effect)
    requires P.Sensible(c) && t < |s.threads| && Gets(c, s, t, e0)
    requires e0 == Same(s, Thread(P.Attached(CacheOf(s.threads[t].slot)), Pop))
    requires !s.locked && Fresh(c, s.magic, grown)
    ensures Gets(c, s, t, e) && e.th.pc.Idle?
    ensures Whole(Applied(s, t, e)) == P.AcquireNext(Cached(c, s, t), t, grown)
  {
    hide Gets, P.Flat, LiveBlocks, Fresh, P.Marked, Cached;
    var cache := CacheOf(s.threads[t].slot);
    CachedFields(c, s, t);
    Steps(c, s, t, e0, true, []);
    e := StepEffect(c, Applied(s, t, e0), e0.th, true, []);
    if cache.blocks == [] {
      e := RefillsAlone(c, s, t, e, grown);
      GrowthIsNotLive(c, s.magic, grown);
      if e.th.pc.Adopt? {
        HasInHand(c, s, t, e);
        FreeLeavesLive(e.magic, e.th.pc.chunk[0]);
        e := AdoptsAlone(c, s, t, e);
      }
    } else {
      HasInHand(c, s, t, e);
      FreeLeavesLive(e.magic, cache.blocks[0]);
      MarksAlone(c, s, t, e);
      e := e.(magic := e.magic[e.th.pc.block := P.MAGIC_LIVE], th := At(e.th, Idle));
    }
    TakenAlike(c, s, t, e, grown);
  }

  // The four fields that change.
  lemma TakenAlike(c: P.Spec, s: State, t: nat, e: Effect, grown: seq<seq<Addr>>)
    requires c.batch > 0 && t < |s.threads|
    requires var r := P.AcquireNext(Cached(c, s, t), t, grown);
             && e.chunks == r.chunks && e.magic == r.magic && LiveBlocks(e.magic) == r.live
             && Slots(s.threads)[t := e.th.slot] == r.caches
             && e.retiredAcquire == r.retiredAcquire && e.retiredRelease == r.retiredRelease
    ensures Whole(Applied(s, t, e)) == P.AcquireNext(Cached(c, s, t), t, grown)
  {
    SlotChanges(s.threads, t, e.th);
  }

  // Acquire, where no other thread is in the grow section; granted: whether a thread without a cache gets
  // one; an empty grown stands for refused growth.
  lemma AcquireAlone(c: P.Spec, s: State, t: nat, granted: bool, grown: seq<seq<Addr>>) returns (e: Effect)
    requires P.Sensible(c) && Sound(c, s) && t < |s.threads| && s.threads[t].pc.Idle?
    requires !s.locked && Fresh(c, s.magic, grown)
    ensures Gets(c, s, t, e) && e.th.pc.Idle?
    ensures Whole(Applied(s, t, e))
         == if s.threads[t].slot.Gone? && !granted then Whole(s) else P.AcquireNext(Cached(c, s, t), t, grown)
  {
    hide Sound, Gets, Fresh, Cached, P.AcquireNext;
    e := EffectOf(c, s, BeginAcquire(t));
    Begins(c, s, BeginAcquire(t));
    if s.threads[t].slot.Gone? {
      Steps(c, s, t, e, granted, []);
      e := StepEffect(c, Applied(s, t, e), e.th, granted, []);
    }
    if s.threads[t].slot.Gone? && !granted {
      SlotChanges(s.threads, t, e.th);
      assert Slots(s.threads)[t := s.threads[t].slot] == Slots(s.threads);
    } else {
      e := TakesAlone(c, s, t, e, grown);
    }
  }

  lemma HasInHand(c: P.Spec, s: State, t: nat, e: Effect)
    requires t < |s.threads| && Gets(c, s, t, e) && (e.th.pc.Adopt? || e.th.pc.Mark?)
    ensures e.th.pc.Adopt? ==> e.th.pc.chunk != [] && e.th.pc.chunk[0] in e.magic
    ensures e.th.pc.Mark? ==> e.th.pc.block in e.magic
  {
    hide Alone;
    var r := Applied(s, t, e);
    assert Fits(c, r.magic, r.threads[t]);
    if e.th.pc.Adopt? {
      var b := e.th.pc.chunk[0];
      HeadCounts(e.th.pc.chunk, b);
      AtLeast(r.threads, t, InThread(b));
      assert Places(r, b) >= 1;
    }
  }

  // --- Thread exit ----------------------------------------------------------------------------------------

  // One batch is cut off the list and pushed.
  lemma FlushesAlone(c: P.Spec, s: State, t: nat, e: Effect) returns (r: Effect)
    requires P.Sensible(c) && t < |s.threads| && Gets(c, s, t, e) && e.th.pc.Leave?
    requires e.th.slot.Attached? && e.th.slot.cache.blocks != []
    ensures Gets(c, s, t, r) && r.th.pc.Leave? && r.th.slot.Attached?
    ensures |r.th.slot.cache.blocks| < |e.th.slot.cache.blocks|
    ensures r == e.(chunks := r.chunks, th := r.th)
    ensures r.th.slot.cache == e.th.slot.cache.(blocks := r.th.slot.cache.blocks)
    ensures Whole(Applied(s, t, r)) == P.FlushOnce(c, Whole(Applied(s, t, e)), t)
  {
    hide Gets, LiveBlocks;
    Steps(c, s, t, e, true, []);
    r := StepEffect(c, Applied(s, t, e), e.th, true, []);
    Steps(c, s, t, r, true, []);
    r := StepEffect(c, Applied(s, t, r), r.th, true, []);
    AppliedTwice(s, t, e, r);
    SlotChanges(s.threads[t := e.th], t, r.th);
  }

  lemma {:induction false} EmptiesAlone(c: P.Spec, s: State, t: nat, e: Effect) returns (r: Effect)
    requires P.Sensible(c) && t < |s.threads| && Gets(c, s, t, e) && e.th.pc.Leave? && e.th.slot.Attached?
    ensures Gets(c, s, t, r)
    ensures r == e.(chunks := r.chunks, th := Thread(P.Attached(e.th.slot.cache.(blocks := [])), Leave))
    ensures Whole(Applied(s, t, r)) == P.FlushAll(c, Whole(Applied(s, t, e)), t)
    decreases |e.th.slot.cache.blocks|
  {
    hide Gets, P.FlushOnce, LiveBlocks;
    if e.th.slot.cache.blocks == [] {
      r := e;
      assert e.th == Thread(P.Attached(e.th.slot.cache.(blocks := [])), Leave);
    } else {
      r := FlushesAlone(c, s, t, e);
      r := EmptiesAlone(c, s, t, r);
    }
  }

  // Detach, from the first batch to the counters.
  lemma LeaveAlone(c: P.Spec, s: State, t: nat) returns (e: Effect)
    requires P.Sensible(c) && Sound(c, s) && t < |s.threads| && s.threads[t].pc.Idle? && s.threads[t].slot.Attached?
    ensures Gets(c, s, t, e) && e.th == Thread(P.Gone, Idle)
    ensures Whole(Applied(s, t, e)) == P.DetachNext(c, Whole(s), t)
  {
    hide Sound, Gets, P.FlushAll, LiveBlocks;
    e := EffectOf(c, s, BeginLeave(t));
    Begins(c, s, BeginLeave(t));
    SlotChanges(s.threads, t, e.th);
    assert Slots(s.threads)[t := s.threads[t].slot] == Slots(s.threads);
    assert Whole(Applied(s, t, e)) == Whole(s);
    e := EmptiesAlone(c, s, t, e);
    SlotChanges(s.threads, t, e.th);
    Steps(c, s, t, e, true, []);
    e := StepEffect(c, Applied(s, t, e), e.th, true, []);
    SlotChanges(s.threads, t, e.th);
  }
}
