/**
 What every step of the taken-apart pool keeps as long as no two Releases of one block overlap: each
 created block is in one place, blocks in a thread's hands included, and the counters account for it.
 */
module PoolStepsInvariants {
  import opened Tally
  import opened PoolSteps
  import P = BlockPoolProtocol
  import Inv = BlockPoolInvariants

  // --- Where a block is -------------------------------------------------------------------------------

  // A block is off the list and not live yet.
  predicate Taking(pc: Pc) { pc.Mark? || pc.Stamp? }

  // How often a thread has the block in its hands, on the way from one place to another.
  function InHand(pc: Pc, b: Addr): nat
  {
    if pc.Unlock? || pc.Adopt? || pc.Flush? || pc.LeaveFlush? then Total(pc.chunk, Inv.Is(b))
    else if Taking(pc) || pc.Put? then One(pc.block == b)
    else 0
  }

  function InThread(b: Addr): Thread -> nat { (th: Thread) => Inv.InSlot(th.slot, b) + InHand(th.pc, b) }

  function Live(magic: map<Addr, nat>, b: Addr): nat { One(b in magic && magic[b] == P.MAGIC_LIVE) }

  // In a chunk of the store, on a list, in a thread's hands, or live with a caller.
  function Places(s: State, b: Addr): nat
  {
    Inv.InChunks(s.chunks, b) + Total(s.threads, InThread(b)) + Live(s.magic, b)
  }

  ghost predicate OnePlace(s: State)
  {
    forall b: Addr :: Places(s, b) == One(b in s.magic)
  }

  // --- The rest of the invariant ------------------------------------------------------------------------

  function InSection(th: Thread): nat
  {
    One(th.pc.SecondPop? || th.pc.Grow? || th.pc.Carve? || th.pc.ThirdPop? || th.pc.Unlock?)
  }

  // Inside a refill: the list is empty.
  predicate Refilling(pc: Pc)
  {
    pc.FirstPop? || pc.Lock? || pc.SecondPop? || pc.Grow? || pc.Carve? || pc.ThirdPop? || pc.Unlock? || pc.Adopt?
  }

  predicate HasChunk(pc: Pc) { pc.Unlock? || pc.Adopt? || pc.Flush? || pc.LeaveFlush? }

  predicate HasBlock(pc: Pc) { Taking(pc) || pc.Check? || pc.Free? || pc.Put? }

  // What a thread may take for granted about the marks, and how long its list and chunk are.
  ghost predicate Fits(c: P.Spec, magic: map<Addr, nat>, th: Thread)
  {
    && |Blocks(th.slot)| <= c.cap
    && (Refilling(th.pc) ==> th.slot.Attached? && th.slot.cache.blocks == [])
    && (th.pc.Carve? ==> Fresh(c, magic, th.pc.left))
    && (HasChunk(th.pc) ==> |th.pc.chunk| <= c.batch && (!th.pc.Unlock? ==> th.pc.chunk != []))
    && (HasBlock(th.pc) ==> th.pc.block in magic)
    && (th.pc.Free? ==> magic[th.pc.block] == P.MAGIC_LIVE)
  }

  ghost predicate AllFit(c: P.Spec, s: State)
  {
    forall t :: 0 <= t < |s.threads| ==> Fits(c, s.magic, s.threads[t])
  }

  // No two threads have read LIVE off the same block and not stored FREE yet.
  ghost predicate NoClash(s: State)
  {
    forall t, u :: 0 <= t < u < |s.threads| && s.threads[t].pc.Free? && s.threads[u].pc.Free? ==>
      s.threads[t].pc.block != s.threads[u].pc.block
  }

  ghost predicate Marks(magic: map<Addr, nat>)
  {
    forall b :: b in magic ==> magic[b] == P.MAGIC_LIVE || magic[b] == P.MAGIC_FREE
  }

  // Taken off a list and not live yet, or no longer live and not counted yet.
  function OnTheWay(th: Thread): nat { One(Taking(th.pc) || th.pc.Put? || th.pc.Orphan?) }

  function Acquired(th: Thread): nat { Inv.Acquired(th.slot) }
  function Released(th: Thread): nat { Inv.Released(th.slot) }

  ghost function LiveBlocks(magic: map<Addr, nat>): set<Addr> { set b | b in magic && magic[b] == P.MAGIC_LIVE }

  // Acquires less releases, over retired and attached caches, are the live blocks and those on the way.
  ghost predicate Accounted(s: State)
  {
    s.retiredAcquire + Total(s.threads, Acquired)
    == s.retiredRelease + Total(s.threads, Released) + |LiveBlocks(s.magic)| + Total(s.threads, OnTheWay)
  }

  ghost predicate Sound(c: P.Spec, s: State)
  {
    && OnePlace(s) && AllFit(c, s) && NoClash(s) && Marks(s.magic)
    && Inv.SmallChunks(c, s.chunks) && Total(s.threads, InSection) == One(s.locked) && Accounted(s)
  }

  // --- One thread's step --------------------------------------------------------------------------------

  // The block's places and its being known change alike.
  ghost predicate Balances(s: State, th: Thread, e: Effect, b: Addr)
  {
    Inv.InChunks(e.chunks, b) + InThread(b)(e.th) + Live(e.magic, b) + One(b in s.magic)
    == Inv.InChunks(s.chunks, b) + InThread(b)(th) + Live(s.magic, b) + One(b in e.magic)
  }

  lemma Split(blocks: seq<Addr>, n: nat, b: Addr)
    requires n <= |blocks|
    ensures Total(blocks, Inv.Is(b)) == Total(blocks[..n], Inv.Is(b)) + Total(blocks[n..], Inv.Is(b))
  {
    Concat(blocks[..n], blocks[n..], Inv.Is(b));
    assert blocks[..n] + blocks[n..] == blocks;
  }

  lemma HeadCounts(list: seq<Addr>, b: Addr)
    requires list != []
    ensures Total(list, Inv.Is(b)) == One(list[0] == b) + Total(list[1..], Inv.Is(b))
  {
    HeadTail(list, Inv.Is(b));
  }

  lemma TopCounts(chunks: seq<seq<Addr>>, b: Addr)
    requires chunks != []
    ensures Inv.InChunks(chunks, b) == Total(chunks[0], Inv.Is(b)) + Inv.InChunks(chunks[1..], b)
  {
    Inv.ChunkOnTop(chunks[0], chunks[1..], b);
    assert [chunks[0]] + chunks[1..] == chunks;
  }

  lemma NothingCounts(none: seq<Addr>, b: Addr)
    requires none == []
    ensures Total(none, Inv.Is(b)) == 0
  {
  }

  lemma AloneCounts(x: Addr, b: Addr)
    ensures Total([x], Inv.Is(b)) == One(x == b)
  {
    Single(x, Inv.Is(b));
  }

  lemma AcquireBalances(c: P.Spec, s: State, th: Thread, ok: bool, b: Addr)
    requires th.pc.Pop? || th.pc.Adopt?
    requires Fits(c, s.magic, th)
    ensures Balances(s, th, StepEffect(c, s, th, ok, []), b)
  {
    hide Inv.InChunks, Total;
    NothingCounts([], b);
    NothingCounts(Blocks(th.slot)[..0], b);
    if th.pc.Pop? && Blocks(th.slot) != [] { HeadCounts(Blocks(th.slot), b); }
    if th.pc.Adopt? {
      HeadCounts(th.pc.chunk, b);
      NothingCounts(th.slot.cache.blocks, b);
    }
  }

  lemma StoreBalances(c: P.Spec, s: State, th: Thread, ok: bool, grown: seq<seq<Addr>>, b: Addr)
    requires th.pc.FirstPop? || th.pc.Lock? || th.pc.SecondPop? || th.pc.Grow? || th.pc.ThirdPop? || th.pc.Unlock?
    ensures Balances(s, th, StepEffect(c, s, th, ok, grown), b)
  {
    hide Inv.InChunks, Total;
    NothingCounts([], b);
    if s.chunks != [] { TopCounts(s.chunks, b); }
    if th.pc.Unlock? && th.pc.chunk == [] { NothingCounts(th.pc.chunk, b); }
  }

  lemma CarveBalances(c: P.Spec, s: State, th: Thread, b: Addr)
    requires th.pc.Carve? && Fits(c, s.magic, th)
    ensures Balances(s, th, StepEffect(c, s, th, true, []), b)
  {
    hide Inv.InChunks, Total;
    if th.pc.left != [] {
      var chunk := th.pc.left[|th.pc.left| - 1];
      Inv.ChunkOnTop(chunk, s.chunks, b);
      Inv.DistinctCounts(chunk, b);
    }
  }

  lemma MarkBalances(c: P.Spec, s: State, th: Thread, b: Addr)
    requires (Taking(th.pc) || th.pc.Check? || th.pc.Free?) && Fits(c, s.magic, th)
    requires Taking(th.pc) ==> s.magic[th.pc.block] == P.MAGIC_FREE
    ensures Balances(s, th, StepEffect(c, s, th, true, []), b)
  {
    hide Inv.InChunks, Total;
  }

  lemma PutBalances(c: P.Spec, s: State, th: Thread, ok: bool, b: Addr)
    requires th.pc.Put?
    ensures Balances(s, th, StepEffect(c, s, th, ok, []), b)
  {
    hide Inv.InChunks, Total;
    if th.slot.Gone? {
      NothingCounts([], b);
      Inv.ChunkOnTop([th.pc.block], s.chunks, b);
      AloneCounts(th.pc.block, b);
    } else {
      var longer := [th.pc.block] + th.slot.cache.blocks;
      HeadCounts(longer, b);
      assert longer[1..] == th.slot.cache.blocks && longer[0] == th.pc.block;
      Split(longer, Cut(c, longer), b);
    }
  }

  lemma PushBalances(c: P.Spec, s: State, th: Thread, ok: bool, b: Addr)
    requires th.pc.Flush? || th.pc.Orphan? || th.pc.Leave? || th.pc.LeaveFlush?
    ensures Balances(s, th, StepEffect(c, s, th, ok, []), b)
  {
    hide Inv.InChunks, Total;
    if th.pc.Leave? {
      NothingCounts([], b);
      Split(Blocks(th.slot), Cut(c, Blocks(th.slot)), b);
      if Blocks(th.slot) == [] { NothingCounts(Blocks(th.slot), b); }
    } else if !th.pc.Orphan? {
      Inv.ChunkOnTop(th.pc.chunk, s.chunks, b);
    }
  }

  // A block off the list is marked free: it is in one place, so it is not live.
  lemma MarkedIsFree(c: P.Spec, s: State, t: nat)
    requires OnePlace(s) && Marks(s.magic) && AllFit(c, s) && t < |s.threads| && Taking(s.threads[t].pc)
    ensures s.threads[t].pc.block in s.magic && s.magic[s.threads[t].pc.block] == P.MAGIC_FREE
  {
    var b := s.threads[t].pc.block;
    assert Fits(c, s.magic, s.threads[t]);
    assert Places(s, b) == One(b in s.magic);
    AtLeast(s.threads, t, InThread(b));
  }

  lemma StepBalances(c: P.Spec, s: State, t: nat, ok: bool, grown: seq<seq<Addr>>, b: Addr)
    requires OnePlace(s) && Marks(s.magic) && AllFit(c, s) && t < |s.threads| && !s.threads[t].pc.Idle?
    ensures Balances(s, s.threads[t], StepEffect(c, s, s.threads[t], ok, grown), b)
  {
    hide OnePlace, Balances, StepEffect, Fits;
    var th := s.threads[t];
    assert Fits(c, s.magic, th);
    StepIgnores(c, s, th, ok, grown);
    if th.pc.Pop? || th.pc.Adopt? {
      AcquireBalances(c, s, th, ok, b);
    } else if th.pc.Carve? {
      CarveBalances(c, s, th, b);
    } else if Taking(th.pc) || th.pc.Check? || th.pc.Free? {
      if Taking(th.pc) { MarkedIsFree(c, s, t); }
      MarkBalances(c, s, th, b);
    } else if th.pc.Put? {
      PutBalances(c, s, th, ok, b);
    } else if th.pc.Flush? || th.pc.Orphan? || th.pc.Leave? || th.pc.LeaveFlush? {
      PushBalances(c, s, th, ok, b);
    } else {
      StoreBalances(c, s, th, ok, grown, b);
    }
  }

  // Only a grow looks at what it carves, and only some steps at what the system answers.
  lemma StepIgnores(c: P.Spec, s: State, th: Thread, ok: bool, grown: seq<seq<Addr>>)
    requires !th.pc.Idle?
    ensures !th.pc.Grow? ==> StepEffect(c, s, th, ok, grown) == StepEffect(c, s, th, ok, [])
    ensures th.pc.Carve? || Taking(th.pc) || th.pc.Check? || th.pc.Free? ==>
              StepEffect(c, s, th, ok, grown) == StepEffect(c, s, th, true, [])
  {
  }

  // --- Every step ----------------------------------------------------------------------------------------

  lemma RowMoves(s: State, t: nat, th: Thread, b: Addr)
    requires t < |s.threads|
    ensures Total(s.threads[t := th], InThread(b)) + InThread(b)(s.threads[t]) == Total(s.threads, InThread(b)) + InThread(b)(th)
  {
    Update(s.threads, t, th, InThread(b));
  }

  lemma KeepsOnePlace(c: P.Spec, s: State, a: Action)
    requires Sound(c, s) && Enabled(c, s, a)
    ensures OnePlace(Next(c, s, a))
  {
    hide StepEffect, Balances, Inv.InChunks, InThread, Live, Fits, EffectOf;
    var r := Next(c, s, a);
    forall b: Addr ensures Places(r, b) == One(b in r.magic) {
      assert Places(s, b) == One(b in s.magic);
      RowMoves(s, a.t, r.threads[a.t], b);
      ActionBalances(c, s, a, b);
      BalanceIs(s, s.threads[a.t], EffectOf(c, s, a), b);
    }
  }

  lemma ActionBalances(c: P.Spec, s: State, a: Action, b: Addr)
    requires Sound(c, s) && Enabled(c, s, a)
    ensures a.Step? ==> !s.threads[a.t].pc.Idle?
    ensures Balances(s, s.threads[a.t], EffectOf(c, s, a), b)
  {
    hide StepEffect, Inv.InChunks, Live, Fits, OnePlace;
    match a {
      case Step(t, ok, grown) => StepBalances(c, s, t, ok, grown, b);
      case _ =>
    }
  }

  lemma BalanceIs(s: State, th: Thread, e: Effect, b: Addr)
    requires Balances(s, th, e, b)
    ensures Inv.InChunks(e.chunks, b) + InThread(b)(e.th) + Live(e.magic, b) + One(b in s.magic)
         == Inv.InChunks(s.chunks, b) + InThread(b)(th) + Live(s.magic, b) + One(b in e.magic)
  {
  }

  // The marks a step leaves: what others rely on is still there, unless they had read the same block.
  ghost predicate MarksGrow(magic: map<Addr, nat>, magic': map<Addr, nat>, freed: Pc)
  {
    && (forall b :: b in magic ==> b in magic')
    && (forall b :: b in magic && magic[b] == P.MAGIC_LIVE && freed != Free(b) ==> magic'[b] == P.MAGIC_LIVE)
  }

  lemma StepMarks(c: P.Spec, s: State, th: Thread, ok: bool, grown: seq<seq<Addr>>)
    requires !th.pc.Idle? && Marks(s.magic) && Fits(c, s.magic, th)
    ensures var e := StepEffect(c, s, th, ok, grown);
            && Marks(e.magic) && MarksGrow(s.magic, e.magic, th.pc)
            && (th.pc.Carve? || e.magic.Keys == s.magic.Keys)
  {
    hide Fresh;
    if th.pc.Carve? && th.pc.left != [] { CarvedIsNew(c, s.magic, th.pc.left); }
  }

  lemma CarvedIsNew(c: P.Spec, magic: map<Addr, nat>, left: seq<seq<Addr>>)
    requires Fresh(c, magic, left) && left != []
    ensures var last := |left| - 1;
            && (forall b :: b in left[last] ==> b !in magic)
            && 1 <= |left[last]| <= c.batch
            && Fresh(c, P.Marked(left[last], magic), left[..last])
  {
  }

  // The blocks a thread has on its list or in its hands are known.
  ghost predicate Known(magic: map<Addr, nat>, th: Thread)
  {
    && (forall b :: b in Blocks(th.slot) ==> b in magic)
    && (th.pc.Adopt? ==> forall b :: b in th.pc.chunk ==> b in magic)
  }

  lemma ListedCounts(list: seq<Addr>, b: Addr)
    requires b in list
    ensures Total(list, Inv.Is(b)) >= 1
  {
    var i :| 0 <= i < |list| && list[i] == b;
    AtLeast(list, i, Inv.Is(b));
  }

  lemma HeldIsKnown(s: State, t: nat)
    requires OnePlace(s) && t < |s.threads|
    ensures Known(s.magic, s.threads[t])
  {
    var th := s.threads[t];
    forall b: Addr | b in Blocks(th.slot) || (th.pc.Adopt? && b in th.pc.chunk) ensures b in s.magic {
      assert Places(s, b) == One(b in s.magic);
      AtLeast(s.threads, t, InThread(b));
      if b in Blocks(th.slot) { ListedCounts(Blocks(th.slot), b); } else { ListedCounts(th.pc.chunk, b); }
    }
  }

  // The thread that steps fits its new place.
  lemma StepFits(c: P.Spec, s: State, th: Thread, ok: bool, grown: seq<seq<Addr>>)
    requires P.Sensible(c) && !th.pc.Idle? && Fits(c, s.magic, th) && Inv.SmallChunks(c, s.chunks)
    requires th.pc.Grow? ==> Fresh(c, s.magic, grown)
    requires Known(s.magic, th)
    ensures var e := StepEffect(c, s, th, ok, grown); Fits(c, e.magic, e.th) && Inv.SmallChunks(c, e.chunks)
  {
    hide Fits, StepEffect, Fresh, Inv.SmallChunks, Known;
    StepIgnores(c, s, th, ok, grown);
    if th.pc.Put? {
      PutFits(c, s, th, ok);
    } else if th.pc.Carve? {
      CarveFits(c, s, th);
    } else if Taking(th.pc) || th.pc.Check? || th.pc.Free? {
      MarkFits(c, s, th);
    } else if th.pc.Flush? || th.pc.Orphan? || th.pc.Leave? || th.pc.LeaveFlush? {
      PushFits(c, s, th, ok);
    } else if th.pc.Pop? || th.pc.Adopt? {
      AcquireFits(c, s, th, ok);
    } else {
      StoreFits(c, s, th, ok, grown);
    }
  }

  lemma PutFits(c: P.Spec, s: State, th: Thread, ok: bool)
    requires P.Sensible(c) && th.pc.Put? && Fits(c, s.magic, th) && Inv.SmallChunks(c, s.chunks)
    ensures var e := StepEffect(c, s, th, ok, []); Fits(c, e.magic, e.th) && Inv.SmallChunks(c, e.chunks)
  {
  }

  lemma CarveFits(c: P.Spec, s: State, th: Thread)
    requires P.Sensible(c) && th.pc.Carve? && Fits(c, s.magic, th) && Inv.SmallChunks(c, s.chunks)
    ensures var e := StepEffect(c, s, th, true, []); Fits(c, e.magic, e.th) && Inv.SmallChunks(c, e.chunks)
  {
    hide Fresh;
    if th.pc.left != [] { CarvedIsNew(c, s.magic, th.pc.left); }
  }

  lemma MarkFits(c: P.Spec, s: State, th: Thread)
    requires (Taking(th.pc) || th.pc.Check? || th.pc.Free?) && Fits(c, s.magic, th) && Inv.SmallChunks(c, s.chunks)
    ensures var e := StepEffect(c, s, th, true, []); Fits(c, e.magic, e.th) && Inv.SmallChunks(c, e.chunks)
  {
    hide Inv.SmallChunks;
  }

  lemma PushFits(c: P.Spec, s: State, th: Thread, ok: bool)
    requires P.Sensible(c) && (th.pc.Flush? || th.pc.Orphan? || th.pc.Leave? || th.pc.LeaveFlush?)
    requires Fits(c, s.magic, th) && Inv.SmallChunks(c, s.chunks)
    ensures var e := StepEffect(c, s, th, ok, []); Fits(c, e.magic, e.th) && Inv.SmallChunks(c, e.chunks)
  {
  }

  lemma AcquireFits(c: P.Spec, s: State, th: Thread, ok: bool)
    requires P.Sensible(c) && (th.pc.Pop? || th.pc.Adopt?) && Fits(c, s.magic, th) && Inv.SmallChunks(c, s.chunks)
    requires Known(s.magic, th)
    ensures var e := StepEffect(c, s, th, ok, []); Fits(c, e.magic, e.th) && Inv.SmallChunks(c, e.chunks)
  {
    hide Inv.SmallChunks;
  }

  lemma StoreFits(c: P.Spec, s: State, th: Thread, ok: bool, grown: seq<seq<Addr>>)
    requires th.pc.FirstPop? || th.pc.Lock? || th.pc.SecondPop? || th.pc.Grow? || th.pc.ThirdPop? || th.pc.Unlock?
    requires Fits(c, s.magic, th) && Inv.SmallChunks(c, s.chunks) && (th.pc.Grow? ==> Fresh(c, s.magic, grown))
    ensures var e := StepEffect(c, s, th, ok, grown); Fits(c, e.magic, e.th) && Inv.SmallChunks(c, e.chunks)
  {
    hide Fresh, Inv.SmallChunks, Fits, CarveStep, PutStep, ReleaseStep, LeaveStep, PopStep, AdoptStep, MarkStep;
    if th.pc.FirstPop? || th.pc.SecondPop? || th.pc.ThirdPop? {
      StackFits(c, s, th, ok, grown);
    } else {
      LockFits(c, s, th, ok, grown);
    }
  }

  // A pop of the stack takes a chunk of a batch at most.
  lemma StackFits(c: P.Spec, s: State, th: Thread, ok: bool, grown: seq<seq<Addr>>)
    requires th.pc.FirstPop? || th.pc.SecondPop? || th.pc.ThirdPop?
    requires Fits(c, s.magic, th) && Inv.SmallChunks(c, s.chunks)
    ensures var e := StoreStep(s, th, ok, grown); Fits(c, e.magic, e.th) && Inv.SmallChunks(c, e.chunks)
  {
    hide Fresh, Inv.SmallChunks, P.Marked;
    if s.chunks != [] { TopIsSmall(c, s.chunks); }
  }

  lemma TopIsSmall(c: P.Spec, chunks: seq<seq<Addr>>)
    requires Inv.SmallChunks(c, chunks) && chunks != []
    ensures 1 <= |chunks[0]| <= c.batch && Inv.SmallChunks(c, chunks[1..])
  {
  }

  lemma LockFits(c: P.Spec, s: State, th: Thread, ok: bool, grown: seq<seq<Addr>>)
    requires th.pc.Lock? || th.pc.Grow? || th.pc.Unlock?
    requires Fits(c, s.magic, th) && Inv.SmallChunks(c, s.chunks) && (th.pc.Grow? ==> Fresh(c, s.magic, grown))
    ensures var e := StoreStep(s, th, ok, grown); Fits(c, e.magic, e.th) && Inv.SmallChunks(c, e.chunks)
  {
    hide Fresh, Inv.SmallChunks;
  }

  lemma OtherFits(c: P.Spec, magic: map<Addr, nat>, magic': map<Addr, nat>, freed: Pc, th: Thread)
    requires Fits(c, magic, th) && MarksGrow(magic, magic', freed)
    requires th.pc.Carve? ==> magic'.Keys == magic.Keys
    requires th.pc.Free? ==> freed != th.pc
    ensures Fits(c, magic', th)
  {
  }

  // Others keep fitting: they carve only while this thread does not, and release other blocks.
  lemma OthersFit(c: P.Spec, s: State, t: nat, e: Effect, u: nat)
    requires Sound(c, s) && t < |s.threads| && u < |s.threads| && u != t
    requires MarksGrow(s.magic, e.magic, s.threads[t].pc) && (s.threads[t].pc.Carve? || e.magic.Keys == s.magic.Keys)
    ensures Fits(c, e.magic, s.threads[u])
  {
    assert Fits(c, s.magic, s.threads[u]);
    if s.threads[t].pc.Carve? && s.threads[u].pc.Carve? {
      if t < u { AtLeastTwo(s.threads, t, u, InSection); } else { AtLeastTwo(s.threads, u, t, InSection); }
    }
    OtherFits(c, s.magic, e.magic, s.threads[t].pc, s.threads[u]);
  }

  // The lock and being in its section go together.
  ghost predicate SectionKept(s: State, th: Thread, e: Effect)
  {
    (InSection(th) == 1 ==> s.locked) ==> InSection(e.th) + One(s.locked) == InSection(th) + One(e.locked)
  }

  lemma StepSection(c: P.Spec, s: State, th: Thread, ok: bool, grown: seq<seq<Addr>>)
    requires !th.pc.Idle? && (th.pc.Lock? ==> !s.locked)
    ensures SectionKept(s, th, StepEffect(c, s, th, ok, grown))
    ensures StepEffect(c, s, th, ok, grown).th.pc.Free? ==> th.pc.Check?
  {
    hide StoreStep, PutStep, ReleaseStep, LeaveStep;
    if th.pc.Check? || th.pc.Free? || th.pc.Put? || th.pc.Flush? || th.pc.Orphan? {
      ReleaseSection(c, s, th, ok);
    } else if th.pc.Leave? || th.pc.LeaveFlush? {
      LeaveSection(c, s, th);
    } else if !(th.pc.Pop? || th.pc.Carve? || th.pc.Adopt? || Taking(th.pc)) {
      StoreSection(s, th, ok, grown);
    }
  }

  lemma ReleaseSection(c: P.Spec, s: State, th: Thread, ok: bool)
    requires th.pc.Check? || th.pc.Free? || th.pc.Put? || th.pc.Flush? || th.pc.Orphan?
    ensures SectionKept(s, th, ReleaseStep(c, s, th, ok)) && (!ReleaseStep(c, s, th, ok).th.pc.Free? || th.pc.Check?)
  {
  }

  lemma LeaveSection(c: P.Spec, s: State, th: Thread)
    requires th.pc.Leave? || th.pc.LeaveFlush?
    ensures SectionKept(s, th, LeaveStep(c, s, th)) && !LeaveStep(c, s, th).th.pc.Free?
  {
  }

  lemma StoreSection(s: State, th: Thread, ok: bool, grown: seq<seq<Addr>>)
    requires th.pc.FirstPop? || th.pc.Lock? || th.pc.SecondPop? || th.pc.Grow? || th.pc.ThirdPop? || th.pc.Unlock?
    requires th.pc.Lock? ==> !s.locked
    ensures SectionKept(s, th, StoreStep(s, th, ok, grown)) && !StoreStep(s, th, ok, grown).th.pc.Free?
  {
  }

  lemma SectionMoves(c: P.Spec, s: State, a: Action)
    requires Enabled(c, s, a) && Total(s.threads, InSection) == One(s.locked)
    ensures Total(Next(c, s, a).threads, InSection) == One(Next(c, s, a).locked)
  {
    hide StepEffect, Total;
    var r := Next(c, s, a);
    Update(s.threads, a.t, r.threads[a.t], InSection);
    AtLeast(s.threads, a.t, InSection);
    match a {
      case Step(t, ok, grown) => StepSection(c, s, s.threads[t], ok, grown);
      case _ =>
    }
  }

  lemma KeepsNoClash(c: P.Spec, s: State, a: Action)
    requires NoClash(s) && Enabled(c, s, a) && !Overlaps(s, a)
    ensures NoClash(Next(c, s, a))
  {
    var r := Next(c, s, a);
    ReadsLive(c, s, a);
  }

  // A thread gets to Free only by reading LIVE.
  lemma ReadsLive(c: P.Spec, s: State, a: Action)
    requires Enabled(c, s, a)
    ensures var r := Next(c, s, a);
            r.threads[a.t].pc.Free? ==>
              && a.Step? && s.threads[a.t].pc == Check(r.threads[a.t].pc.block)
              && r.threads[a.t].pc.block in s.magic && s.magic[r.threads[a.t].pc.block] == P.MAGIC_LIVE
  {
    match a {
      case Step(t, ok, grown) =>
        if !s.threads[t].pc.Check? {
          hide StepEffect;
          StepSection(c, s, s.threads[t], ok, grown);
        }
      case _ =>
    }
  }

  // --- The counters ---------------------------------------------------------------------------------------

  ghost predicate AccountsBalance(s: State, th: Thread, e: Effect)
  {
    e.retiredAcquire + Acquired(e.th) + s.retiredRelease + Released(th) + |LiveBlocks(s.magic)| + OnTheWay(th)
    == s.retiredAcquire + Acquired(th) + e.retiredRelease + Released(e.th) + |LiveBlocks(e.magic)| + OnTheWay(e.th)
  }

  lemma StepAccounts(c: P.Spec, s: State, th: Thread, ok: bool, grown: seq<seq<Addr>>)
    requires !th.pc.Idle? && Fits(c, s.magic, th)
    requires Taking(th.pc) ==> s.magic[th.pc.block] == P.MAGIC_FREE
    ensures AccountsBalance(s, th, StepEffect(c, s, th, ok, grown))
  {
    hide StepEffect, Fits, AccountsBalance;
    StepIgnores(c, s, th, ok, grown);
    if Taking(th.pc) || th.pc.Free? || th.pc.Carve? {
      MarkAccounts(c, s, th);
    } else if th.pc.Pop? || th.pc.Adopt? {
      AcquireAccounts(c, s, th, ok);
    } else if th.pc.Put? || th.pc.Leave? || th.pc.Orphan? {
      PutAccounts(c, s, th, ok);
    } else {
      PlainAccounts(c, s, th, ok, grown);
    }
  }

  lemma MarkAccounts(c: P.Spec, s: State, th: Thread)
    requires (Taking(th.pc) || th.pc.Free? || th.pc.Carve?) && Fits(c, s.magic, th)
    requires Taking(th.pc) ==> s.magic[th.pc.block] == P.MAGIC_FREE
    ensures AccountsBalance(s, th, StepEffect(c, s, th, true, []))
  {
    hide Fresh, LiveBlocks;
    if th.pc.Carve? {
      if th.pc.left != [] {
        CarvedIsNew(c, s.magic, th.pc.left);
        FreeIsNotLive(s.magic, th.pc.left[|th.pc.left| - 1]);
      }
    } else {
      MarkChangesLive(s.magic, th.pc.block);
    }
  }

  lemma FreeIsNotLive(magic: map<Addr, nat>, chunk: seq<Addr>)
    requires forall b :: b in chunk ==> b !in magic
    ensures LiveBlocks(P.Marked(chunk, magic)) == LiveBlocks(magic)
  {
  }

  lemma MarkChangesLive(magic: map<Addr, nat>, b: Addr)
    requires b in magic
    ensures magic[b] == P.MAGIC_FREE ==> |LiveBlocks(magic[b := P.MAGIC_LIVE])| == |LiveBlocks(magic)| + 1
    ensures magic[b] == P.MAGIC_LIVE ==> |LiveBlocks(magic[b := P.MAGIC_FREE])| + 1 == |LiveBlocks(magic)|
  {
    if magic[b] == P.MAGIC_FREE {
      assert LiveBlocks(magic[b := P.MAGIC_LIVE]) == LiveBlocks(magic) + {b};
    } else if magic[b] == P.MAGIC_LIVE {
      assert LiveBlocks(magic) == LiveBlocks(magic[b := P.MAGIC_FREE]) + {b};
    }
  }

  lemma AcquireAccounts(c: P.Spec, s: State, th: Thread, ok: bool)
    requires (th.pc.Pop? || th.pc.Adopt?) && Fits(c, s.magic, th)
    ensures AccountsBalance(s, th, StepEffect(c, s, th, ok, []))
  {
  }

  lemma PutAccounts(c: P.Spec, s: State, th: Thread, ok: bool)
    requires th.pc.Put? || th.pc.Leave? || th.pc.Orphan?
    ensures AccountsBalance(s, th, StepEffect(c, s, th, ok, []))
  {
  }

  lemma PlainAccounts(c: P.Spec, s: State, th: Thread, ok: bool, grown: seq<seq<Addr>>)
    requires !th.pc.Idle? && !Taking(th.pc) && !th.pc.Free? && !th.pc.Carve? && !th.pc.Pop? && !th.pc.Adopt?
    requires !th.pc.Put? && !th.pc.Leave? && !th.pc.Orphan?
    ensures AccountsBalance(s, th, StepEffect(c, s, th, ok, grown))
  {
    hide LiveBlocks, AccountsBalance, StoreStep, ReleaseStep, LeaveStep, AdoptStep, MarkStep, PopStep, CarveStep, PutStep;
    if th.pc.Check? || th.pc.Flush? || th.pc.LeaveFlush? {
      CheckAccounts(c, s, th, ok);
    } else {
      StoreAccounts(s, th, ok, grown);
    }
  }

  lemma CheckAccounts(c: P.Spec, s: State, th: Thread, ok: bool)
    requires th.pc.Check? || th.pc.Flush? || th.pc.LeaveFlush?
    ensures AccountsBalance(s, th, if th.pc.LeaveFlush? then LeaveStep(c, s, th) else ReleaseStep(c, s, th, ok))
  {
    hide LiveBlocks, PutStep;
  }

  lemma StoreAccounts(s: State, th: Thread, ok: bool, grown: seq<seq<Addr>>)
    requires th.pc.FirstPop? || th.pc.Lock? || th.pc.SecondPop? || th.pc.Grow? || th.pc.ThirdPop? || th.pc.Unlock?
    ensures AccountsBalance(s, th, StoreStep(s, th, ok, grown))
  {
    hide LiveBlocks;
  }

  lemma KeepsAccounts(c: P.Spec, s: State, a: Action)
    requires Sound(c, s) && Enabled(c, s, a)
    ensures Accounted(Next(c, s, a))
  {
    hide StepEffect, OnePlace, NoClash, Total, LiveBlocks, Acquired, Released, OnTheWay, Fits;
    var r, th := Next(c, s, a), s.threads[a.t];
    assert Fits(c, s.magic, th);
    Update(s.threads, a.t, r.threads[a.t], Acquired);
    Update(s.threads, a.t, r.threads[a.t], Released);
    Update(s.threads, a.t, r.threads[a.t], OnTheWay);
    match a {
      case Step(t, ok, grown) =>
        if Taking(th.pc) { MarkedIsFree(c, s, t); }
        StepAccounts(c, s, th, ok, grown);
      case _ => BeginAccounts(c, s, a);
    }
  }

  lemma BeginAccounts(c: P.Spec, s: State, a: Action)
    requires Enabled(c, s, a) && !a.Step?
    ensures AccountsBalance(s, s.threads[a.t], EffectOf(c, s, a))
  {
  }

  lemma NextIsSound(c: P.Spec, s: State, a: Action)
    requires P.Sensible(c) && Sound(c, s) && Enabled(c, s, a) && !Overlaps(s, a)
    ensures Sound(c, Next(c, s, a))
  {
    hide StepEffect, OnePlace, NoClash, Fits, MarksGrow, Overlaps, Fresh, Inv.SmallChunks, Total, Accounted;
    var r, th := Next(c, s, a), s.threads[a.t];
    assert Fits(c, s.magic, th);
    KeepsOnePlace(c, s, a);
    KeepsNoClash(c, s, a);
    SectionMoves(c, s, a);
    ActionFits(c, s, a);
    KeepsAccounts(c, s, a);
    forall u | 0 <= u < |r.threads| ensures Fits(c, r.magic, r.threads[u]) {
      if u != a.t { OthersFit(c, s, a.t, EffectOf(c, s, a), u); }
    }
  }

  lemma ActionFits(c: P.Spec, s: State, a: Action)
    requires P.Sensible(c) && Sound(c, s) && Enabled(c, s, a)
    ensures a.Step? ==> !s.threads[a.t].pc.Idle?
    ensures var e := EffectOf(c, s, a);
            && Fits(c, e.magic, e.th) && Inv.SmallChunks(c, e.chunks) && Marks(e.magic)
            && MarksGrow(s.magic, e.magic, s.threads[a.t].pc)
            && (s.threads[a.t].pc.Carve? || e.magic.Keys == s.magic.Keys)
  {
    hide StepEffect, OnePlace, NoClash, Known;
    assert Fits(c, s.magic, s.threads[a.t]);
    match a {
      case Step(t, ok, grown) =>
        HeldIsKnown(s, t);
        StepMarks(c, s, s.threads[t], ok, grown);
        StepFits(c, s, s.threads[t], ok, grown);
      case _ =>
    }
  }

  lemma {:induction false} FreshCounts(c: P.Spec, chunks: seq<seq<Addr>>, b: Addr)
    requires Fresh(c, map[], chunks)
    ensures Inv.InChunks(chunks, b) == One(exists i :: 0 <= i < |chunks| && b in chunks[i])
  {
    if chunks != [] {
      TopCounts(chunks, b);
      Inv.DistinctCounts(chunks[0], b);
      assert forall i :: 0 <= i < |chunks[1..]| ==> chunks[1..][i] == chunks[i + 1];
      FreshCounts(c, chunks[1..], b);
      if b in chunks[0] {
        assert !exists i :: 0 <= i < |chunks[1..]| && b in chunks[1..][i];
      } else if i :| 0 <= i < |chunks| && b in chunks[i] {
        assert b in chunks[1..][i - 1];
      }
    }
  }

  lemma InitialIsSound(c: P.Spec, s: State)
    requires P.Sensible(c) && Initial(c, s)
    ensures Sound(c, s)
  {
    forall b: Addr ensures Places(s, b) == One(b in s.magic) {
      FreshCounts(c, s.chunks, b);
      Zero(s.threads, InThread(b));
    }
    Zero(s.threads, InSection);
    Zero(s.threads, Acquired);
    Zero(s.threads, Released);
    Zero(s.threads, OnTheWay);
    assert LiveBlocks(s.magic) == {};
  }

  lemma {:induction false} RunIsSound(c: P.Spec, s: State, schedule: seq<Action>)
    requires P.Sensible(c) && Sound(c, s) && Careful(c, s, schedule)
    ensures Runs(c, s, schedule) && Sound(c, After(c, s, schedule))
    decreases |schedule|
  {
    hide Sound, Enabled, Overlaps, Next;
    if schedule != [] {
      NextIsSound(c, s, schedule[0]);
      RunIsSound(c, Next(c, s, schedule[0]), schedule[1..]);
    }
  }
}
