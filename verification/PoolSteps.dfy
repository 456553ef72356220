/**
 One size bin of the memory pool with every call taken apart: any number of threads inside Acquire,
 Release and thread exit at once, each step one interlocked operation, one section under a lock, or
 plain accesses to memory only the thread itself has.  The magic in a block's header is read and
 written by plain accesses of its own, a step each.
 */
module PoolSteps {
  import opened Tally
  import P = BlockPoolProtocol

  type Addr = P.Addr

  datatype Pc =
    | Idle
      // Acquire
    | Pop                            // before it looks at the thread's own list
    | FirstPop                       // PopChunk, before the pop without a lock
    | Lock                           // before growLock
    | SecondPop                      // under the lock, before the second pop
    | Grow                           // the stack was empty again, before GrowLocked
    | Carve(left: seq<seq<Addr>>)    // CarveAndPush: the chunks not pushed yet, the next one last
    | ThirdPop
    | Unlock(chunk: seq<Addr>)       // the chunk popped, or none, before the lock is given up
    | Adopt(chunk: seq<Addr>)        // before the chunk becomes the list
    | Mark(block: Addr)              // off the list, before its magic is read
    | Stamp(block: Addr)             // it read FREE, before it becomes LIVE
      // Release
    | Check(block: Addr)             // before the magic is read
    | Free(block: Addr)              // it read LIVE, before it becomes FREE
    | Put(block: Addr)               // before it joins the list, or the store without a cache
    | Flush(chunk: seq<Addr>)        // a batch is off the list, before it is pushed
    | Orphan                         // before NoteOrphanRelease
      // thread exit
    | Leave                          // before the next batch is cut off
    | LeaveFlush(chunk: seq<Addr>)

  datatype Thread = Thread(slot: P.Slot, pc: Pc)

  // chunks: the SLIST, top first.  locked: growLock.
  datatype State = State(chunks: seq<seq<Addr>>, locked: bool, threads: seq<Thread>, magic: map<Addr, nat>,
                         retiredAcquire: nat, retiredRelease: nat)

  // ok: what the operating system answers where a step asks it; grown: the chunks a grow carves then.
  datatype Action =
    | BeginAcquire(t: nat)
    | BeginRelease(t: nat, block: Addr)
    | BeginLeave(t: nat)
    | Step(t: nat, ok: bool, grown: seq<seq<Addr>>)

  // Chunks of fresh memory: non-empty, no longer than a batch, no block twice and none known.
  ghost predicate Fresh(c: P.Spec, magic: map<Addr, nat>, chunks: seq<seq<Addr>>)
  {
    && (forall i :: 0 <= i < |chunks| ==> 1 <= |chunks[i]| <= c.batch && Distinct(chunks[i]))
    && (forall i, j, b :: 0 <= i < j < |chunks| && b in chunks[i] ==> b !in chunks[j])
    && (forall i, b :: 0 <= i < |chunks| && b in chunks[i] ==> b !in magic)
  }

  ghost predicate Enabled(c: P.Spec, s: State, a: Action)
  {
    a.t < |s.threads| &&
    match a
    case BeginAcquire(t) => s.threads[t].pc.Idle?
    // a caller may give back any address the pool has handed out once, also one it does not hold
    case BeginRelease(t, b) => s.threads[t].pc.Idle? && b in s.magic
    case BeginLeave(t) => s.threads[t].pc.Idle? && s.threads[t].slot.Attached?
    case Step(t, ok, grown) =>
      && !s.threads[t].pc.Idle?
      && (s.threads[t].pc.Lock? ==> !s.locked)
      // a grow that succeeds carves a segment, which holds a block at least
      && (s.threads[t].pc.Grow? ==> Fresh(c, s.magic, grown) && (ok ==> grown != []))
  }

  // What a step leaves of the store, the lock, the marks and the thread's own row.
  datatype Effect = Effect(chunks: seq<seq<Addr>>, locked: bool, magic: map<Addr, nat>,
                           retiredAcquire: nat, retiredRelease: nat, th: Thread)

  function Same(s: State, th: Thread): Effect
  {
    Effect(s.chunks, s.locked, s.magic, s.retiredAcquire, s.retiredRelease, th)
  }

  function At(th: Thread, pc: Pc): Thread { th.(pc := pc) }

  function Blocks(slot: P.Slot): seq<Addr> { if slot.Attached? then slot.cache.blocks else [] }

  const FRESH_SLOT := P.Attached(P.Cache([], 0, 0))

  // The head leaves the list and is in hand.
  function TakeHead(s: State, th: Thread, list: seq<Addr>): Effect
    requires th.slot.Attached? && list != []
  {
    var cache := th.slot.cache;
    Same(s, Thread(P.Attached(P.Cache(list[1..], cache.acquired + 1, cache.released)), Mark(list[0])))
  }

  function PopStep(s: State, th: Thread, ok: bool): Effect
  {
    if th.slot.Gone? then Same(s, if ok then Thread(FRESH_SLOT, Pop) else At(th, Idle))
    else if th.slot.cache.blocks == [] then Same(s, At(th, FirstPop))
    else TakeHead(s, th, th.slot.cache.blocks)
  }

  // InterlockedPopEntrySList: some goes on with the chunk, none when the stack is empty.
  function PopStack(s: State, th: Thread, some: Pc, none: Pc): Effect
  {
    if s.chunks == [] then Same(s, At(th, none)) else Same(s, At(th, some)).(chunks := s.chunks[1..])
  }

  function StoreStep(s: State, th: Thread, ok: bool, grown: seq<seq<Addr>>): Effect
    requires th.pc.FirstPop? || th.pc.Lock? || th.pc.SecondPop? || th.pc.Grow? || th.pc.ThirdPop? || th.pc.Unlock?
  {
    var top := if s.chunks == [] then [] else s.chunks[0];
    match th.pc
    case FirstPop => PopStack(s, th, Adopt(top), Lock)
    case Lock => Same(s, At(th, SecondPop)).(locked := true)
    case SecondPop => PopStack(s, th, Unlock(top), Grow)
    case Grow => Same(s, At(th, if ok then Carve(grown) else Unlock([])))
    case ThirdPop => PopStack(s, th, Unlock(top), Unlock([]))
    case Unlock(chunk) => Same(s, At(th, if chunk == [] then Idle else Adopt(chunk))).(locked := false)
  }

  // One chunk is linked in fresh memory and pushed.
  function CarveStep(s: State, th: Thread): Effect
    requires th.pc.Carve?
  {
    if th.pc.left == [] then Same(s, At(th, ThirdPop))
    else
      var last := |th.pc.left| - 1;
      Same(s, At(th, Carve(th.pc.left[..last])))
      .(chunks := [th.pc.left[last]] + s.chunks, magic := P.Marked(th.pc.left[last], s.magic))
  }

  // Adopting a chunk fills the list of a thread whose list was empty, and takes the head.
  function AdoptStep(s: State, th: Thread): Effect
    requires th.pc.Adopt?
  {
    if th.slot.Gone? || th.pc.chunk == [] then Same(s, At(th, Idle)) else TakeHead(s, th, th.pc.chunk)
  }

  // Acquire reads the mark before it replaces it; a block that is not marked free is never handed out.
  function MarkStep(s: State, th: Thread): Effect
    requires th.pc.Mark? || th.pc.Stamp?
  {
    var b := th.pc.block;
    if th.pc.Stamp? then Same(s, At(th, Idle)).(magic := s.magic[b := P.MAGIC_LIVE])
    else Same(s, At(th, if b in s.magic && s.magic[b] == P.MAGIC_FREE then Stamp(b) else Idle))
  }

  function Cut(c: P.Spec, list: seq<Addr>): nat { if c.batch > |list| then |list| else c.batch }

  // Put: without a cache the block is pushed as a chunk of its own.
  function PutStep(c: P.Spec, s: State, th: Thread, ok: bool): Effect
    requires th.pc.Put?
  {
    var b := th.pc.block;
    if th.slot.Gone? then
      if ok then Same(s, th.(slot := FRESH_SLOT)) else Same(s, At(th, Orphan)).(chunks := [[b]] + s.chunks)
    else
      var cache, longer := th.slot.cache, [b] + th.slot.cache.blocks;
      if |longer| > c.cap then
        Same(s, Thread(P.Attached(P.Cache(longer[Cut(c, longer)..], cache.acquired, cache.released + 1)),
                       Flush(longer[..Cut(c, longer)])))
      else Same(s, Thread(P.Attached(P.Cache(longer, cache.acquired, cache.released + 1)), Idle))
  }

  function ReleaseStep(c: P.Spec, s: State, th: Thread, ok: bool): Effect
    requires th.pc.Check? || th.pc.Free? || th.pc.Put? || th.pc.Flush? || th.pc.Orphan?
  {
    match th.pc
    case Check(b) => Same(s, At(th, if b in s.magic && s.magic[b] == P.MAGIC_LIVE then Free(b) else Idle))
    case Free(b) => Same(s, At(th, Put(b))).(magic := s.magic[b := P.MAGIC_FREE])
    case Put(b) => PutStep(c, s, th, ok)
    case Flush(chunk) => Same(s, At(th, Idle)).(chunks := [chunk] + s.chunks)
    case Orphan => Same(s, At(th, Idle)).(retiredRelease := s.retiredRelease + 1)
  }

  // Detach: batch after batch, then the counters, under the registry's lock.
  function LeaveStep(c: P.Spec, s: State, th: Thread): Effect
    requires th.pc.Leave? || th.pc.LeaveFlush?
  {
    if th.pc.LeaveFlush? then Same(s, At(th, Leave)).(chunks := [th.pc.chunk] + s.chunks)
    else if th.slot.Gone? then Same(s, At(th, Idle))
    else
      var cache := th.slot.cache;
      if cache.blocks == [] then
        Effect(s.chunks, s.locked, s.magic, s.retiredAcquire + cache.acquired, s.retiredRelease + cache.released,
               Thread(P.Gone, Idle))
      else
        Same(s, Thread(P.Attached(cache.(blocks := cache.blocks[Cut(c, cache.blocks)..])),
                       LeaveFlush(cache.blocks[..Cut(c, cache.blocks)])))
  }

  function StepEffect(c: P.Spec, s: State, th: Thread, ok: bool, grown: seq<seq<Addr>>): Effect
    requires !th.pc.Idle?
  {
    if th.pc.Pop? then PopStep(s, th, ok)
    else if th.pc.Carve? then CarveStep(s, th)
    else if th.pc.Adopt? then AdoptStep(s, th)
    else if th.pc.Mark? || th.pc.Stamp? then MarkStep(s, th)
    else if th.pc.Leave? || th.pc.LeaveFlush? then LeaveStep(c, s, th)
    else if th.pc.Check? || th.pc.Free? || th.pc.Put? || th.pc.Flush? || th.pc.Orphan? then ReleaseStep(c, s, th, ok)
    else StoreStep(s, th, ok, grown)
  }

  function EffectOf(c: P.Spec, s: State, a: Action): Effect
    requires a.t < |s.threads| && (a.Step? ==> !s.threads[a.t].pc.Idle?)
  {
    var th := s.threads[a.t];
    match a
    case BeginAcquire(_) => Same(s, At(th, Pop))
    case BeginRelease(_, b) => Same(s, At(th, Check(b)))
    case BeginLeave(_) => Same(s, At(th, Leave))
    case Step(_, ok, grown) => StepEffect(c, s, th, ok, grown)
  }

  function Applied(s: State, t: nat, e: Effect): State
    requires t < |s.threads|
  {
    State(e.chunks, e.locked, s.threads[t := e.th], e.magic, e.retiredAcquire, e.retiredRelease)
  }

  ghost function Next(c: P.Spec, s: State, a: Action): State
    requires Enabled(c, s, a)
  {
    Applied(s, a.t, EffectOf(c, s, a))
  }

  // Before any thread uses the pool: what was preallocated waits in the store, all marked free.
  ghost predicate Initial(c: P.Spec, s: State)
  {
    && Fresh(c, map[], s.chunks) && !s.locked && s.retiredAcquire == 0 && s.retiredRelease == 0
    && (forall b :: b in s.magic <==> exists i :: 0 <= i < |s.chunks| && b in s.chunks[i])
    && (forall b :: b in s.magic ==> s.magic[b] == P.MAGIC_FREE)
    && forall t :: 0 <= t < |s.threads| ==> s.threads[t] == Thread(P.Gone, Idle)
  }

  ghost predicate Runs(c: P.Spec, s: State, schedule: seq<Action>)
    decreases |schedule|
  {
    schedule == [] || (Enabled(c, s, schedule[0]) && Runs(c, Next(c, s, schedule[0]), schedule[1..]))
  }

  ghost function After(c: P.Spec, s: State, schedule: seq<Action>): State
    requires Runs(c, s, schedule)
    decreases |schedule|
  {
    if schedule == [] then s else After(c, Next(c, s, schedule[0]), schedule[1..])
  }

  lemma {:induction false} RunsExtend(c: P.Spec, s: State, schedule: seq<Action>, a: Action)
    requires Runs(c, s, schedule) && Enabled(c, After(c, s, schedule), a)
    ensures Runs(c, s, schedule + [a]) && After(c, s, schedule + [a]) == Next(c, After(c, s, schedule), a)
    decreases |schedule|
  {
    hide Enabled, Next;
    if schedule == [] {
      assert [a][1..] == [];
    } else {
      RunsExtend(c, Next(c, s, schedule[0]), schedule[1..], a);
      assert (schedule + [a])[1..] == schedule[1..] + [a];
    }
  }

  // A Release that reads LIVE while another one of the same block has read it and not stored FREE yet.
  predicate Overlaps(s: State, a: Action)
  {
    a.Step? && a.t < |s.threads| && s.threads[a.t].pc.Check?
    && (var b := s.threads[a.t].pc.block;
        && b in s.magic && s.magic[b] == P.MAGIC_LIVE
        && exists u :: 0 <= u < |s.threads| && u != a.t && s.threads[u].pc == Free(b))
  }

  // A run in which that never happens.
  ghost predicate Careful(c: P.Spec, s: State, schedule: seq<Action>)
    decreases |schedule|
  {
    schedule == []
    || (Enabled(c, s, schedule[0]) && !Overlaps(s, schedule[0]) && Careful(c, Next(c, s, schedule[0]), schedule[1..]))
  }

  lemma {:induction false} CarefulRuns(c: P.Spec, s: State, schedule: seq<Action>)
    requires Careful(c, s, schedule)
    ensures Runs(c, s, schedule)
    decreases |schedule|
  {
    if schedule != [] { CarefulRuns(c, Next(c, s, schedule[0]), schedule[1..]); }
  }
}
