/**
 One size bin of the memory pool: blocks are created in segments, wait in chunks in the global store,
 sit in the free lists of thread caches, or are out with a caller.  Any thread may run any operation
 at any time; a block released by another thread than the one that acquired it simply joins the
 releaser's cache.
 */
module BlockPoolProtocol {
  import opened Tally

  type Addr = nat

  const MAGIC_LIVE := 0xA110C8ED
  const MAGIC_FREE := 0xF2EEB10C

  // The part of BinSpec the movement of blocks depends on.
  datatype Spec = Spec(cap: nat, batch: nat)

  predicate Sensible(c: Spec)
  {
    1 <= c.batch && (c.cap == 0 ==> c.batch == 1) && (c.cap > 0 ==> 4 * c.batch <= c.cap)
  }

  // A thread's free list for the bin, head first, and its two counters.
  datatype Cache = Cache(blocks: seq<Addr>, acquired: nat, released: nat)

  // chunks: the global store, top of the stack first.  caches: one for every thread, if it has one.
  // live: the blocks out with callers.
  datatype Slot = Gone | Attached(cache: Cache)
  datatype State = State(chunks: seq<seq<Addr>>, caches: seq<Slot>, magic: map<Addr, nat>, live: set<Addr>,
                         retiredAcquire: nat, retiredRelease: nat)

  // grown: the blocks of the segment a grow carves, empty where growth is refused.
  datatype Action =
    | Preallocate(grown: seq<seq<Addr>>)
    | Attach(t: nat)
    | Detach(t: nat)
    | Acquire(t: nat, grown: seq<seq<Addr>>)
    | Release(t: nat, block: Addr)
    | ReleaseUncached(block: Addr)

  function Flat(chunks: seq<seq<Addr>>): seq<Addr>
  {
    if chunks == [] then [] else chunks[0] + Flat(chunks[1..])
  }

  // Chunks carved from fresh memory: non-empty, no longer than a batch, no block twice and none known.
  ghost predicate FreshChunks(c: Spec, s: State, grown: seq<seq<Addr>>)
  {
    && (forall i :: 0 <= i < |grown| ==> 1 <= |grown[i]| <= c.batch)
    && (forall i, j :: 0 <= i < j < |Flat(grown)| ==> Flat(grown)[i] != Flat(grown)[j])
    && (forall b :: b in Flat(grown) ==> b !in s.magic)
  }

  predicate HasCache(s: State, t: nat)
  {
    t < |s.caches| && s.caches[t].Attached?
  }

  ghost predicate Enabled(c: Spec, s: State, a: Action)
  {
    match a
    case Preallocate(grown) => FreshChunks(c, s, grown)
    case Attach(t) => t < |s.caches| && s.caches[t].Gone?
    case Detach(t) => HasCache(s, t)
    case Acquire(t, grown) => HasCache(s, t) && FreshChunks(c, s, grown)
    case Release(t, b) => HasCache(s, t) && b in s.magic
    case ReleaseUncached(b) => b in s.magic
  }

  function Marked(blocks: seq<Addr>, magic: map<Addr, nat>): map<Addr, nat>
  {
    map b | b in magic.Keys + (set x | x in blocks) :: if b in blocks then MAGIC_FREE else magic[b]
  }

  // CarveAndPush: the carved chunks go on top of the stack, the last one carved uppermost.
  function Grow(s: State, grown: seq<seq<Addr>>): State
  {
    s.(chunks := grown + s.chunks, magic := Marked(Flat(grown), s.magic))
  }

  function WithCache(s: State, t: nat, cache: Cache): State
    requires HasCache(s, t)
  {
    s.(caches := s.caches[t := Attached(cache)])
  }

  // Refill: the top chunk becomes the (empty) free list; growth is tried when the store is empty.
  function Refill(s: State, t: nat, grown: seq<seq<Addr>>): State
    requires HasCache(s, t)
  {
    var stocked := if s.chunks == [] then Grow(s, grown) else s;
    if stocked.chunks == [] then stocked
    else WithCache(stocked, t, stocked.caches[t].cache.(blocks := stocked.chunks[0])).(chunks := stocked.chunks[1..])
  }

  // ThreadBlockCache::Pop, then the magic flips.
  function Take(s: State, t: nat): State
    requires HasCache(s, t)
  {
    var cache := s.caches[t].cache;
    if cache.blocks == [] then s
    else
      WithCache(s, t, Cache(cache.blocks[1..], cache.acquired + 1, cache.released))
      .(magic := s.magic[cache.blocks[0] := MAGIC_LIVE], live := s.live + {cache.blocks[0]})
  }

  // The free list as it is when Acquire takes its head.
  function Ready(s: State, t: nat, grown: seq<seq<Addr>>): (r: State)
    requires HasCache(s, t)
    ensures HasCache(r, t)
  {
    if s.caches[t].cache.blocks == [] then Refill(s, t, grown) else s
  }

  function AcquireNext(s: State, t: nat, grown: seq<seq<Addr>>): State
    requires HasCache(s, t)
  {
    Take(Ready(s, t, grown), t)
  }

  // What Acquire hands out: a block, or nothing.
  function AcquireResult(s: State, t: nat, grown: seq<seq<Addr>>): (r: seq<Addr>)
    requires HasCache(s, t)
    ensures |r| <= 1
  {
    var blocks := Ready(s, t, grown).caches[t].cache.blocks;
    if blocks == [] then [] else [blocks[0]]
  }

  // Flush(bin, false): the first blocks of the list, a batch of them or all there are.
  function FlushOnce(c: Spec, s: State, t: nat): State
    requires HasCache(s, t)
  {
    var cache := s.caches[t].cache;
    if cache.blocks == [] then s
    else
      var take := if c.batch > |cache.blocks| then |cache.blocks| else c.batch;
      WithCache(s, t, cache.(blocks := cache.blocks[take..])).(chunks := [cache.blocks[..take]] + s.chunks)
  }

  // Flush(bin, true).
  function FlushAll(c: Spec, s: State, t: nat): State
    requires HasCache(s, t) && c.batch > 0
    decreases |s.caches[t].cache.blocks|
  {
    if s.caches[t].cache.blocks == [] then s else FlushAll(c, FlushOnce(c, s, t), t)
  }

  // The released block is marked free and joins the releaser's list.
  function Pushed(s: State, t: nat, b: Addr): (r: State)
    requires HasCache(s, t)
    ensures HasCache(r, t)
  {
    var cache := s.caches[t].cache;
    WithCache(s, t, Cache([b] + cache.blocks, cache.acquired, cache.released + 1))
    .(magic := s.magic[b := MAGIC_FREE], live := s.live - {b})
  }

  function Put(c: Spec, s: State, t: nat, b: Addr): State
    requires HasCache(s, t)
  {
    if |s.caches[t].cache.blocks| + 1 > c.cap then FlushOnce(c, Pushed(s, t, b), t) else Pushed(s, t, b)
  }

  // Release refuses a block that is already marked free.
  function ReleaseNext(c: Spec, s: State, t: nat, b: Addr): State
    requires HasCache(s, t) && b in s.magic
  {
    if s.magic[b] != MAGIC_LIVE then s else Put(c, s, t, b)
  }

  // Without a cache the block becomes a chunk of its own, and the release is counted centrally.
  function ReleaseUncachedNext(s: State, b: Addr): State
    requires b in s.magic
  {
    if s.magic[b] != MAGIC_LIVE then s
    else s.(chunks := [[b]] + s.chunks, magic := s.magic[b := MAGIC_FREE], live := s.live - {b},
            retiredRelease := s.retiredRelease + 1)
  }

  function DetachNext(c: Spec, s: State, t: nat): State
    requires HasCache(s, t) && c.batch > 0
  {
    var flushed := FlushAll(c, s, t);
    var cache := s.caches[t].cache;
    flushed.(caches := s.caches[t := Gone],
             retiredAcquire := s.retiredAcquire + cache.acquired,
             retiredRelease := s.retiredRelease + cache.released)
  }

  function Next(c: Spec, s: State, a: Action): State
    requires c.batch > 0 && Enabled(c, s, a)
  {
    match a
    case Preallocate(grown) => Grow(s, grown)
    case Attach(t) => s.(caches := s.caches[t := Attached(Cache([], 0, 0))])
    case Detach(t) => DetachNext(c, s, t)
    case Acquire(t, grown) => AcquireNext(s, t, grown)
    case Release(t, b) => ReleaseNext(c, s, t, b)
    case ReleaseUncached(b) => ReleaseUncachedNext(s, b)
  }

  ghost predicate Initial(s: State)
  {
    && s.chunks == [] && s.magic == map[] && s.live == {} && s.retiredAcquire == 0 && s.retiredRelease == 0
    && forall t :: 0 <= t < |s.caches| ==> s.caches[t].Gone?
  }

  ghost predicate Runs(c: Spec, s: State, schedule: seq<Action>)
    requires c.batch > 0
    decreases |schedule|
  {
    schedule == [] || (Enabled(c, s, schedule[0]) && Runs(c, Next(c, s, schedule[0]), schedule[1..]))
  }

  ghost function After(c: Spec, s: State, schedule: seq<Action>): State
    requires c.batch > 0 && Runs(c, s, schedule)
    decreases |schedule|
  {
    if schedule == [] then s else After(c, Next(c, s, schedule[0]), schedule[1..])
  }
}
