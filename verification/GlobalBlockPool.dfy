/**
 The global store: segments from the operating system, cut into blocks, linked into chunks that thread
 caches take and bring back whole.  Chunk bookkeeping lives in the payload of each chunk's first block.
 */
module GlobalBlockPool {
  import opened Tally
  import opened BlockMemory
  import opened MemoryLayout
  import opened SizeBin
  import C = CommitLimit
  import P = BlockPoolProtocol

  // GlobalBlockPool::Bin.  chunkList is the SLIST, top first, of node addresses.
  datatype Bin = Bin(chunkList: seq<Addr>, blocksInPool: int, minBlocksInPool: int, blocksCreated: nat,
                     growthCount: nat, failCount: nat, segments: seq<Segment>, committedBytes: nat)

  function CommittedOf(bin: Bin): nat { bin.committedBytes }
  function BytesOf(s: Segment): nat { s.bytes }

  ghost predicate Kept(h: Headers, h': Headers)
  {
    forall b :: b in h ==> b in h' && h'[b] == h[b]
  }

  // The memory gains exactly these blocks, free ones of the bin with the pool's mark, and keeps the rest.
  ghost predicate AddsFree(h: Headers, h': Headers, blocks: set<Addr>, bin: nat, ownerTag: nat)
  {
    && Kept(h, h') && h'.Keys == h.Keys + blocks
    && (forall b :: b in h' && b !in h ==> h'[b].magic == P.MAGIC_FREE && h'[b].binIndex == bin && h'[b].poolId == ownerTag)
  }

  lemma {:induction false} FlatLength(chunks: seq<seq<Addr>>, more: seq<seq<Addr>>)
    ensures |P.Flat(chunks + more)| == |P.Flat(chunks)| + |P.Flat(more)|
  {
    if chunks == [] {
      assert chunks + more == more;
    } else {
      FlatLength(chunks[1..], more);
      assert (chunks + more)[1..] == chunks[1..] + more;
    }
  }

  // How many blocks a new segment holds, and its bytes.
  function SegmentBlockCount(spec: BinSpec, minBlocks: nat): (n: nat)
    ensures n >= spec.blocksPerSegment && n >= minBlocks && (n == spec.blocksPerSegment || n == minBlocks)
  {
    if spec.blocksPerSegment < minBlocks then minBlocks else spec.blocksPerSegment
  }

  // The chunks a new segment is cut into, and its blocks.
  function NewChunks(spec: BinSpec, minBlocks: nat, base: Addr): seq<seq<Addr>>
    requires spec.batchBlocks > 0
  {
    Carve(base, spec.stride, spec.batchBlocks, 0, SegmentBlockCount(spec, minBlocks))
  }

  function NewBlocks(spec: BinSpec, minBlocks: nat, base: Addr): set<Addr>
  {
    BlocksBetween(base, spec.stride, 0, SegmentBlockCount(spec, minBlocks))
  }

  // VirtualAlloc maps memory nobody has: no block of the new segment is known.
  ghost predicate Unmapped(h: Headers, spec: BinSpec, minBlocks: nat, base: Addr)
  {
    base != NULL ==> forall j :: 0 <= j < SegmentBlockCount(spec, minBlocks) ==> BlockAt(base, spec.stride, j) !in h
  }

  function SegmentBytes(spec: BinSpec, minBlocks: nat): nat { spec.stride * SegmentBlockCount(spec, minBlocks) }

  // The bin's segments with a new one.
  function WithSegment(mapped: seq<seq<Segment>>, bin: nat, spec: BinSpec, minBlocks: nat, base: Addr): seq<seq<Segment>>
    requires bin < |mapped|
  {
    mapped[bin := mapped[bin] + [Segment(base, SegmentBytes(spec, minBlocks))]]
  }

  // A bin's fields describe its chunks.
  ghost predicate BinOk(h: Headers, nodes: Nodes, headerSize: nat, bin: Bin, stored: seq<seq<Addr>>, b: nat)
  {
    && ChunksAt(h, nodes, headerSize, bin.chunkList, stored, b)
    && bin.blocksInPool == |P.Flat(stored)|
    && bin.committedBytes == Total(bin.segments, BytesOf)
  }

  ghost predicate AllOk(h: Headers, nodes: Nodes, headerSize: nat, bins: seq<Bin>, chunks: seq<seq<seq<Addr>>>)
  {
    |bins| == |chunks| && forall b :: 0 <= b < |bins| ==> BinOk(h, nodes, headerSize, bins[b], chunks[b], b)
  }

  // The segments of every bin, as its fields list them.
  ghost predicate ListsSegments(bins: seq<Bin>, mapped: seq<seq<Segment>>)
  {
    |bins| == |mapped| && forall b :: 0 <= b < |bins| ==> bins[b].segments == mapped[b]
  }

  // What a call adds to a bin's statistics: blocks made, grows at run time, failures.  The others keep theirs.
  ghost predicate Tallied(bins: seq<Bin>, bins': seq<Bin>, bin: nat, created: nat, growth: nat, fails: nat)
  {
    |bins'| == |bins| &&
    forall b :: 0 <= b < |bins| ==>
      && bins'[b].blocksCreated == bins[b].blocksCreated + (if b == bin then created else 0)
      && bins'[b].growthCount == bins[b].growthCount + (if b == bin then growth else 0)
      && bins'[b].failCount == bins[b].failCount + (if b == bin then fails else 0)
  }

  // The pool as the protocol of concurrent growth sees it while nobody grows.
  ghost function Growing(specs: seq<BinSpec>, mapped: seq<seq<Segment>>, committedBytes: nat): C.State
    requires |mapped| == |specs|
  {
    C.State(committedBytes, seq(|specs|, b requires 0 <= b < |specs| =>
      C.Bin(SegmentBytes(specs[b], specs[b].batchBlocks), Total(mapped[b], BytesOf), C.NoGrow)))
  }

  // One more segment of a bin, as that protocol counts it.
  lemma GrowingOnce(specs: seq<BinSpec>, mapped: seq<seq<Segment>>, committedBytes: nat, b: nat, base: Addr)
    requires |mapped| == |specs| && b < |specs|
    ensures var s, bin := Growing(specs, mapped, committedBytes), Growing(specs, mapped, committedBytes).bins[b];
            Growing(specs, WithSegment(mapped, b, specs[b], specs[b].batchBlocks, base), committedBytes + bin.segment)
            == C.State(s.total + bin.segment, s.bins[b := C.Bin(bin.segment, bin.committed + bin.segment, C.NoGrow)])
  {
    var one := Segment(base, SegmentBytes(specs[b], specs[b].batchBlocks));
    Concat(mapped[b], [one], BytesOf);
    Single(one, BytesOf);
  }

  // A grow at run time nobody else interferes with is one undisturbed grow of that protocol.
  ghost predicate GrewAlone(specs: seq<BinSpec>, limit: nat, mapped: seq<seq<Segment>>, committed: nat,
                            mapped': seq<seq<Segment>>, committed': nat, bin: nat, segment: Addr, listed: bool)
    requires |mapped| == |mapped'| == |specs| && bin < |specs|
  {
    var before := Growing(specs, mapped, committed);
    var path := C.Alone(limit, before, bin, segment != NULL, listed);
    && C.Runs(limit, before, path)
    && C.After(limit, before, path) == Growing(specs, mapped', committed')
  }

  lemma GrowsAlone(specs: seq<BinSpec>, limit: nat, mapped: seq<seq<Segment>>, committed: nat, bin: nat, segment: Addr, listed: bool,
                   mapped': seq<seq<Segment>>, committed': nat)
    requires |mapped| == |specs| && bin < |specs|
    requires var bytes := SegmentBytes(specs[bin], specs[bin].batchBlocks);
             if (limit == 0 || committed + bytes <= limit) && segment != NULL && listed then
               mapped' == WithSegment(mapped, bin, specs[bin], specs[bin].batchBlocks, segment) && committed' == committed + bytes
             else mapped' == mapped && committed' == committed
    ensures GrewAlone(specs, limit, mapped, committed, mapped', committed', bin, segment, listed)
  {
    hide C.Runs, C.After, Total;
    GrowingOnce(specs, mapped, committed, bin, segment);
    C.AloneRuns(limit, Growing(specs, mapped, committed), bin, segment != NULL, listed);
  }

  // The pool's count is the sum of the bins', so what is proved of runs from such a state is proved of it.
  lemma {:induction false} GrowingIsInitial(specs: seq<BinSpec>, bins: seq<Bin>, mapped: seq<seq<Segment>>, committedBytes: nat)
    requires |bins| == |mapped| == |specs| && committedBytes == Total(bins, CommittedOf)
    requires forall b :: 0 <= b < |bins| ==> bins[b].committedBytes == Total(mapped[b], BytesOf)
    ensures C.Initial(Growing(specs, mapped, committedBytes))
  {
    var rows := Growing(specs, mapped, committedBytes).bins;
    if bins != [] {
      var last := |bins| - 1;
      var shorter := Growing(specs[..last], mapped[..last], Total(bins[..last], CommittedOf));
      GrowingIsInitial(specs[..last], bins[..last], mapped[..last], Total(bins[..last], CommittedOf));
      assert rows[..last] == shorter.bins;
    }
  }

  // The head of a chunk is not the head of any chunk already stored.
  ghost predicate NewHead(chunks: seq<seq<seq<Addr>>>, head: Addr)
  {
    forall b, i :: 0 <= b < |chunks| && 0 <= i < |chunks[b]| && chunks[b][i] != [] ==> chunks[b][i][0] != head
  }

  // Headers that keep every block, and nodes that keep all but one new one, keep every bin.
  lemma MemoryGrows(h: Headers, h': Headers, nodes: Nodes, node: Addr, value: ChunkNode, headerSize: nat, bins: seq<Bin>,
                    chunks: seq<seq<seq<Addr>>>)
    requires AllOk(h, nodes, headerSize, bins, chunks) && Kept(h, h')
    requires forall b, i :: 0 <= b < |chunks| && 0 <= i < |chunks[b]| && chunks[b][i] != [] ==> chunks[b][i][0] + headerSize != node
    ensures AllOk(h', nodes[node := value], headerSize, bins, chunks)
  {
    forall b | 0 <= b < |bins| ensures BinOk(h', nodes[node := value], headerSize, bins[b], chunks[b], b) {
      var list, stored := bins[b].chunkList, chunks[b];
      assert BinOk(h, nodes, headerSize, bins[b], chunks[b], b);
      forall i | 0 <= i < |list| ensures list[i] in nodes && list[i] != node {
        assert ChunkAt(h, nodes, headerSize, list[i], stored[i], b);
      }
      forall i, x | 0 <= i < |stored| && x in stored[i] ensures x in h {
        assert ChunkAt(h, nodes, headerSize, list[i], stored[i], b);
      }
      ChunksKept(h, h', nodes, nodes[node := value], headerSize, list, stored, b);
    }
  }

  lemma PushedChunk(h: Headers, nodes: Nodes, headerSize: nat, chain: seq<Addr>, bin: Bin, stored: seq<seq<Addr>>, b: nat)
    requires BinOk(h, nodes, headerSize, bin, stored, b) && chain != []
    requires ChunkAt(h, nodes, headerSize, chain[0] + headerSize, chain, b)
    ensures BinOk(h, nodes, headerSize, Stacked(bin, chain[0] + headerSize, |chain|), [chain] + stored, b)
  {
    var longer, all := [chain[0] + headerSize] + bin.chunkList, [chain] + stored;
    forall i | 0 <= i < |longer| ensures ChunkAt(h, nodes, headerSize, longer[i], all[i], b) {
      if i > 0 {
        assert ChunkAt(h, nodes, headerSize, bin.chunkList[i - 1], stored[i - 1], b);
      }
    }
    assert all[1..] == stored;
  }

  // The bin after InterlockedPushEntrySList and the count.
  function Stacked(bin: Bin, node: Addr, count: nat): Bin
  {
    bin.(chunkList := [node] + bin.chunkList, blocksInPool := bin.blocksInPool + count)
  }

  lemma TopChunk(h: Headers, nodes: Nodes, headerSize: nat, bin: Bin, stored: seq<seq<Addr>>, b: nat, minimum: int)
    requires BinOk(h, nodes, headerSize, bin, stored, b) && stored != []
    ensures ChunkAt(h, nodes, headerSize, bin.chunkList[0], stored[0], b)
    ensures BinOk(h, nodes, headerSize,
                  bin.(chunkList := bin.chunkList[1..], blocksInPool := bin.blocksInPool - |stored[0]|, minBlocksInPool := minimum),
                  stored[1..], b)
  {
    forall i | 0 <= i < |stored[1..]|
      ensures ChunkAt(h, nodes, headerSize, bin.chunkList[1..][i], stored[1..][i], b)
    {
      assert ChunkAt(h, nodes, headerSize, bin.chunkList[i + 1], stored[i + 1], b);
    }
  }

  // Fresh headers change no bin, and none of them heads a stored chunk.
  lemma HeadersGrow(h: Headers, h': Headers, nodes: Nodes, headerSize: nat, bins: seq<Bin>, chunks: seq<seq<seq<Addr>>>, head: Addr)
    requires AllOk(h, nodes, headerSize, bins, chunks) && Kept(h, h') && head !in h
    ensures AllOk(h', nodes, headerSize, bins, chunks) && NewHead(chunks, head)
  {
    forall b, i | 0 <= b < |chunks| && 0 <= i < |chunks[b]| && chunks[b][i] != []
      ensures chunks[b][i][0] != head
    {
      assert BinOk(h, nodes, headerSize, bins[b], chunks[b], b);
      assert ChunkAt(h, nodes, headerSize, bins[b].chunkList[i], chunks[b][i], b);
    }
    forall b | 0 <= b < |bins| ensures BinOk(h', nodes, headerSize, bins[b], chunks[b], b) {
      assert BinOk(h, nodes, headerSize, bins[b], chunks[b], b);
      forall i, x | 0 <= i < |chunks[b]| && x in chunks[b][i] ensures x in h {
        assert ChunkAt(h, nodes, headerSize, bins[b].chunkList[i], chunks[b][i], b);
      }
      forall i | 0 <= i < |bins[b].chunkList| ensures bins[b].chunkList[i] in nodes {
        assert ChunkAt(h, nodes, headerSize, bins[b].chunkList[i], chunks[b][i], b);
      }
      ChunksKept(h, h', nodes, nodes, headerSize, bins[b].chunkList, chunks[b], b);
    }
  }

  lemma NoRunYet(h: Headers, base: Addr, stride: nat, from: nat, bin: nat, ownerTag: nat)
    ensures Run(base, stride, from, 0) == [] && Links(h, [], bin)
    ensures AddsFree(h, h, BlocksBetween(base, stride, from, from), bin, ownerTag)
  {
  }

  // One more header in front of the run.
  lemma RunGrows(h0: Headers, h: Headers, base: Addr, stride: nat, from: nat, i: nat, bin: nat, ownerTag: nat, head: Addr)
    requires base != NULL && stride > 0 && BlockAt(base, stride, from + i) !in h0
    requires head == First(Run(base, stride, from, i)) && Links(h, Run(base, stride, from, i), bin)
    requires AddsFree(h0, h, BlocksBetween(base, stride, from, from + i), bin, ownerTag)
    ensures var header := BlockAt(base, stride, from + i);
            var h' := h[header := BlockHeader(P.MAGIC_FREE, bin, ownerTag, head)];
            && header == First(Run(base, stride, from, i + 1)) && Links(h', Run(base, stride, from, i + 1), bin)
            && AddsFree(h0, h', BlocksBetween(base, stride, from, from + i + 1), bin, ownerTag)
  {
    var header := BlockAt(base, stride, from + i);
    forall j | from <= j < from + i ensures BlockAt(base, stride, j) != header {
      StridesApart(base, stride, j, from + i);
    }
    RunOnTop(base, stride, from, i);
    LinksPush(h, header, BlockHeader(P.MAGIC_FREE, bin, ownerTag, head), Run(base, stride, from, i), bin);
    hide Links, Run, BlockAt;
    assert header !in h by { assert header !in BlocksBetween(base, stride, from, from + i); }
    assert BlocksBetween(base, stride, from, from + i + 1) == BlocksBetween(base, stride, from, from + i) + {header};
  }

  lemma RunOnTop(base: Addr, stride: nat, from: nat, i: nat)
    requires stride > 0
    ensures BlockAt(base, stride, from + i) !in Run(base, stride, from, i)
    ensures Run(base, stride, from, i + 1) == [BlockAt(base, stride, from + i)] + Run(base, stride, from, i)
  {
    forall j | from <= j < from + i ensures BlockAt(base, stride, j) != BlockAt(base, stride, from + i) {
      StridesApart(base, stride, j, from + i);
    }
  }

  lemma NothingCarved(h: Headers, base: Addr, stride: nat, batch: nat, bin: nat, ownerTag: nat, blocks: nat)
    requires batch > 0
    ensures AddsFree(h, h, BlocksBetween(base, stride, 0, 0), bin, ownerTag)
  {
  }

  lemma NothingLeft(base: Addr, stride: nat, batch: nat, blocks: nat, stored: seq<seq<Addr>>)
    requires batch > 0
    ensures Carve(base, stride, batch, blocks, blocks) + stored == stored
  {
  }

  lemma CarveStep(base: Addr, stride: nat, batch: nat, done: nat, blocks: nat, stored: seq<seq<Addr>>)
    requires batch > 0 && done < blocks
    ensures var take := Less(batch, blocks - done);
            Carve(base, stride, batch, done, blocks) + stored
            == Carve(base, stride, batch, done + take, blocks) + ([Run(base, stride, done, take)] + stored)
  {
  }

  lemma RunHead(base: Addr, stride: nat, from: nat, take: nat)
    requires take > 0
    ensures Run(base, stride, from, take)[0] == BlockAt(base, stride, from + take - 1)
  {
  }

  // The part not carved yet has no block in common with the part that is.
  lemma StillFresh(h0: Headers, h: Headers, base: Addr, stride: nat, done: nat, blocks: nat, bin: nat, ownerTag: nat)
    requires stride > 0 && AddsFree(h0, h, BlocksBetween(base, stride, 0, done), bin, ownerTag)
    requires forall j :: 0 <= j < blocks ==> BlockAt(base, stride, j) !in h0
    ensures forall j :: done <= j < blocks ==> BlockAt(base, stride, j) !in h
  {
    forall j, i | done <= j < blocks && 0 <= i < done ensures BlockAt(base, stride, i) != BlockAt(base, stride, j) {
      StridesApart(base, stride, i, j);
    }
  }

  lemma AddedTwice(h0: Headers, h: Headers, h': Headers, base: Addr, stride: nat, done: nat, take: nat, bin: nat, ownerTag: nat)
    requires AddsFree(h0, h, BlocksBetween(base, stride, 0, done), bin, ownerTag)
    requires AddsFree(h, h', BlocksBetween(base, stride, done, done + take), bin, ownerTag)
    ensures AddsFree(h0, h', BlocksBetween(base, stride, 0, done + take), bin, ownerTag) && Kept(h, h')
  {
    assert BlocksBetween(base, stride, 0, done) + BlocksBetween(base, stride, done, done + take)
        == BlocksBetween(base, stride, 0, done + take);
  }

  class GlobalBlockPool {
    const mem: Memory
    const specs: seq<BinSpec>
    const headerSize: nat
    const ownerTag: nat
    var bins: seq<Bin>
    var committedBytes: nat
    var commitLimitHits: nat
    var maxCommittedBytes: nat
    // The chunks of every bin, top of the stack first.
    ghost var chunks: seq<seq<seq<Addr>>>
    // The segments of every bin, oldest first.
    ghost var mapped: seq<seq<Segment>>

    ghost predicate Valid()
      reads this, mem
    {
      && |bins| == |chunks| == |specs| && ListsSegments(bins, mapped) && AllOk(mem.headers, mem.nodes, headerSize, bins, chunks)
      && (forall b :: 0 <= b < |specs| ==> specs[b].batchBlocks > 0)
      && committedBytes == Total(bins, CommittedOf)
    }

    constructor (mem: Memory, specs: seq<BinSpec>, headerSize: nat, ownerTag: nat)
      requires forall b :: 0 <= b < |specs| ==> specs[b].batchBlocks > 0
      ensures Valid() && this.mem == mem && this.specs == specs && this.headerSize == headerSize && this.ownerTag == ownerTag
      ensures chunks == seq(|specs|, _ => []) && mapped == seq(|specs|, _ => []) && committedBytes == 0 && maxCommittedBytes == 0
    {
      this.mem, this.specs, this.headerSize, this.ownerTag := mem, specs, headerSize, ownerTag;
      bins := seq(|specs|, _ => Bin([], 0, 0x7fff_ffff_ffff_ffff, 0, 0, 0, [], 0));
      chunks, mapped := seq(|specs|, _ => []), seq(|specs|, _ => []);
      committedBytes, commitLimitHits, maxCommittedBytes := 0, 0, 0;
      new;
      Zero(bins, CommittedOf);
    }

    // Writes the node into the payload of the first block and pushes the chunk.
    method PushChunk(bin: nat, head: Addr, count: nat, ghost chain: seq<Addr>)
      requires Valid() && bin < |bins|
      requires |chain| == count && First(chain) == head && Links(mem.headers, chain, bin) && NewHead(chunks, head)
      modifies this`bins, this`chunks, mem`nodes
      ensures Valid()
      ensures chunks == if count > 0 then old(chunks)[bin := [chain] + old(chunks)[bin]] else old(chunks)
      ensures Tallied(old(bins), bins, bin, 0, 0, 0)
    {
      if head == NULL || count == 0 {
        return;
      }
      var node := head + headerSize;
      MemoryGrows(mem.headers, mem.headers, mem.nodes, node, ChunkNode(head, count), headerSize, bins, chunks);
      mem.nodes := mem.nodes[node := ChunkNode(head, count)];
      PushedChunk(mem.headers, mem.nodes, headerSize, chain, bins[bin], chunks[bin], bin);
      Update(bins, bin, Stacked(bins[bin], node, count), CommittedOf);
      bins := bins[bin := Stacked(bins[bin], node, count)];
      chunks := chunks[bin := [chain] + chunks[bin]];
    }

    // The inner loop of CarveAndPush: `take` fresh headers, each pushed in front of the ones before.
    method LinkRun(bin: nat, base: Addr, stride: nat, from: nat, take: nat) returns (head: Addr)
      requires base != NULL && stride > 0
      requires forall j :: from <= j < from + take ==> BlockAt(base, stride, j) !in mem.headers
      modifies mem`headers
      ensures head == First(Run(base, stride, from, take)) && Links(mem.headers, Run(base, stride, from, take), bin)
      ensures AddsFree(old(mem.headers), mem.headers, BlocksBetween(base, stride, from, from + take), bin, ownerTag)
    {
      hide AddsFree, Links, Run, BlockAt, BlocksBetween;
      head := NULL;
      var i := 0;
      NoRunYet(mem.headers, base, stride, from, bin, ownerTag);
      while i < take
        invariant i <= take
        invariant head == First(Run(base, stride, from, i)) && Links(mem.headers, Run(base, stride, from, i), bin)
        invariant AddsFree(old(mem.headers), mem.headers, BlocksBetween(base, stride, from, from + i), bin, ownerTag)
      {
        var header := BlockAt(base, stride, from + i);
        RunGrows(old(mem.headers), mem.headers, base, stride, from, i, bin, ownerTag, head);
        mem.headers := mem.headers[header := BlockHeader(P.MAGIC_FREE, bin, ownerTag, head)];
        head := header;
        i := i + 1;
      }
    }

    // Cuts a segment into linked chunks of a batch each and pushes them, the last one uppermost.
    method CarveAndPush(bin: nat, base: Addr, blocks: nat)
      requires Valid() && bin < |bins| && base != NULL && specs[bin].stride > 0
      requires forall j :: 0 <= j < blocks ==> BlockAt(base, specs[bin].stride, j) !in mem.headers
      modifies this`bins, this`chunks, mem
      ensures Valid()
      ensures chunks == old(chunks)[bin := Carve(base, specs[bin].stride, specs[bin].batchBlocks, 0, blocks) + old(chunks)[bin]]
      ensures AddsFree(old(mem.headers), mem.headers, BlocksBetween(base, specs[bin].stride, 0, blocks), bin, ownerTag)
      ensures Tallied(old(bins), bins, bin, 0, 0, 0)
    {
      hide AddsFree, BlocksBetween, Links, Run, AllOk, Carve, NewHead, Total;
      var spec := specs[bin];
      var done := 0;
      NothingCarved(mem.headers, base, spec.stride, spec.batchBlocks, bin, ownerTag, blocks);
      while done < blocks
        invariant Valid() && done <= blocks && Tallied(old(bins), bins, bin, 0, 0, 0)
        invariant chunks == old(chunks)[bin := chunks[bin]]
        invariant Carve(base, spec.stride, spec.batchBlocks, 0, blocks) + old(chunks)[bin]
               == Carve(base, spec.stride, spec.batchBlocks, done, blocks) + chunks[bin]
        invariant AddsFree(old(mem.headers), mem.headers, BlocksBetween(base, spec.stride, 0, done), bin, ownerTag)
        decreases blocks - done
      {
        var take := spec.batchBlocks;
        if take > blocks - done {
          take := blocks - done;
        }
        ghost var h := mem.headers;
        StillFresh(old(mem.headers), h, base, spec.stride, done, blocks, bin, ownerTag);
        var head := LinkRun(bin, base, spec.stride, done, take);
        ghost var run := Run(base, spec.stride, done, take);
        AddedTwice(old(mem.headers), h, mem.headers, base, spec.stride, done, take, bin, ownerTag);
        RunHead(base, spec.stride, done, take);
        HeadersGrow(h, mem.headers, mem.nodes, headerSize, bins, chunks, run[0]);
        CarveStep(base, spec.stride, spec.batchBlocks, done, blocks, chunks[bin]);
        PushChunk(bin, head, take, run);
        done := done + take;
      }
      NothingLeft(base, spec.stride, spec.batchBlocks, blocks, chunks[bin]);
    }

    // Lowest stock seen, the ground for sizing a pool.
    method NotePopped(bin: nat, count: nat)
      requires bin < |bins|
      modifies this`bins
      ensures bins == old(bins)[bin := old(bins)[bin].(blocksInPool := old(bins)[bin].blocksInPool - count,
                                                       minBlocksInPool := Lower(old(bins)[bin].minBlocksInPool,
                                                                                old(bins)[bin].blocksInPool - count))]
    {
      var target := bins[bin];
      var remaining := target.blocksInPool - count;
      if remaining >= target.minBlocksInPool {
        bins := bins[bin := target.(blocksInPool := remaining)];
      } else {
        bins := bins[bin := target.(blocksInPool := remaining, minBlocksInPool := remaining)];
      }
    }

    // The segment joins the bin's list and both byte counts rise; listed: whether the list could be grown.
    method RecordSegmentLocked(bin: nat, base: Addr, bytes: nat, listed: bool) returns (ok: bool)
      requires Valid() && bin < |bins|
      modifies this`bins, this`mapped, this`committedBytes
      ensures Valid() && ok == listed
      ensures ok ==> committedBytes == old(committedBytes) + bytes
                     && bins == old(bins)[bin := Recorded(old(bins)[bin], base, bytes)]
      ensures mapped == if ok then old(mapped)[bin := old(mapped)[bin] + [Segment(base, bytes)]] else old(mapped)
      ensures !ok ==> committedBytes == old(committedBytes) && bins == old(bins)
    {
      if !listed {
        return false;
      }
      RecordKeepsBin(mem.headers, mem.nodes, headerSize, bins[bin], chunks[bin], bin, base, bytes);
      Update(bins, bin, Recorded(bins[bin], base, bytes), CommittedOf);
      bins := bins[bin := Recorded(bins[bin], base, bytes)];
      mapped := mapped[bin := mapped[bin] + [Segment(base, bytes)]];
      committedBytes := committedBytes + bytes;
      return true;
    }

    // Whether the commit limit admits a segment: initial allocation always, runtime growth up to it.
    ghost predicate Admits(bytes: nat, isInitial: bool)
      reads this
    {
      isInitial || maxCommittedBytes == 0 || committedBytes + bytes <= maxCommittedBytes
    }

    // segment: what VirtualAlloc returns, NULL when it fails; listed: see RecordSegmentLocked.  Past the
    // limit the bin does not grow at run time, and it grows whenever memory and list allow it otherwise.
    method GrowLocked(bin: nat, minBlocks: nat, isInitial: bool, segment: Addr, listed: bool) returns (ok: bool)
      requires Valid() && bin < |bins| && specs[bin].stride > 0
      requires Unmapped(mem.headers, specs[bin], minBlocks, segment)
      modifies this, mem
      ensures Valid() && maxCommittedBytes == old(maxCommittedBytes)
      ensures ok <==> old(Admits(SegmentBytes(specs[bin], minBlocks), isInitial)) && segment != NULL && listed
      ensures ok ==>
                && chunks == old(chunks)[bin := NewChunks(specs[bin], minBlocks, segment) + old(chunks)[bin]]
                && AddsFree(old(mem.headers), mem.headers, NewBlocks(specs[bin], minBlocks, segment), bin, ownerTag)
                && mapped == WithSegment(old(mapped), bin, specs[bin], minBlocks, segment)
                && committedBytes == old(committedBytes) + SegmentBytes(specs[bin], minBlocks)
      ensures !ok ==> chunks == old(chunks) && mapped == old(mapped) && mem.headers == old(mem.headers)
                      && committedBytes == old(committedBytes)
      // runtime growth keeps the limit, and is refused only where it would pass it
      ensures !isInitial && maxCommittedBytes != 0 && old(committedBytes) <= maxCommittedBytes ==> committedBytes <= maxCommittedBytes
      ensures !ok && segment != NULL && listed ==>
                !isInitial && maxCommittedBytes != 0
                && old(committedBytes) + specs[bin].stride * SegmentBlockCount(specs[bin], minBlocks) > maxCommittedBytes
      ensures Tallied(old(bins), bins, bin, if ok then SegmentBlockCount(specs[bin], minBlocks) else 0, One(ok && !isInitial), One(!ok))
      ensures commitLimitHits == old(commitLimitHits) + One(!old(Admits(SegmentBytes(specs[bin], minBlocks), isInitial)))
    {
      hide AddsFree, BlocksBetween, Carve, AllOk, Links, Total, ListsSegments;
      var spec := specs[bin];
      var blocks := spec.blocksPerSegment;
      if blocks < minBlocks {
        blocks := minBlocks;
      }
      var bytes := spec.stride * blocks;
      if !isInitial && maxCommittedBytes != 0 {
        if committedBytes + bytes > maxCommittedBytes {
          commitLimitHits := commitLimitHits + 1;
          CountFailure(bin);
          return false;
        }
      }
      if segment == NULL {
        CountFailure(bin);
        return false;
      }
      ok := AddSegment(bin, segment, bytes, blocks, isInitial, listed);
    }

    // VirtualAlloc has given the memory: it is listed, counted and cut up, or given back.
    method AddSegment(bin: nat, segment: Addr, bytes: nat, blocks: nat, isInitial: bool, listed: bool) returns (ok: bool)
      requires Valid() && bin < |bins| && segment != NULL && specs[bin].stride > 0
      requires forall j :: 0 <= j < blocks ==> BlockAt(segment, specs[bin].stride, j) !in mem.headers
      modifies this`bins, this`chunks, this`mapped, this`committedBytes, mem
      ensures Valid() && ok == listed
      ensures ok ==>
                && chunks == old(chunks)[bin := Carve(segment, specs[bin].stride, specs[bin].batchBlocks, 0, blocks) + old(chunks)[bin]]
                && AddsFree(old(mem.headers), mem.headers, BlocksBetween(segment, specs[bin].stride, 0, blocks), bin, ownerTag)
                && mapped == old(mapped)[bin := old(mapped)[bin] + [Segment(segment, bytes)]]
                && committedBytes == old(committedBytes) + bytes
      ensures !ok ==> chunks == old(chunks) && mapped == old(mapped) && mem.headers == old(mem.headers)
                      && committedBytes == old(committedBytes)
      ensures Tallied(old(bins), bins, bin, if ok then blocks else 0, One(ok && !isInitial), One(!ok))
    {
      hide AddsFree, BlocksBetween, Carve, AllOk, Links, Total, ListsSegments;
      ok := RecordSegmentLocked(bin, segment, bytes, listed);
      if !ok {
        CountFailure(bin);
        return;
      }
      CarveAndPush(bin, segment, blocks);
      CountGrowth(bin, blocks, isInitial);
    }

    // The counts the pool keeps are such that what is proved of concurrent growth starts from here.
    lemma CommittedIsInitial()
      requires Valid()
      ensures C.Initial(Growing(specs, mapped, committedBytes))
    {
      forall b | 0 <= b < |bins| ensures bins[b].committedBytes == Total(mapped[b], BytesOf) {
        assert BinOk(mem.headers, mem.nodes, headerSize, bins[b], chunks[b], b);
      }
      GrowingIsInitial(specs, bins, mapped, committedBytes);
    }

    method CountFailure(bin: nat)
      requires Valid() && bin < |bins|
      modifies this`bins
      ensures Valid() && Tallied(old(bins), bins, bin, 0, 0, 1)
    {
      var target := bins[bin];
      CountersKeepBin(mem.headers, mem.nodes, headerSize, target, chunks[bin], bin, target.blocksCreated, target.growthCount, target.failCount + 1);
      Update(bins, bin, target.(failCount := target.failCount + 1), CommittedOf);
      bins := bins[bin := target.(failCount := target.failCount + 1)];
    }

    method CountGrowth(bin: nat, blocks: nat, isInitial: bool)
      requires Valid() && bin < |bins|
      modifies this`bins
      ensures Valid() && Tallied(old(bins), bins, bin, blocks, One(!isInitial), 0)
    {
      var target := bins[bin];
      var growth := if isInitial then target.growthCount else target.growthCount + 1;
      CountersKeepBin(mem.headers, mem.nodes, headerSize, target, chunks[bin], bin, target.blocksCreated + blocks, growth, target.failCount);
      Update(bins, bin, target.(blocksCreated := target.blocksCreated + blocks, growthCount := growth), CommittedOf);
      bins := bins[bin := target.(blocksCreated := target.blocksCreated + blocks, growthCount := growth)];
    }

    // Whether a runtime grow of the bin succeeds.
    ghost predicate Grows(bin: nat, segment: Addr, listed: bool)
      reads this
      requires bin < |specs|
    {
      Admits(SegmentBytes(specs[bin], specs[bin].batchBlocks), false) && segment != NULL && listed
    }

    // The stock PopChunk takes from: what is there, or what a grow carves when nothing is.
    ghost function Stock(bin: nat, segment: Addr, listed: bool): seq<seq<Addr>>
      reads this
      requires bin < |specs| && bin < |chunks| && specs[bin].batchBlocks > 0
    {
      if chunks[bin] == [] && Grows(bin, segment, listed) then
        NewChunks(specs[bin], specs[bin].batchBlocks, segment)
      else chunks[bin]
    }

    // Takes the top chunk, growing the bin first if it has none.
    method PopChunk(bin: nat, segment: Addr, listed: bool) returns (head: Addr, count: nat, ghost chain: seq<Addr>)
      requires Valid() && bin < |bins| && specs[bin].stride > 0
      requires chunks[bin] == [] ==> Unmapped(mem.headers, specs[bin], specs[bin].batchBlocks, segment)
      modifies this, mem
      ensures Valid() && maxCommittedBytes == old(maxCommittedBytes)
      ensures var stock := old(Stock(bin, segment, listed));
              && chain == (if stock == [] then [] else stock[0]) && (stock != [] ==> chain != [])
              && chunks == old(chunks)[bin := if stock == [] then [] else stock[1..]]
      ensures head == First(chain) && count == |chain| && Links(mem.headers, chain, bin)
      ensures if old(chunks)[bin] == [] && old(Grows(bin, segment, listed)) then
                && AddsFree(old(mem.headers), mem.headers, NewBlocks(specs[bin], specs[bin].batchBlocks, segment), bin, ownerTag)
                && mapped == WithSegment(old(mapped), bin, specs[bin], specs[bin].batchBlocks, segment)
                && committedBytes == old(committedBytes) + SegmentBytes(specs[bin], specs[bin].batchBlocks)
              else mem.headers == old(mem.headers) && mapped == old(mapped) && committedBytes == old(committedBytes)
      // the limit is kept, and only it, VirtualAlloc or the list refuse an empty bin a chunk
      ensures maxCommittedBytes != 0 && old(committedBytes) <= maxCommittedBytes ==> committedBytes <= maxCommittedBytes
      ensures head == NULL ==> old(chunks)[bin] == [] && !(segment != NULL && listed && old(HasRoom(bin)))
      ensures old(chunks)[bin] == [] ==>
                GrewAlone(specs, maxCommittedBytes, old(mapped), old(committedBytes), mapped, committedBytes, bin, segment, listed)
    {
      hide AddsFree, NewChunks, NewBlocks, AllOk, Links, SegmentBytes, Total;
      NoChunks(mem.headers, mem.nodes, headerSize, bins, chunks, bin);
      if |bins[bin].chunkList| == 0 {
        var grown := GrowEmpty(bin, segment, listed);
      } else {
        assert old(chunks)[bin := old(chunks)[bin]] == old(chunks);
      }
      assert chunks == old(chunks)[bin := old(Stock(bin, segment, listed))];
      head, count, chain := TakeTop(bin);
    }

    // The bin has room for one more segment of its own size.
    ghost predicate HasRoom(bin: nat)
      reads this
      requires bin < |specs|
    {
      maxCommittedBytes == 0 || committedBytes + specs[bin].stride * SegmentBlockCount(specs[bin], specs[bin].batchBlocks) <= maxCommittedBytes
    }

    // Under the bin's lock, the stack having been empty twice.
    method GrowEmpty(bin: nat, segment: Addr, listed: bool) returns (grown: bool)
      requires Valid() && bin < |bins| && specs[bin].stride > 0 && chunks[bin] == []
      requires Unmapped(mem.headers, specs[bin], specs[bin].batchBlocks, segment)
      modifies this, mem
      ensures Valid() && maxCommittedBytes == old(maxCommittedBytes) && grown == old(Grows(bin, segment, listed))
      ensures chunks == old(chunks)[bin := old(Stock(bin, segment, listed))]
      ensures if grown then
                && chunks[bin] != []
                && AddsFree(old(mem.headers), mem.headers, NewBlocks(specs[bin], specs[bin].batchBlocks, segment), bin, ownerTag)
                && mapped == WithSegment(old(mapped), bin, specs[bin], specs[bin].batchBlocks, segment)
                && committedBytes == old(committedBytes) + SegmentBytes(specs[bin], specs[bin].batchBlocks)
              else mem.headers == old(mem.headers) && mapped == old(mapped) && committedBytes == old(committedBytes)
      ensures maxCommittedBytes != 0 && old(committedBytes) <= maxCommittedBytes ==> committedBytes <= maxCommittedBytes
      ensures !grown ==> !(segment != NULL && listed && old(HasRoom(bin)))
      ensures GrewAlone(specs, maxCommittedBytes, old(mapped), old(committedBytes), mapped, committedBytes, bin, segment, listed)
    {
      hide AddsFree, NewBlocks, AllOk, Links, Total;
      assert NewChunks(specs[bin], specs[bin].batchBlocks, segment) + [] == NewChunks(specs[bin], specs[bin].batchBlocks, segment);
      grown := GrowLocked(bin, specs[bin].batchBlocks, false, segment, listed);
      assert old(chunks)[bin := old(chunks)[bin]] == old(chunks);
      GrowsAlone(specs, maxCommittedBytes, old(mapped), old(committedBytes), bin, segment, listed, mapped, committedBytes);
    }

    method TakeTop(bin: nat) returns (head: Addr, count: nat, ghost chain: seq<Addr>)
      requires Valid() && bin < |bins|
      modifies this`bins, this`chunks
      ensures Valid()
      ensures if old(chunks)[bin] == [] then chain == [] && chunks == old(chunks)
              else chain == old(chunks)[bin][0] != [] && chunks == old(chunks)[bin := old(chunks)[bin][1..]]
      ensures head == First(chain) && count == |chain| && Links(mem.headers, chain, bin) && (head == NULL <==> chain == [])
      ensures Tallied(old(bins), bins, bin, 0, 0, One(chain == []))
      ensures chain != [] ==> bins[bin].blocksInPool == old(bins)[bin].blocksInPool - |chain|
                              && bins[bin].minBlocksInPool == Lower(old(bins)[bin].minBlocksInPool, bins[bin].blocksInPool)
    {
      hide AllOk, Links, Total;
      NoChunks(mem.headers, mem.nodes, headerSize, bins, chunks, bin);
      if |bins[bin].chunkList| == 0 {
        CountFailure(bin);
        chain := [];
        NoRunYet(mem.headers, 0, 0, 0, bin, 0);
        return NULL, 0, [];
      }
      chain := chunks[bin][0];
      PopKeepsBins(mem.headers, mem.nodes, headerSize, bins, chunks, bin);
      ghost var before := bins;
      var node := bins[bin].chunkList[0];
      head := mem.nodes[node].blockHead;
      count := mem.nodes[node].blockCount;
      bins := bins[bin := bins[bin].(chunkList := bins[bin].chunkList[1..])];
      chunks := chunks[bin := chunks[bin][1..]];
      NotePopped(bin, count);
      assert bins == before[bin := Popped(before[bin], count)];
    }

    // Before the pool is used: as many blocks as configured, past the commit limit if need be.
    method Preallocate(bin: nat, blocks: nat, segment: Addr, listed: bool) returns (ok: bool)
      requires Valid() && forall b :: 0 <= b < |specs| ==> specs[b].stride > 0
      requires bin < |bins| ==> Unmapped(mem.headers, specs[bin], blocks, segment)
      modifies this, mem
      ensures Valid()
      ensures ok <==> bin < |specs| && blocks > 0 && segment != NULL && listed
      ensures ok ==> chunks == old(chunks)[bin := NewChunks(specs[bin], blocks, segment) + old(chunks)[bin]]
                     && AddsFree(old(mem.headers), mem.headers, NewBlocks(specs[bin], blocks, segment), bin, ownerTag)
                     && mapped == WithSegment(old(mapped), bin, specs[bin], blocks, segment)
      ensures !ok ==> chunks == old(chunks) && mem.headers == old(mem.headers) && mapped == old(mapped)
    {
      if bin >= |specs| || blocks == 0 {
        return false;
      }
      ok := GrowLocked(bin, blocks, true, segment, listed);
    }
  }

  function Recorded(bin: Bin, base: Addr, bytes: nat): Bin
  {
    bin.(segments := bin.segments + [Segment(base, bytes)], committedBytes := bin.committedBytes + bytes)
  }

  lemma RecordKeepsBin(h: Headers, nodes: Nodes, headerSize: nat, bin: Bin, stored: seq<seq<Addr>>, b: nat, base: Addr, bytes: nat)
    requires BinOk(h, nodes, headerSize, bin, stored, b)
    ensures BinOk(h, nodes, headerSize, Recorded(bin, base, bytes), stored, b)
  {
    hide ChunksAt, Total, P.Flat;
    Concat(bin.segments, [Segment(base, bytes)], BytesOf);
    Single(Segment(base, bytes), BytesOf);
  }

  lemma CountersKeepBin(h: Headers, nodes: Nodes, headerSize: nat, bin: Bin, stored: seq<seq<Addr>>, b: nat,
                        created: nat, growth: nat, fails: nat)
    requires BinOk(h, nodes, headerSize, bin, stored, b)
    ensures BinOk(h, nodes, headerSize, bin.(blocksCreated := created, growthCount := growth, failCount := fails), stored, b)
  {
  }

  lemma NoChunks(h: Headers, nodes: Nodes, headerSize: nat, bins: seq<Bin>, chunks: seq<seq<seq<Addr>>>, b: nat)
    requires AllOk(h, nodes, headerSize, bins, chunks) && b < |bins|
    ensures |bins[b].chunkList| == 0 <==> chunks[b] == []
  {
    assert BinOk(h, nodes, headerSize, bins[b], chunks[b], b);
  }

  // The bin without its top chunk, as PopChunk leaves it.
  function Popped(bin: Bin, count: nat): Bin
    requires bin.chunkList != []
  {
    bin.(chunkList := bin.chunkList[1..], blocksInPool := bin.blocksInPool - count,
         minBlocksInPool := Lower(bin.minBlocksInPool, bin.blocksInPool - count))
  }

  lemma PopKeepsBins(h: Headers, nodes: Nodes, headerSize: nat, bins: seq<Bin>, chunks: seq<seq<seq<Addr>>>, b: nat)
    requires AllOk(h, nodes, headerSize, bins, chunks) && b < |bins| && bins[b].chunkList != []
    ensures chunks[b] != [] && chunks[b][0] != []
    ensures bins[b].chunkList[0] in nodes && nodes[bins[b].chunkList[0]] == ChunkNode(chunks[b][0][0], |chunks[b][0]|)
    ensures Links(h, chunks[b][0], b)
    ensures AllOk(h, nodes, headerSize, bins[b := Popped(bins[b], |chunks[b][0]|)], chunks[b := chunks[b][1..]])
    ensures Total(bins[b := Popped(bins[b], |chunks[b][0]|)], CommittedOf) == Total(bins, CommittedOf)
  {
    assert BinOk(h, nodes, headerSize, bins[b], chunks[b], b);
    TopChunk(h, nodes, headerSize, bins[b], chunks[b], b,
             Lower(bins[b].minBlocksInPool, bins[b].blocksInPool - |chunks[b][0]|));
    Update(bins, b, Popped(bins[b], |chunks[b][0]|), CommittedOf);
  }

  function Lower(a: int, b: int): (r: int)
    ensures r <= a && r <= b && (r == a || r == b)
  {
    if b >= a then a else b
  }
}
