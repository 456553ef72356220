/** A thread's free lists, one for every bin: blocks come and go one at a time, chunks a batch at a time. */
module ThreadBlockCache {
  import opened Tally
  import opened BlockMemory
  import opened SizeBin
  import G = GlobalBlockPool

  datatype FreeList = FreeList(head: Addr, count: nat)

  // The list's fields and links describe the chain of blocks.
  ghost predicate ListOk(h: Headers, list: FreeList, chain: seq<Addr>, bin: nat)
  {
    list.head == First(chain) && list.count == |chain| && Links(h, chain, bin) && Distinct(chain)
  }

  ghost predicate ListsOk(h: Headers, lists: seq<FreeList>, chains: seq<seq<Addr>>)
  {
    |lists| == |chains| && forall b :: 0 <= b < |lists| ==> ListOk(h, lists[b], chains[b], b)
  }

  // No block of the chain is in a stored chunk.
  ghost predicate Apart(chain: seq<Addr>, chunks: seq<seq<seq<Addr>>>)
  {
    forall b, i, x :: 0 <= b < |chunks| && 0 <= i < |chunks[b]| && x in chunks[b][i] ==> x !in chain
  }

  // Only the links of these blocks may have changed.
  ghost predicate OnlyLinks(h: Headers, h': Headers, blocks: set<Addr>)
  {
    && h'.Keys == h.Keys
    && forall b :: b in h ==> if b in blocks then h'[b] == h[b].(next := h'[b].next) else h'[b] == h[b]
  }

  // The chunks Flush(bin, true) makes of a list, the last one pushed uppermost.
  function Batches(chain: seq<Addr>, batch: nat): seq<seq<Addr>>
    requires batch > 0
    decreases |chain|
  {
    if chain == [] then [] else Batches(chain[Less(batch, |chain|)..], batch) + [chain[..Less(batch, |chain|)]]
  }

  // --- What a changed link leaves alone -----------------------------------------------------------

  lemma OtherLists(h: Headers, h': Headers, lists: seq<FreeList>, chains: seq<seq<Addr>>, bin: nat, changed: set<Addr>,
                   list: FreeList, chain: seq<Addr>)
    requires ListsOk(h, lists, chains) && bin < |lists| && ListOk(h', list, chain, bin)
    requires forall b :: b in h ==> b in h' && (b !in changed ==> h'[b] == h[b])
    requires forall b :: b in changed && b in h ==> h[b].binIndex == bin
    ensures ListsOk(h', lists[bin := list], chains[bin := chain])
  {
    forall b | 0 <= b < |lists| && b != bin ensures ListOk(h', lists[b], chains[b], b) {
      assert ListOk(h, lists[b], chains[b], b);
      LinksKept(h, h', chains[b], b);
    }
  }

  lemma StoredUntouched(h: Headers, h': Headers, nodes: Nodes, headerSize: nat, bins: seq<G.Bin>, chunks: seq<seq<seq<Addr>>>, changed: set<Addr>)
    requires G.AllOk(h, nodes, headerSize, bins, chunks)
    requires forall b :: b in h ==> b in h' && (b !in changed ==> h'[b] == h[b])
    requires forall b, i, x :: 0 <= b < |chunks| && 0 <= i < |chunks[b]| && x in chunks[b][i] ==> x !in changed
    ensures G.AllOk(h', nodes, headerSize, bins, chunks)
  {
    forall b | 0 <= b < |bins| ensures G.BinOk(h', nodes, headerSize, bins[b], chunks[b], b) {
      assert G.BinOk(h, nodes, headerSize, bins[b], chunks[b], b);
      forall i | 0 <= i < |bins[b].chunkList| ensures bins[b].chunkList[i] in nodes {
        assert ChunkAt(h, nodes, headerSize, bins[b].chunkList[i], chunks[b][i], b);
      }
      forall i, x | 0 <= i < |chunks[b]| && x in chunks[b][i] ensures x in h {
        assert ChunkAt(h, nodes, headerSize, bins[b].chunkList[i], chunks[b][i], b);
      }
      ChunksKept(h, h', nodes, nodes, headerSize, bins[b].chunkList, chunks[b], b);
    }
  }

  // Cutting the first n blocks off a list.
  lemma CutList(h: Headers, list: FreeList, chain: seq<Addr>, bin: nat, n: nat)
    requires ListOk(h, list, chain, bin) && 0 < n <= |chain|
    ensures chain[n - 1] in h && h[chain[n - 1]].binIndex == bin
    ensures var cut := h[chain[n - 1] := h[chain[n - 1]].(next := NULL)];
            && ListOk(cut, FreeList(h[chain[n - 1]].next, list.count - n), chain[n..], bin)
            && Links(cut, chain[..n], bin) && First(chain[..n]) == list.head
            && OnlyLinks(h, cut, Elements(chain))
  {
    LinksCut(h, chain, n, bin);
  }

  lemma LinkAt(h: Headers, chain: seq<Addr>, bin: nat, i: nat)
    requires Links(h, chain, bin) && i + 1 < |chain|
    ensures chain[i] in h && h[chain[i]].next == chain[i + 1]
  {
    assert First(chain[i + 1..]) == chain[i + 1];
  }

  class ThreadBlockCache {
    const pool: G.GlobalBlockPool
    var lists: seq<FreeList>
    var acquireCount: seq<nat>
    var releaseCount: seq<nat>
    // The blocks of every list, head first.
    ghost var chains: seq<seq<Addr>>

    ghost predicate Valid()
      reads this, pool, pool.mem
    {
      && pool.Valid() && ListsOk(pool.mem.headers, lists, chains)
      && |lists| == |chains| == |acquireCount| == |releaseCount| == |pool.specs|
      && forall b :: 0 <= b < |pool.specs| ==> pool.specs[b].stride > 0
    }

    constructor (pool: G.GlobalBlockPool)
      requires pool.Valid() && forall b :: 0 <= b < |pool.specs| ==> pool.specs[b].stride > 0
      ensures Valid() && this.pool == pool && chains == seq(|pool.specs|, _ => [])
      ensures acquireCount == releaseCount == seq(|pool.specs|, _ => 0)
    {
      this.pool := pool;
      lists := seq(|pool.specs|, _ => FreeList(NULL, 0));
      acquireCount, releaseCount := seq(|pool.specs|, _ => 0), seq(|pool.specs|, _ => 0);
      chains := seq(|pool.specs|, _ => []);
    }

    // An empty list takes over the chunk the global store gives up.
    method Refill(bin: nat, segment: Addr, listed: bool) returns (ok: bool)
      requires Valid() && bin < |lists| && chains[bin] == []
      requires pool.chunks[bin] == [] ==> G.Unmapped(pool.mem.headers, pool.specs[bin], pool.specs[bin].batchBlocks, segment)
      requires forall b, i :: 0 <= b < |pool.chunks| && 0 <= i < |pool.chunks[b]| ==> Distinct(pool.chunks[b][i])
      modifies this`lists, this`chains, pool, pool.mem
      ensures Valid() && pool.maxCommittedBytes == old(pool.maxCommittedBytes)
      ensures var stock := old(pool.Stock(bin, segment, listed));
              && ok == (stock != [])
              && chains == (if ok then old(chains)[bin := stock[0]] else old(chains))
              && pool.chunks == old(pool.chunks)[bin := if ok then stock[1..] else []]
              && (ok ==> stock[0] != [])
      ensures if old(pool.chunks)[bin] == [] && old(pool.Grows(bin, segment, listed)) then
                && G.AddsFree(old(pool.mem.headers), pool.mem.headers,
                              G.NewBlocks(pool.specs[bin], pool.specs[bin].batchBlocks, segment), bin, pool.ownerTag)
                && pool.mapped == G.WithSegment(old(pool.mapped), bin, pool.specs[bin], pool.specs[bin].batchBlocks, segment)
              else pool.mem.headers == old(pool.mem.headers) && pool.mapped == old(pool.mapped)
      ensures !ok ==> lists == old(lists)
    {
      hide G.AllOk, G.NewChunks, G.NewBlocks, Links;
      ghost var h, stock := pool.mem.headers, pool.Stock(bin, segment, listed);
      ghost var old_chunks := pool.chunks;
      StockIsDistinct(pool, bin, segment, listed);
      var head, count;
      ghost var chain;
      head, count, chain := pool.PopChunk(bin, segment, listed);
      assert ListOk(pool.mem.headers, FreeList(head, count), chain, bin);
      OtherLists(h, pool.mem.headers, lists, chains, bin, {}, FreeList(head, count), chain);
      if head == NULL {
        ChainEnds(pool.mem.headers, chain, bin);
        assert lists[bin := FreeList(head, count)] == lists && chains[bin := chain] == chains by {
          assert ListOk(h, lists[bin], chains[bin], bin);
        }
        return false;
      }
      lists := lists[bin := FreeList(head, count)];
      chains := chains[bin := chain];
      return true;
    }

    // One turn of Flush: up to a batch from the front of the list becomes a chunk.
    method FlushOne(bin: nat)
      requires Valid() && bin < |lists| && chains[bin] != [] && Apart(chains[bin], pool.chunks)
      modifies this`lists, this`chains, pool`bins, pool`chunks, pool.mem
      ensures Valid()
      ensures var take := Less(pool.specs[bin].batchBlocks, |old(chains)[bin]|);
              && chains == old(chains)[bin := old(chains)[bin][take..]]
              && pool.chunks == old(pool.chunks)[bin := [old(chains)[bin][..take]] + old(pool.chunks)[bin]]
      ensures OnlyLinks(old(pool.mem.headers), pool.mem.headers, Elements(old(chains)[bin]))
    {
      hide G.AllOk, Links;
      ghost var chain, h := chains[bin], pool.mem.headers;
      assert ListOk(h, lists[bin], chain, bin);
      var list := lists[bin];
      var take := pool.specs[bin].batchBlocks;
      if take > list.count {
        take := list.count;
      }
      var tail := list.head;
      var i := 1;
      while i < take
        invariant 1 <= i <= take && tail == chain[i - 1]
        modifies {}
      {
        LinkAt(h, chain, bin, i - 1);
        tail := pool.mem.headers[tail].next;
        i := i + 1;
      }
      CutList(h, list, chain, bin, take);
      var rest := FreeList(pool.mem.headers[tail].next, list.count - take);
      pool.mem.headers := pool.mem.headers[tail := pool.mem.headers[tail].(next := NULL)];
      OtherLists(h, pool.mem.headers, lists, chains, bin, {tail}, rest, chain[take..]);
      StoredUntouched(h, pool.mem.headers, pool.mem.nodes, pool.headerSize, pool.bins, pool.chunks, {tail});
      lists := lists[bin := rest];
      chains := chains[bin := chain[take..]];
      HeadApart(chain, pool.chunks);
      pool.PushChunk(bin, list.head, take, chain[..take]);
    }

    // Flush(bin, false) moves one batch; Flush(bin, true) everything.
    method Flush(bin: nat, all: bool)
      requires Valid() && bin < |lists| && Apart(chains[bin], pool.chunks)
      modifies this`lists, this`chains, pool`bins, pool`chunks, pool.mem
      ensures Valid()
      ensures OnlyLinks(old(pool.mem.headers), pool.mem.headers, Elements(old(chains)[bin]))
      ensures var chain, batch := old(chains)[bin], pool.specs[bin].batchBlocks;
              var take := Less(batch, |chain|);
              if chain == [] then chains == old(chains) && pool.chunks == old(pool.chunks)
              else if all then
                && chains == old(chains)[bin := []]
                && pool.chunks == old(pool.chunks)[bin := Batches(chain, batch) + old(pool.chunks)[bin]]
              else
                && chains == old(chains)[bin := chain[take..]]
                && pool.chunks == old(pool.chunks)[bin := [chain[..take]] + old(pool.chunks)[bin]]
    {
      hide G.AllOk, Links, ListsOk, Apart, Batches, Elements, OnlyLinks, Distinct, StillToFlush;
      ghost var chain, batch := chains[bin], pool.specs[bin].batchBlocks;
      EmptyHead(this, bin);
      if lists[bin].count == 0 || lists[bin].head == NULL {
        LinksStay(pool.mem.headers, chain);
        return;
      }
      FlushOne(bin);
      EmptyHead(this, bin);
      RestApart(chain, Less(batch, |chain|), old(pool.chunks), pool.chunks, bin);
      if !all {
        return;
      }
      FlushStep(chain, chain, batch, old(pool.chunks)[bin], old(pool.chunks)[bin]);
      while lists[bin].count > 0
        invariant Valid() && bin < |lists| && Apart(chains[bin], pool.chunks) && Distinct(chains[bin])
        invariant lists[bin].count == |chains[bin]|
        invariant chains == old(chains)[bin := chains[bin]] && pool.chunks == old(pool.chunks)[bin := pool.chunks[bin]]
        invariant Elements(chains[bin]) <= Elements(chain)
        invariant StillToFlush(chain, batch, old(pool.chunks)[bin], chains[bin], pool.chunks[bin])
        invariant OnlyLinks(old(pool.mem.headers), pool.mem.headers, Elements(chain))
        decreases lists[bin].count
      {
        ghost var now, stored, h := chains[bin], pool.chunks, pool.mem.headers;
        FlushOne(bin);
        EmptyHead(this, bin);
        LinksAgain(old(pool.mem.headers), h, pool.mem.headers, Elements(chain), Elements(now));
        RestApart(now, Less(batch, |now|), stored, pool.chunks, bin);
        FlushStep(chain, now, batch, old(pool.chunks)[bin], stored[bin]);
      }
      FlushDone(chain, batch, old(pool.chunks)[bin], pool.chunks[bin]);
    }

    // The thread is leaving: every list goes back to the global store.
    method FlushAll()
      requires Valid() && AllApart(chains, pool.chunks)
      modifies this`lists, this`chains, pool`bins, pool`chunks, pool.mem
      ensures Valid()
      ensures chains == seq(|old(chains)|, _ => [])
      ensures |pool.chunks| == |old(chains)|
      ensures forall b :: 0 <= b < |old(chains)| ==>
                pool.chunks[b] == Batches(old(chains)[b], pool.specs[b].batchBlocks) + old(pool.chunks)[b]
      ensures OnlyLinks(old(pool.mem.headers), pool.mem.headers, AllElements(old(chains)))
    {
      hide G.AllOk, Links, Apart, Batches, OnlyLinks;
      var bin := 0;
      NoLinks(pool.mem.headers, AllElements(chains));
      while bin < |lists|
        invariant Valid() && bin <= |lists| && |chains| == |old(chains)|
        invariant AllApart(chains, pool.chunks)
        invariant OnlyLinks(old(pool.mem.headers), pool.mem.headers, AllElements(old(chains)))
        invariant forall b :: 0 <= b < bin ==>
                    chains[b] == [] && pool.chunks[b] == Batches(old(chains)[b], pool.specs[b].batchBlocks) + old(pool.chunks)[b]
        invariant forall b :: bin <= b < |lists| ==> chains[b] == old(chains)[b] && pool.chunks[b] == old(pool.chunks)[b]
        decreases |lists| - bin
      {
        ghost var chain, h, stored, chains0, lists0 := chains[bin], pool.mem.headers, pool.chunks, chains, lists;
        ghost var batch := pool.specs[bin].batchBlocks;
        ghost var made := Batches(chain, batch);
        BatchesAreOf(chain, batch);
        ListOf(this, bin);
        NoBatches(batch);
        assert [] + stored[bin] == stored[bin] && stored[bin := stored[bin]] == stored;
        Flush(bin, true);
        StillLinks(h, pool.mem.headers, chain, bin);
        LinksAgain(old(pool.mem.headers), h, pool.mem.headers, AllElements(old(chains)), Elements(chain));
        ShrinkApart(chains0, chains, stored, bin);
        OthersApart(pool.mem.headers, lists, chains, stored, bin, made, chain);
        bin := bin + 1;
      }
    }

    // Hands out the head of the list, after a refill when the list is empty.
    method Pop(bin: nat, segment: Addr, listed: bool) returns (header: Addr)
      requires Valid() && bin < |lists|
      requires chains[bin] == [] && pool.chunks[bin] == [] ==>
                 G.Unmapped(pool.mem.headers, pool.specs[bin], pool.specs[bin].batchBlocks, segment)
      requires forall b, i :: 0 <= b < |pool.chunks| && 0 <= i < |pool.chunks[b]| ==> Distinct(pool.chunks[b][i])
      modifies this`lists, this`chains, this`acquireCount, pool, pool.mem
      ensures Valid() && pool.maxCommittedBytes == old(pool.maxCommittedBytes)
      ensures var stock := old(pool.Stock(bin, segment, listed));
              var ready := if old(chains)[bin] != [] then old(chains)[bin] else if stock != [] then stock[0] else [];
              && header == First(ready)
              && (ready != [] ==> chains == old(chains)[bin := ready[1..]] && header != NULL && header in pool.mem.headers
                                  && pool.mem.headers[header].binIndex == bin)
              && (ready == [] ==> chains == old(chains))
              && acquireCount == (if ready != [] then old(acquireCount)[bin := old(acquireCount)[bin] + 1] else old(acquireCount))
              && pool.chunks == (if old(chains)[bin] != [] then old(pool.chunks)
                                 else old(pool.chunks)[bin := if stock != [] then stock[1..] else []])
      ensures if old(chains)[bin] == [] && old(pool.chunks)[bin] == [] && old(pool.Grows(bin, segment, listed)) then
                && G.AddsFree(old(pool.mem.headers), pool.mem.headers,
                              G.NewBlocks(pool.specs[bin], pool.specs[bin].batchBlocks, segment), bin, pool.ownerTag)
                && pool.mapped == G.WithSegment(old(pool.mapped), bin, pool.specs[bin], pool.specs[bin].batchBlocks, segment)
              else pool.mem.headers == old(pool.mem.headers) && pool.mapped == old(pool.mapped)
      ensures header == NULL ==> lists == old(lists)
    {
      hide G.AllOk, G.NewChunks, G.NewBlocks, G.AddsFree, Links, G.Unmapped;
      EmptyHead(this, bin);
      if lists[bin].head == NULL {
        var refilled := Refill(bin, segment, listed);
        if !refilled {
          return NULL;
        }
      }
      EmptyHead(this, bin);
      PopsHead(pool.mem.headers, lists[bin], chains[bin], bin);
      header := lists[bin].head;
      var rest := FreeList(pool.mem.headers[header].next, lists[bin].count - 1);
      OtherLists(pool.mem.headers, pool.mem.headers, lists, chains, bin, {}, rest, chains[bin][1..]);
      lists := lists[bin := rest];
      chains := chains[bin := chains[bin][1..]];
      acquireCount := acquireCount[bin := acquireCount[bin] + 1];
    }

    // Takes a block back in front of the list; a list above the cap gives a batch to the global store.
    method Push(bin: nat, header: Addr)
      requires Valid() && bin < |lists|
      requires header != NULL && header in pool.mem.headers && pool.mem.headers[header].binIndex == bin
      requires header !in chains[bin] && Apart([header] + chains[bin], pool.chunks)
      modifies this`lists, this`chains, this`releaseCount, pool`bins, pool`chunks, pool.mem
      ensures Valid()
      ensures var longer := [header] + old(chains)[bin];
              var take := Less(pool.specs[bin].batchBlocks, |longer|);
              && releaseCount == old(releaseCount)[bin := old(releaseCount)[bin] + 1]
              && (if |longer| > pool.specs[bin].cacheCapBlocks then
                    && chains == old(chains)[bin := longer[take..]]
                    && pool.chunks == old(pool.chunks)[bin := [longer[..take]] + old(pool.chunks)[bin]]
                  else chains == old(chains)[bin := longer] && pool.chunks == old(pool.chunks))
      ensures OnlyLinks(old(pool.mem.headers), pool.mem.headers, Elements([header] + old(chains)[bin]))
    {
      hide G.AllOk, Links;
      ghost var chain, h := chains[bin], pool.mem.headers;
      EmptyHead(this, bin);
      PushesHead(h, lists[bin], chain, bin, header);
      pool.mem.headers := pool.mem.headers[header := pool.mem.headers[header].(next := lists[bin].head)];
      var longer := FreeList(header, lists[bin].count + 1);
      OtherLists(h, pool.mem.headers, lists, chains, bin, {header}, longer, [header] + chain);
      HeaderApart(header, chain, pool.chunks);
      StoredUntouched(h, pool.mem.headers, pool.mem.nodes, pool.headerSize, pool.bins, pool.chunks, {header});
      lists := lists[bin := longer];
      chains := chains[bin := [header] + chain];
      releaseCount := releaseCount[bin := releaseCount[bin] + 1];
      LinksPushed(h, header, lists[bin], chain);
      if longer.count > pool.specs[bin].cacheCapBlocks {
        ghost var h1 := pool.mem.headers;
        Flush(bin, false);
        LinksAgain(h, h1, pool.mem.headers, Elements([header] + chain), Elements([header] + chain));
      }
    }
  }

  lemma ListOf(cache: ThreadBlockCache, bin: nat)
    requires cache.Valid() && bin < |cache.lists|
    ensures ListOk(cache.pool.mem.headers, cache.lists[bin], cache.chains[bin], bin)
  {
  }

  lemma NoBatches(batch: nat)
    requires batch > 0
    ensures Batches([], batch) == []
  {
  }

  function AllElements(chains: seq<seq<Addr>>): set<Addr>
  {
    set b, x | 0 <= b < |chains| && x in chains[b] :: x
  }

  lemma NoLinks(h: Headers, blocks: set<Addr>)
    ensures OnlyLinks(h, h, blocks)
  {
  }

  // Blocks keep their bin when their links change.
  ghost predicate OfBin(h: Headers, chain: seq<Addr>, bin: nat)
  {
    forall i :: 0 <= i < |chain| ==> chain[i] in h && h[chain[i]].binIndex == bin
  }

  lemma StillLinks(h: Headers, h': Headers, chain: seq<Addr>, bin: nat)
    requires Links(h, chain, bin) && OnlyLinks(h, h', Elements(chain))
    ensures OfBin(h', chain, bin)
  {
  }

  lemma ShrinkApart(chains: seq<seq<Addr>>, chains': seq<seq<Addr>>, chunks: seq<seq<seq<Addr>>>, bin: nat)
    requires AllApart(chains, chunks) && bin < |chains| && chains' == chains[bin := []]
    ensures AllApart(chains', chunks)
  {
    forall c | 0 <= c < |chains'| ensures Apart(chains'[c], chunks) {
      if c != bin { assert chains'[c] == chains[c] && Apart(chains[c], chunks); }
    }
  }

  // Every list shares no block with the stored chunks.
  ghost predicate AllApart(chains: seq<seq<Addr>>, chunks: seq<seq<seq<Addr>>>)
  {
    forall b :: 0 <= b < |chains| ==> Apart(chains[b], chunks)
  }

  // Chunks made of one bin's list leave the lists of the other bins apart: a block is of one bin.
  lemma OthersApart(h: Headers, lists: seq<FreeList>, chains: seq<seq<Addr>>, chunks: seq<seq<seq<Addr>>>,
                    bin: nat, made: seq<seq<Addr>>, chain: seq<Addr>)
    requires AllApart(chains, chunks) && bin < |chunks| && bin < |chains| && OfBin(h, chain, bin)
    requires forall i, x :: 0 <= i < |made| && x in made[i] ==> x in chain
    requires ListsOk(h, lists, chains) && chains[bin] == []
    ensures AllApart(chains, chunks[bin := made + chunks[bin]])
  {
    var chunks' := chunks[bin := made + chunks[bin]];
    forall c | 0 <= c < |chains| ensures Apart(chains[c], chunks') {
      assert Apart(chains[c], chunks) && ListOk(h, lists[c], chains[c], c);
      forall b, i, x | 0 <= b < |chunks'| && 0 <= i < |chunks'[b]| && x in chunks'[b][i] ensures x !in chains[c] {
        if b != bin {
          assert chunks'[b][i] == chunks[b][i];
        } else if i < |made| {
          assert chunks'[b][i] == made[i] && x in chain;
        } else {
          assert chunks'[b][i] == chunks[bin][i - |made|];
        }
      }
    }
  }

  lemma {:induction false} BatchesAreOf(chain: seq<Addr>, batch: nat)
    requires batch > 0
    ensures forall i, x :: 0 <= i < |Batches(chain, batch)| && x in Batches(chain, batch)[i] ==> x in chain
    decreases |chain|
  {
    if chain != [] {
      var take := Less(batch, |chain|);
      BatchesAreOf(chain[take..], batch);
      forall i, x | 0 <= i < |Batches(chain, batch)| && x in Batches(chain, batch)[i] ensures x in chain {
        if i < |Batches(chain[take..], batch)| {
          assert x in chain[take..];
        }
      }
    }
  }

  lemma PopsHead(h: Headers, list: FreeList, chain: seq<Addr>, bin: nat)
    requires ListOk(h, list, chain, bin) && chain != []
    ensures chain[0] in h && h[chain[0]].binIndex == bin && list.head != NULL
    ensures ListOk(h, FreeList(h[chain[0]].next, list.count - 1), chain[1..], bin)
  {
    LinksTail(h, chain, bin);
  }

  lemma PushesHead(h: Headers, list: FreeList, chain: seq<Addr>, bin: nat, header: Addr)
    requires ListOk(h, list, chain, bin) && header != NULL && header in h && header !in chain && h[header].binIndex == bin
    ensures ListOk(h[header := h[header].(next := list.head)], FreeList(header, list.count + 1), [header] + chain, bin)
  {
    LinksPush(h, header, h[header].(next := list.head), chain, bin);
  }

  lemma HeaderApart(header: Addr, chain: seq<Addr>, chunks: seq<seq<seq<Addr>>>)
    requires Apart([header] + chain, chunks)
    ensures forall b, i, x :: 0 <= b < |chunks| && 0 <= i < |chunks[b]| && x in chunks[b][i] ==> x != header
  {
    assert header in [header] + chain;
  }

  lemma LinksPushed(h: Headers, header: Addr, list: FreeList, chain: seq<Addr>)
    requires header in h
    ensures forall next :: OnlyLinks(h, h[header := h[header].(next := next)], Elements([header] + chain))
  {
    assert header in [header] + chain;
  }

  lemma LinksStay(h: Headers, chain: seq<Addr>)
    ensures OnlyLinks(h, h, Elements(chain))
  {
  }

  lemma LinksAgain(h0: Headers, h: Headers, h': Headers, all: set<Addr>, some: set<Addr>)
    requires OnlyLinks(h0, h, all) && OnlyLinks(h, h', some) && some <= all
    ensures OnlyLinks(h0, h', all)
  {
  }

  // What the whole flush makes is what it still has to make on top of what it has made.
  ghost predicate StillToFlush(chain: seq<Addr>, batch: nat, stored0: seq<seq<Addr>>, left: seq<Addr>, stored: seq<seq<Addr>>)
    requires batch > 0
  {
    Batches(chain, batch) + stored0 == Batches(left, batch) + stored
  }

  lemma FlushStep(chain: seq<Addr>, now: seq<Addr>, batch: nat, stored0: seq<seq<Addr>>, stored: seq<seq<Addr>>)
    requires batch > 0 && now != [] && StillToFlush(chain, batch, stored0, now, stored)
    ensures var take := Less(batch, |now|); StillToFlush(chain, batch, stored0, now[take..], [now[..take]] + stored)
  {
    var rest, first := Batches(now[Less(batch, |now|)..], batch), now[..Less(batch, |now|)];
    assert rest + [first] + stored == rest + ([first] + stored);
  }

  lemma FlushDone(chain: seq<Addr>, batch: nat, stored0: seq<seq<Addr>>, stored: seq<seq<Addr>>)
    requires batch > 0 && StillToFlush(chain, batch, stored0, [], stored)
    ensures stored == Batches(chain, batch) + stored0
  {
    assert Batches([], batch) + stored == stored;
  }

  lemma EmptyHead(cache: ThreadBlockCache, bin: nat)
    requires cache.Valid() && bin < |cache.lists|
    ensures cache.lists[bin].count == |cache.chains[bin]| && Distinct(cache.chains[bin])
    ensures cache.lists[bin].head == NULL <==> cache.chains[bin] == []
  {
    assert ListOk(cache.pool.mem.headers, cache.lists[bin], cache.chains[bin], bin);
  }

  lemma FrontAndRest(chain: seq<Addr>, n: nat, x: Addr)
    requires Distinct(chain) && n <= |chain| && x in chain[..n]
    ensures x !in chain[n..]
  {
    var j :| 0 <= j < n && chain[..n][j] == x;
    assert forall k :: n <= k < |chain| ==> chain[j] != chain[k];
  }

  // What is left of the list is apart from the chunk just made of its front.
  lemma RestApart(chain: seq<Addr>, n: nat, stored: seq<seq<seq<Addr>>>, stored': seq<seq<seq<Addr>>>, bin: nat)
    requires Distinct(chain) && Apart(chain, stored) && n <= |chain| && bin < |stored|
    requires stored' == stored[bin := [chain[..n]] + stored[bin]]
    ensures Apart(chain[n..], stored') && Elements(chain[n..]) <= Elements(chain)
  {
    assert forall y :: y in chain[n..] ==> y in chain;
    forall b, i, x | 0 <= b < |stored'| && 0 <= i < |stored'[b]| && x in stored'[b][i] ensures x !in chain[n..] {
      if b != bin {
        assert stored'[b][i] == stored[b][i];
      } else if i > 0 {
        assert stored'[bin][i] == stored[bin][i - 1];
      } else {
        assert x in chain[..n];
        FrontAndRest(chain, n, x);
      }
    }
  }

  lemma HeadApart(chain: seq<Addr>, chunks: seq<seq<seq<Addr>>>)
    requires Apart(chain, chunks) && chain != []
    ensures G.NewHead(chunks, chain[0])
  {
    forall b, i | 0 <= b < |chunks| && 0 <= i < |chunks[b]| && chunks[b][i] != [] ensures chunks[b][i][0] != chain[0] {
      assert chunks[b][i][0] in chunks[b][i] && chain[0] in chain;
    }
  }

  lemma ChainEnds(h: Headers, chain: seq<Addr>, bin: nat)
    requires Links(h, chain, bin) && First(chain) == NULL
    ensures chain == []
  {
  }

  lemma StockIsDistinct(pool: G.GlobalBlockPool, bin: nat, segment: Addr, listed: bool)
    requires pool.Valid() && bin < |pool.specs| && pool.specs[bin].stride > 0
    requires forall b, i :: 0 <= b < |pool.chunks| && 0 <= i < |pool.chunks[b]| ==> Distinct(pool.chunks[b][i])
    ensures forall i :: 0 <= i < |pool.Stock(bin, segment, listed)| ==> Distinct(pool.Stock(bin, segment, listed)[i])
  {
    var spec := pool.specs[bin];
    RunsAreDistinct(segment, spec.stride, spec.batchBlocks, 0, G.SegmentBlockCount(spec, spec.batchBlocks));
  }

  lemma {:induction false} RunsAreDistinct(base: Addr, stride: nat, batch: nat, from: nat, blocks: nat)
    requires batch > 0 && stride > 0 && from <= blocks
    ensures forall i :: 0 <= i < |Carve(base, stride, batch, from, blocks)| ==> Distinct(Carve(base, stride, batch, from, blocks)[i])
    decreases blocks - from
  {
    if from < blocks {
      var take := Less(batch, blocks - from);
      RunsAreDistinct(base, stride, batch, from + take, blocks);
      var run := Run(base, stride, from, take);
      forall i, j | 0 <= i < j < take ensures run[i] != run[j] {
        StridesApart(base, stride, from + take - 1 - j, from + take - 1 - i);
      }
    }
  }
}
