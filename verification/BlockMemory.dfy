/**
 Blocks in memory: headers at their addresses, chunk nodes written into the payloads of free blocks,
 and the lists that run through the headers.  How a segment is cut into blocks and chunks.
 */
module BlockMemory {
  import opened Tally
  import P = BlockPoolProtocol

  type Addr = P.Addr

  const NULL: Addr := 0

  // BlockHeader; ChunkNode lies at the start of the payload of a chunk's first block.
  datatype BlockHeader = BlockHeader(magic: nat, binIndex: nat, poolId: nat, next: Addr)
  datatype ChunkNode = ChunkNode(blockHead: Addr, blockCount: nat)

  type Headers = map<Addr, BlockHeader>
  type Nodes = map<Addr, ChunkNode>

  // The memory the pool's segments are mapped into.
  class Memory {
    var headers: Headers
    var nodes: Nodes

    constructor ()
      ensures headers == map[] && nodes == map[]
    {
      headers, nodes := map[], map[];
    }
  }

  function Elements(blocks: seq<Addr>): set<Addr> { set x | x in blocks }

  function First(chain: seq<Addr>): Addr
  {
    if chain == [] then NULL else chain[0]
  }

  // The blocks of bin `bin` linked one after the other through their headers, the last one to NULL.
  ghost predicate Links(h: Headers, chain: seq<Addr>, bin: nat)
  {
    forall i :: 0 <= i < |chain| ==>
      chain[i] != NULL && chain[i] in h && h[chain[i]].next == First(chain[i + 1..]) && h[chain[i]].binIndex == bin
  }

  lemma LinksTail(h: Headers, chain: seq<Addr>, bin: nat)
    requires Links(h, chain, bin) && chain != []
    ensures Links(h, chain[1..], bin) && h[chain[0]].next == First(chain[1..])
  {
    forall i | 0 <= i < |chain[1..]|
      ensures chain[1..][i] == chain[i + 1] && chain[1..][i + 1..] == chain[i + 2..]
    {
    }
  }

  // Headers that agree on the blocks of the list keep it.
  lemma LinksKept(h: Headers, h': Headers, chain: seq<Addr>, bin: nat)
    requires Links(h, chain, bin)
    requires forall b :: b in chain ==> b in h' && h'[b].next == h[b].next && h'[b].binIndex == h[b].binIndex
    ensures Links(h', chain, bin)
  {
  }

  lemma LinksPush(h: Headers, b: Addr, header: BlockHeader, chain: seq<Addr>, bin: nat)
    requires Links(h, chain, bin) && b !in chain && b != NULL
    requires header.next == First(chain) && header.binIndex == bin
    ensures Links(h[b := header], [b] + chain, bin)
  {
    var longer := [b] + chain;
    var h' := h[b := header];
    forall i | 0 <= i < |longer|
      ensures h'[longer[i]].next == First(longer[i + 1..])
    {
      assert longer[i + 1..] == chain[i..];
    }
  }

  // Cutting the list after n blocks.
  lemma LinksCut(h: Headers, chain: seq<Addr>, n: nat, bin: nat)
    requires Links(h, chain, bin) && 0 < n <= |chain|
    requires forall i, j :: 0 <= i < j < |chain| ==> chain[i] != chain[j]
    ensures chain[n - 1] in h && h[chain[n - 1]].next == First(chain[n..])
    ensures var cut := h[chain[n - 1] := h[chain[n - 1]].(next := NULL)];
            Links(cut, chain[..n], bin) && Links(cut, chain[n..], bin)
  {
    var tail := chain[n - 1];
    var cut := h[tail := h[tail].(next := NULL)];
    forall i | 0 <= i < n
      ensures chain[..n][i] == chain[i] && cut[chain[i]].next == First(chain[..n][i + 1..])
    {
    }
    forall i | 0 <= i < |chain| - n
      ensures chain[n..][i] == chain[n + i] && chain[n..][i + 1..] == chain[n + i + 1..]
    {
    }
  }

  // A chunk on the global list: its node names its first block and its length.
  ghost predicate ChunkAt(h: Headers, nodes: Nodes, headerSize: nat, node: Addr, chunk: seq<Addr>, bin: nat)
  {
    && chunk != [] && node == chunk[0] + headerSize && node in nodes
    && nodes[node] == ChunkNode(chunk[0], |chunk|) && Links(h, chunk, bin)
  }

  ghost predicate ChunksAt(h: Headers, nodes: Nodes, headerSize: nat, list: seq<Addr>, chunks: seq<seq<Addr>>, bin: nat)
  {
    |list| == |chunks| && forall i :: 0 <= i < |list| ==> ChunkAt(h, nodes, headerSize, list[i], chunks[i], bin)
  }

  lemma ChunksKept(h: Headers, h': Headers, nodes: Nodes, nodes': Nodes, headerSize: nat, list: seq<Addr>,
                   chunks: seq<seq<Addr>>, bin: nat)
    requires ChunksAt(h, nodes, headerSize, list, chunks, bin)
    requires forall i, b :: 0 <= i < |chunks| && b in chunks[i] ==> b in h' && h'[b].next == h[b].next && h'[b].binIndex == h[b].binIndex
    requires forall i :: 0 <= i < |list| ==> list[i] in nodes' && nodes'[list[i]] == nodes[list[i]]
    ensures ChunksAt(h', nodes', headerSize, list, chunks, bin)
  {
    forall i | 0 <= i < |list| ensures ChunkAt(h', nodes', headerSize, list[i], chunks[i], bin) {
      assert ChunkAt(h, nodes, headerSize, list[i], chunks[i], bin);
      LinksKept(h, h', chunks[i], bin);
    }
  }

  // --- Carving ------------------------------------------------------------------------------------

  // The header of block i of a segment.
  function BlockAt(base: Addr, stride: nat, i: nat): Addr { base + stride * i }

  // The blocks of a segment from one index to another.
  function BlocksBetween(base: Addr, stride: nat, from: nat, to: nat): set<Addr>
  {
    set j | from <= j < to :: BlockAt(base, stride, j)
  }

  // `take` blocks from block `from` on, linked by pushing each in front: the last one heads the chunk.
  function Run(base: Addr, stride: nat, from: nat, take: nat): (r: seq<Addr>)
    ensures |r| == take
  {
    seq(take, i requires 0 <= i < take => BlockAt(base, stride, from + take - 1 - i))
  }

  function Less(a: nat, b: nat): (r: nat)
    ensures r <= a && r <= b && (r == a || r == b)
  {
    if a < b then a else b
  }

  // All chunks from block `from` to `blocks`, the last one carved on top.
  function Carve(base: Addr, stride: nat, batch: nat, from: nat, blocks: nat): seq<seq<Addr>>
    requires batch > 0 && from <= blocks
    decreases blocks - from
  {
    if from == blocks then []
    else
      var take := Less(batch, blocks - from);
      Carve(base, stride, batch, from + take, blocks) + [Run(base, stride, from, take)]
  }

  lemma {:induction false} StridesApart(base: Addr, stride: nat, i: nat, j: nat)
    requires i < j
    ensures BlockAt(base, stride, i) + stride <= BlockAt(base, stride, j)
    decreases j
  {
    if i + 1 < j {
      StridesApart(base, stride, i, j - 1);
    }
    assert stride * j == stride * (j - 1) + stride;
  }

  // Membership in what is carved: exactly the blocks of the segment.
  lemma {:induction false} CarvedBlocks(base: Addr, stride: nat, batch: nat, from: nat, blocks: nat, b: Addr)
    requires batch > 0 && from <= blocks
    ensures b in P.Flat(Carve(base, stride, batch, from, blocks))
       <==> exists i :: from <= i < blocks && b == BlockAt(base, stride, i)
    decreases blocks - from
  {
    if from < blocks {
      var take := Less(batch, blocks - from);
      var rest := Carve(base, stride, batch, from + take, blocks);
      var run := Run(base, stride, from, take);
      FlatAppends(rest, run);
      CarvedBlocks(base, stride, batch, from + take, blocks, b);
      forall i | from <= i < from + take && b == BlockAt(base, stride, i)
        ensures b in run
      {
        assert run[from + take - 1 - i] == b;
      }
    }
  }

  lemma {:induction false} FlatAppends(chunks: seq<seq<Addr>>, last: seq<Addr>)
    ensures P.Flat(chunks + [last]) == P.Flat(chunks) + last
  {
    if chunks == [] {
      assert chunks + [last] == [last] && [last][1..] == [];
    } else {
      FlatAppends(chunks[1..], last);
      assert (chunks + [last])[1..] == chunks[1..] + [last];
    }
  }

  lemma {:induction false} CarvedAreDistinct(base: Addr, stride: nat, batch: nat, from: nat, blocks: nat)
    requires batch > 0 && stride > 0 && from <= blocks
    ensures Distinct(P.Flat(Carve(base, stride, batch, from, blocks)))
    decreases blocks - from
  {
    if from < blocks {
      var take := Less(batch, blocks - from);
      var rest := Carve(base, stride, batch, from + take, blocks);
      var run := Run(base, stride, from, take);
      FlatAppends(rest, run);
      CarvedAreDistinct(base, stride, batch, from + take, blocks);
      var all, n := P.Flat(rest) + run, |P.Flat(rest)|;
      forall i, j | 0 <= i < j < |all| ensures all[i] != all[j] {
        if j >= n {
          var y := from + take - 1 - (j - n);
          assert all[j] == BlockAt(base, stride, y);
          if i >= n {
            StridesApart(base, stride, y, from + take - 1 - (i - n));
          } else {
            assert all[i] in P.Flat(rest);
            CarvedBlocks(base, stride, batch, from + take, blocks, all[i]);
            var x :| from + take <= x < blocks && all[i] == BlockAt(base, stride, x);
            StridesApart(base, stride, y, x);
          }
        }
      }
    }
  }

  // Every chunk is a whole batch but the one carved last, on top, which takes what is left.
  lemma {:induction false} CarvedSizes(base: Addr, stride: nat, batch: nat, from: nat, blocks: nat)
    requires batch > 0 && from <= blocks
    ensures forall i :: 0 <= i < |Carve(base, stride, batch, from, blocks)| ==>
              1 <= |Carve(base, stride, batch, from, blocks)[i]| <= batch
              && (i > 0 ==> |Carve(base, stride, batch, from, blocks)[i]| == batch)
    decreases blocks - from
  {
    if from < blocks {
      CarvedSizes(base, stride, batch, from + Less(batch, blocks - from), blocks);
    }
  }
}
