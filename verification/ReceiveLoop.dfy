/** The receive completion handler around the ring, and a whole connection received through it. */
module ReceiveLoop {
  import opened Wire
  import opened Framing
  import opened RecvRing
  import opened Tally

  // How a handler left the stream: parsed as far as it goes, or not to be trusted any more.
  datatype Verdict = Parsed | BadHeader | PoolExhausted

  // One turn of the parse loop.
  lemma DeliverStep(stream: seq<Byte>, max: nat)
    ensures ParseOne(stream, max).NeedMoreData? ==> Deliver(stream, max) == Delivery([], stream, false)
    ensures ParseOne(stream, max).Invalid? ==> Deliver(stream, max) == Delivery([], stream, true)
    ensures ParseOne(stream, max).Whole? ==>
              var p, rest := ParseOne(stream, max).packet, ParseOne(stream, max).rest;
              && |rest| < |stream|
              && Deliver(stream, max) == Delivery([p] + Deliver(rest, max).packets, Deliver(rest, max).rest, Deliver(rest, max).bad)
  {
  }

  // What one handler hands on: the packets in order as far as the pool's budget goes.
  ghost predicate Handed(d: Delivery, budget: nat, packets: seq<Packet>, verdict: Verdict, rest: seq<Byte>)
  {
    && packets == d.packets[..Min(budget, |d.packets|)]
    && (verdict.PoolExhausted? <==> budget < |d.packets|)
    && (verdict.BadHeader? <==> budget >= |d.packets| && d.bad)
    && (budget >= |d.packets| ==> rest == d.rest)
  }

  // Everything parsed so far, and what the rest of the ring still delivers.
  ghost predicate Ahead(d: Delivery, packets: seq<Packet>, left: seq<Byte>, max: nat)
  {
    d == Delivery(packets + Deliver(left, max).packets, Deliver(left, max).rest, Deliver(left, max).bad)
  }

  lemma AheadStep(d: Delivery, packets: seq<Packet>, left: seq<Byte>, max: nat)
    requires Ahead(d, packets, left, max) && ParseOne(left, max).Whole?
    ensures Ahead(d, packets + [ParseOne(left, max).packet], ParseOne(left, max).rest, max)
    ensures |ParseOne(left, max).rest| < |left| && |packets| < |d.packets|
  {
    hide ParseOne, Deliver;
    DeliverStep(left, max);
    var p, rest := ParseOne(left, max).packet, ParseOne(left, max).rest;
    assert packets + ([p] + Deliver(rest, max).packets) == packets + [p] + Deliver(rest, max).packets;
  }

  lemma AheadEnds(d: Delivery, budget: nat, packets: seq<Packet>, left: seq<Byte>, max: nat)
    requires Ahead(d, packets, left, max) && |packets| <= budget
    ensures ParseOne(left, max).NeedMoreData? ==> Handed(d, budget, packets, Parsed, left)
    ensures ParseOne(left, max).Invalid? ==> Handed(d, budget, packets, BadHeader, left)
    ensures ParseOne(left, max).Whole? && |packets| == budget ==> Handed(d, budget, packets, PoolExhausted, left)
  {
    hide ParseOne, Deliver;
    DeliverStep(left, max);
    assert d.packets[..|packets|] == packets;
  }

  // HandleRecv between the completion and the next post, as far as the ring is concerned; budget is
  // how many packets the packet pool can still give out.
  method HandleRecv(ring: RecvPacketBuffer, bytesTransferred: nat, budget: nat)
    returns (committed: bool, packets: seq<Packet>, verdict: Verdict)
    requires ring.Valid() && ring.buffer != null && ring.pooled
    modifies ring`writePos, ring`readPos, ring`storedSize
    ensures ring.Valid()
    ensures committed <==> 0 < bytesTransferred <= Min(old(ring.capacity - ring.writePos), old(ring.capacity - ring.storedSize))
    ensures !committed ==> packets == [] && ring.Contents() == old(ring.Contents())
    ensures committed ==>
              var stream := old(ring.Contents() + ring.buffer[ring.writePos..ring.writePos + bytesTransferred]);
              && Handed(Deliver(stream, ring.maxPacketSize), budget, packets, verdict, ring.Contents())
              && |packets| * HEADER_SIZE <= old(ring.storedSize) + bytesTransferred
  {
    hide ParseOne, Deliver, Handed, Ahead, RecvPacketBuffer.Contents;
    packets, verdict := [], Parsed;
    committed := ring.CommitWrite(bytesTransferred);
    if !committed {
      return;
    }
    ghost var stream := ring.Contents();
    ghost var max := ring.maxPacketSize;
    ghost var d := Deliver(stream, max);
    NothingAheadYet(stream, max);
    while !ring.IsEmpty()
      invariant ring.Valid() && verdict == Parsed && |packets| <= budget
      invariant Ahead(d, packets, ring.Contents(), max)
      decreases ring.storedSize
    {
      ghost var left := ring.Contents();
      var result, packet, size, id := ring.ReadPacket(|packets| < budget);
      AheadEnds(d, budget, packets, left, max);
      if result == NeedMore {
        CountHanded(stream, max, budget, packets, verdict, ring.Contents());
        return;
      }
      if result != Ok {
        verdict := if result == Bad then BadHeader else PoolExhausted;
        CountHanded(stream, max, budget, packets, verdict, ring.Contents());
        return;
      }
      AheadStep(d, packets, left, max);
      packets := packets + [packet[..]];
    }
    EmptyNeedsMore(ring.Contents(), max);
    AheadEnds(d, budget, packets, ring.Contents(), max);
    CountHanded(stream, max, budget, packets, verdict, ring.Contents());
  }

  lemma EmptyNeedsMore(stream: seq<Byte>, max: nat)
    requires |stream| == 0
    ensures ParseOne(stream, max).NeedMoreData?
  {
  }

  lemma NothingAheadYet(stream: seq<Byte>, max: nat)
    ensures Ahead(Deliver(stream, max), [], stream, max)
  {
    hide Deliver;
    assert [] + Deliver(stream, max).packets == Deliver(stream, max).packets;
  }

  lemma CountHanded(stream: seq<Byte>, max: nat, budget: nat, packets: seq<Packet>, verdict: Verdict, rest: seq<Byte>)
    requires Handed(Deliver(stream, max), budget, packets, verdict, rest)
    ensures |packets| * HEADER_SIZE <= |stream|
  {
    FewPackets(stream, max);
  }

  // The packets of the bytes received so far have been handed on.
  ghost predicate UpTo(seen: seq<Byte>, max: nat, delivered: seq<Packet>, bad: bool, rest: seq<Byte>)
  {
    var d := Deliver(seen, max);
    delivered == d.packets && bad == d.bad && (!bad ==> rest == d.rest)
  }

  lemma UpToContinues(seen: seq<Byte>, piece: seq<Byte>, max: nat, budget: nat, delivered: seq<Packet>, held: seq<Byte>,
                      packets: seq<Packet>, verdict: Verdict, rest: seq<Byte>)
    requires UpTo(seen, max, delivered, false, held) && |held + piece| <= budget
    requires Handed(Deliver(held + piece, max), budget, packets, verdict, rest)
    ensures UpTo(seen + piece, max, delivered + packets, verdict.BadHeader?, rest)
  {
    DeliverContinues(seen, piece, max);
    FewPackets(held + piece, max);
  }

  // One completion: the room offered, the bytes the kernel wrote, and whether they were taken.
  datatype Completion = Completion(offer: nat, size: nat, committed: bool)

  function BytesTaken(c: Completion): nat { c.size }

  predicate Fits(c: Completion, max: nat)
  {
    max <= c.offer && 1 <= c.size <= c.offer && c.committed
  }

  // A connection whose peer sends `stream`: before each completion the ring offers room, the kernel
  // fills any part of it, and the handler parses.  Whatever the kernel chooses, the packets handed
  // on are those of the whole stream, every offer has room for a whole packet, and no commit fails.
  method ReceiveConnection(ring: RecvPacketBuffer, stream: seq<Byte>)
    returns (delivered: seq<Packet>, bad: bool, log: seq<Completion>)
    requires ring.Valid() && ring.buffer != null && ring.pooled && ring.Contents() == []
    modifies ring`writePos, ring`readPos, ring`storedSize, ring.buffer
    ensures ring.Valid() && (forall i :: 0 <= i < |log| ==> Fits(log[i], ring.maxPacketSize))
    ensures Total(log, BytesTaken) <= |stream| && (!bad ==> Total(log, BytesTaken) == |stream|)
    ensures delivered == Deliver(stream, ring.maxPacketSize).packets
    ensures bad == Deliver(stream, ring.maxPacketSize).bad
    ensures !bad ==> ring.Contents() == Deliver(stream, ring.maxPacketSize).rest
  {
    hide ParseOne, Deliver, Handed, UpTo, RecvPacketBuffer.Contents, Total;
    delivered, bad, log := [], false, [];
    var sent := 0;
    ghost var max := ring.maxPacketSize;
    StartsUpTo(stream, max);
    Zero(log, BytesTaken);
    while sent < |stream| && !bad
      invariant ring.Valid() && sent == Total(log, BytesTaken) <= |stream|
      invariant forall i :: 0 <= i < |log| ==> Fits(log[i], max)
      invariant UpTo(stream[..sent], max, delivered, bad, ring.Contents())
      decreases |stream| - sent
    {
      LittleIsLeft(stream[..sent], max, delivered, ring.Contents());
      ring.PrepareWrite();
      var offer := ring.GetWriteableSize();
      var k: nat :| 1 <= k <= offer && sent + k <= |stream|;
      ghost var held := ring.Contents();
      ghost var piece := stream[sent..sent + k];
      ring.Receive(stream[sent..sent + k]);
      var committed, packets, verdict := HandleRecv(ring, k, ring.capacity);
      assert stream[..sent] + piece == stream[..sent + k];
      UpToContinues(stream[..sent], piece, max, ring.capacity, delivered, held, packets, verdict, ring.Contents());
      delivered := delivered + packets;
      bad := verdict.BadHeader?;
      Concat(log, [Completion(offer, k, committed)], BytesTaken);
      Single(Completion(offer, k, committed), BytesTaken);
      log := log + [Completion(offer, k, committed)];
      sent := sent + k;
    }
    assert stream[..sent] + stream[sent..] == stream;
    UpToTheEnd(stream[..sent], stream[sent..], max, delivered, bad, ring.Contents());
  }

  lemma StartsUpTo(stream: seq<Byte>, max: nat)
    ensures UpTo(stream[..0], max, [], false, [])
  {
  }

  // Stopped by a bad header, or at the end of the stream.
  lemma UpToTheEnd(seen: seq<Byte>, unseen: seq<Byte>, max: nat, delivered: seq<Packet>, bad: bool, rest: seq<Byte>)
    requires UpTo(seen, max, delivered, bad, rest) && (bad || unseen == [])
    ensures var d := Deliver(seen + unseen, max); delivered == d.packets && bad == d.bad && (!bad ==> rest == d.rest)
  {
    DeliverContinues(seen, unseen, max);
    assert seen + [] == seen;
  }

  // What parsing leaves behind is less than a packet.
  lemma LittleIsLeft(seen: seq<Byte>, max: nat, delivered: seq<Packet>, rest: seq<Byte>)
    requires max >= HEADER_SIZE && UpTo(seen, max, delivered, false, rest)
    ensures |rest| < max
  {
    RestIsUnparsed(seen, max);
  }

  // A peer that sends well-formed packets has exactly those delivered.
  method ReceivePackets(ring: RecvPacketBuffer, ghost sent: seq<Packet>, stream: seq<Byte>) returns (delivered: seq<Packet>)
    requires ring.Valid() && ring.buffer != null && ring.pooled && ring.Contents() == []
    requires AllFramed(sent, ring.maxPacketSize) && stream == Stream(sent)
    modifies ring`writePos, ring`readPos, ring`storedSize, ring.buffer
    ensures ring.Valid() && delivered == sent && ring.Contents() == []
  {
    FramedRoundTrip(sent, ring.maxPacketSize);
    var bad, log;
    delivered, bad, log := ReceiveConnection(ring, stream);
  }
}
