/**
 Cutting a byte stream into packets, and why it does not matter in which pieces the stream arrives.
 */
module Framing {
  import opened Wire

  datatype Parsed = Whole(packet: Packet, rest: seq<Byte>) | NeedMoreData | Invalid

  // What the front of a stream holds, for a receiver that takes packets up to max bytes.
  function ParseOne(stream: seq<Byte>, max: nat): Parsed
  {
    if |stream| < HEADER_SIZE then NeedMoreData
    else if SizeOf(stream) < HEADER_SIZE || SizeOf(stream) > max then Invalid
    else if |stream| < SizeOf(stream) then NeedMoreData
    else Whole(stream[..SizeOf(stream)], stream[SizeOf(stream)..])
  }

  // Cutting undoes writing: a packet comes out exactly where a header of an admitted size has its body
  // behind it, with that id and that body; a header of any other size is invalid, and one whose body is
  // not all there has to wait.
  lemma ParsesWhatWasWritten(stream: seq<Byte>, max: nat, id: nat, size: nat, tail: seq<Byte>)
    requires id <= PACKET_SIZE_LIMIT && size <= PACKET_SIZE_LIMIT && stream == Header(id, size) + tail
    ensures size < HEADER_SIZE || size > max <==> ParseOne(stream, max).Invalid?
    ensures HEADER_SIZE <= size <= max && HEADER_SIZE + |tail| < size <==> ParseOne(stream, max).NeedMoreData?
    ensures HEADER_SIZE <= size <= max && size <= HEADER_SIZE + |tail| ==>
              ParseOne(stream, max) == Whole(Header(id, size) + tail[..size - HEADER_SIZE], tail[size - HEADER_SIZE..])
  {
    HeaderTells(id, size, tail);
    if HEADER_SIZE <= size <= HEADER_SIZE + |tail| {
      assert stream[..size] == Header(id, size) + tail[..size - HEADER_SIZE];
      assert stream[size..] == tail[size - HEADER_SIZE..];
    }
  }

  lemma CarriedIsParsed(stream: seq<Byte>, max: nat, id: nat, body: seq<Byte>, rest: seq<Byte>)
    requires Carries(stream, id, body, rest)
    ensures ParseOne(stream, max) == if HEADER_SIZE + |body| <= max then Whole(Header(id, HEADER_SIZE + |body|) + body, rest) else Invalid
    ensures IdOf(Header(id, HEADER_SIZE + |body|) + body) == id
  {
    var tail := body + rest;
    assert stream == Header(id, HEADER_SIZE + |body|) + tail;
    ParsesWhatWasWritten(stream, max, id, HEADER_SIZE + |body|, tail);
    HeaderTells(id, HEADER_SIZE + |body|, body);
    assert tail[..|body|] == body && tail[|body|..] == rest;
  }

  // The packets a stream delivers, what is left over, and whether an invalid header stopped it.
  datatype Delivery = Delivery(packets: seq<Packet>, rest: seq<Byte>, bad: bool)

  function Deliver(stream: seq<Byte>, max: nat): (d: Delivery)
    ensures Stream(d.packets) + d.rest == stream
    decreases |stream|
  {
    match ParseOne(stream, max)
    case NeedMoreData => Delivery([], stream, false)
    case Invalid => Delivery([], stream, true)
    case Whole(p, rest) =>
      var d := Deliver(rest, max);
      StreamHead([p] + d.packets);
      assert ([p] + d.packets)[1..] == d.packets;
      Delivery([p] + d.packets, d.rest, d.bad)
  }

  // A receiver that parses after every piece, carrying the unparsed rest over to the next one.
  function Feed(held: seq<Byte>, pieces: seq<seq<Byte>>, max: nat): Delivery
    decreases |pieces|
  {
    if pieces == [] then Delivery([], held, false)
    else
      var d := Deliver(held + pieces[0], max);
      if d.bad then d
      else
        var more := Feed(d.rest, pieces[1..], max);
        Delivery(d.packets + more.packets, more.rest, more.bad)
  }

  lemma ParseIgnoresTail(a: seq<Byte>, b: seq<Byte>, max: nat)
    ensures ParseOne(a, max).Invalid? ==> ParseOne(a + b, max).Invalid?
    ensures ParseOne(a, max).Whole? ==>
              ParseOne(a + b, max) == Whole(ParseOne(a, max).packet, ParseOne(a, max).rest + b)
  {
    if ParseOne(a, max).Whole? {
      var size := SizeOf(a);
      assert (a + b)[..size] == a[..size];
      assert (a + b)[size..] == a[size..] + b;
    }
  }

  lemma WholeShrinks(stream: seq<Byte>, max: nat)
    requires ParseOne(stream, max).Whole?
    ensures |ParseOne(stream, max).rest| < |stream|
  {
  }

  // What has been delivered stays delivered when more bytes come.
  lemma {:induction false} DeliverContinues(a: seq<Byte>, b: seq<Byte>, max: nat)
    ensures var first := Deliver(a, max);
            var all := Deliver(a + b, max);
            if first.bad then all.bad && all.packets == first.packets
            else all == Delivery(first.packets + Deliver(first.rest + b, max).packets,
                                 Deliver(first.rest + b, max).rest, Deliver(first.rest + b, max).bad)
    decreases |a|
  {
    hide ParseOne, Stream;
    ParseIgnoresTail(a, b, max);
    if ParseOne(a, max).Whole? {
      var p, rest := ParseOne(a, max).packet, ParseOne(a, max).rest;
      assert |rest| < |a| by { WholeShrinks(a, max); }
      DeliverContinues(rest, b, max);
      var first := Deliver(rest, max);
      assert [p] + (first.packets + Deliver(first.rest + b, max).packets)
          == [p] + first.packets + Deliver(first.rest + b, max).packets;
    }
  }

  // The rest a parse leaves has nothing more in it.
  lemma {:induction false} RestIsUnparsed(stream: seq<Byte>, max: nat)
    ensures var d := Deliver(stream, max);
            ParseOne(d.rest, max) == (if d.bad then Invalid else NeedMoreData)
    decreases |stream|
  {
    if ParseOne(stream, max).Whole? {
      RestIsUnparsed(ParseOne(stream, max).rest, max);
    }
  }

  // Chunking does not matter: parsing piece by piece delivers what parsing the whole stream delivers.
  lemma {:induction false} PiecesDoNotMatter(held: seq<Byte>, pieces: seq<seq<Byte>>, max: nat)
    requires ParseOne(held, max).NeedMoreData?
    ensures var fed := Feed(held, pieces, max);
            var all := Deliver(held + Stream(pieces), max);
            fed.packets == all.packets && fed.bad == all.bad && (!fed.bad ==> fed.rest == all.rest)
    decreases |pieces|
  {
    if pieces == [] {
      assert held + Stream(pieces) == held;
    } else {
      var d := Deliver(held + pieces[0], max);
      StreamHead(pieces);
      assert held + Stream(pieces) == held + pieces[0] + Stream(pieces[1..]);
      DeliverContinues(held + pieces[0], Stream(pieces[1..]), max);
      if !d.bad {
        RestIsUnparsed(held + pieces[0], max);
        PiecesDoNotMatter(d.rest, pieces[1..], max);
      }
    }
  }

  lemma FramedParses(p: Packet, tail: seq<Byte>, max: nat)
    requires Framed(p, max)
    ensures ParseOne(p + tail, max) == Whole(p, tail)
  {
    assert (p + tail)[..|p|] == p && (p + tail)[|p|..] == tail;
  }

  // The packets of a well-formed stream come out as they went in.
  lemma {:induction false} FramedRoundTrip(packets: seq<Packet>, max: nat)
    requires AllFramed(packets, max)
    ensures Deliver(Stream(packets), max) == Delivery(packets, [], false)
    decreases |packets|
  {
    if packets != [] {
      StreamHead(packets);
      FramedParses(packets[0], Stream(packets[1..]), max);
      FramedRoundTrip(packets[1..], max);
      assert [packets[0]] + packets[1..] == packets;
    }
  }

  // A stream cut short delivers the first packets, and the rest is the beginning of the next one.
  lemma {:induction false} PrefixDelivers(bytes: seq<Byte>, packets: seq<Packet>, max: nat)
    requires AllFramed(packets, max) && bytes <= Stream(packets)
    ensures var d := Deliver(bytes, max);
            !d.bad && d.packets <= packets && d.rest <= Stream(packets[|d.packets|..])
  {
    var tail := Stream(packets)[|bytes|..];
    assert bytes + tail == Stream(packets);
    FramedRoundTrip(packets, max);
    DeliverContinues(bytes, tail, max);
    var d := Deliver(bytes, max);
    assert packets == d.packets + packets[|d.packets|..];
    StreamAppends(d.packets, packets[|d.packets|..]);
    assert Stream(d.packets) + d.rest <= Stream(d.packets) + Stream(packets[|d.packets|..]);
    PrefixOfSum(Stream(d.packets), d.rest, Stream(packets[|d.packets|..]));
  }

  lemma PrefixOfSum(a: seq<Byte>, b: seq<Byte>, c: seq<Byte>)
    requires a + b <= a + c
    ensures b <= c
  {
    assert (a + b)[|a|..] == b;
    assert (a + c)[|a|..][..|b|] == c[..|b|];
    assert (a + c)[..|a| + |b|] == a + b;
    assert (a + c)[..|a| + |b|][|a|..] == c[..|b|];
  }

  // One handler cannot deliver more packets than there are headers in its bytes.
  lemma {:induction false} FewPackets(stream: seq<Byte>, max: nat)
    ensures |Deliver(stream, max).packets| * HEADER_SIZE <= |stream|
    decreases |stream|
  {
    if ParseOne(stream, max).Whole? {
      FewPackets(ParseOne(stream, max).rest, max);
    }
  }
}
