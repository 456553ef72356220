/** Bytes on a connection: packets, their headers, and the stream they form. */
module Wire {

  newtype Byte = b: int | 0 <= b < 256

  type Packet = seq<Byte>

  // sizeof(PACKET_HEADER): a 16-bit id and a 16-bit size, both little-endian.
  const HEADER_SIZE := 4
  const PACKET_SIZE_LIMIT := 65535

  function IdOf(bytes: seq<Byte>): nat
    requires |bytes| >= HEADER_SIZE
  {
    bytes[0] as nat + 256 * bytes[1] as nat
  }

  function SizeOf(bytes: seq<Byte>): nat
    requires |bytes| >= HEADER_SIZE
  {
    bytes[2] as nat + 256 * bytes[3] as nat
  }

  // A header as a sender writes it: two 16-bit fields, low byte first.
  function Header(id: nat, size: nat): (h: seq<Byte>)
    requires id <= PACKET_SIZE_LIMIT && size <= PACKET_SIZE_LIMIT
    ensures |h| == HEADER_SIZE
  {
    [(id % 256) as Byte, (id / 256) as Byte, (size % 256) as Byte, (size / 256) as Byte]
  }

  // What a header was written with is read back from it, whatever bytes follow.
  lemma HeaderTells(id: nat, size: nat, tail: seq<Byte>)
    requires id <= PACKET_SIZE_LIMIT && size <= PACKET_SIZE_LIMIT
    ensures IdOf(Header(id, size) + tail) == id && SizeOf(Header(id, size) + tail) == size
  {
    var bytes := Header(id, size) + tail;
    assert bytes[0] as nat == id % 256 && bytes[1] as nat == id / 256;
    assert bytes[2] as nat == size % 256 && bytes[3] as nat == size / 256;
  }

  // Any four bytes are the header of one id and one size.
  lemma HeaderIsRead(bytes: seq<Byte>)
    requires |bytes| >= HEADER_SIZE
    ensures IdOf(bytes) <= PACKET_SIZE_LIMIT && SizeOf(bytes) <= PACKET_SIZE_LIMIT
    ensures bytes[..HEADER_SIZE] == Header(IdOf(bytes), SizeOf(bytes))
  {
    assert (IdOf(bytes) % 256) as Byte == bytes[0] && (IdOf(bytes) / 256) as Byte == bytes[1];
    assert (SizeOf(bytes) % 256) as Byte == bytes[2] && (SizeOf(bytes) / 256) as Byte == bytes[3];
  }

  // The bytes begin with a packet of this id and this body, written behind a header of its own size.
  ghost predicate Carries(bytes: seq<Byte>, id: nat, body: seq<Byte>, rest: seq<Byte>)
  {
    && id <= PACKET_SIZE_LIMIT && HEADER_SIZE + |body| <= PACKET_SIZE_LIMIT
    && bytes == Header(id, HEADER_SIZE + |body|) + body + rest
  }

  // A packet the engine sends: the size in its header is its own.
  predicate Framed(p: Packet, max: nat)
  {
    HEADER_SIZE <= |p| <= max && SizeOf(p) == |p|
  }

  // That is: the packet is a header and a body, and the header was written for this body.
  lemma FramedIff(p: Packet, max: nat)
    requires max <= PACKET_SIZE_LIMIT
    ensures Framed(p, max) <==> |p| <= max && exists id, body :: Carries(p, id, body, [])
  {
    if Framed(p, max) {
      HeaderIsRead(p);
      assert Carries(p, IdOf(p), p[HEADER_SIZE..], []);
    }
    forall id, body | Carries(p, id, body, [])
      ensures HEADER_SIZE <= |p| == SizeOf(p)
    {
      HeaderTells(id, HEADER_SIZE + |body|, body + []);
      assert p == Header(id, HEADER_SIZE + |body|) + (body + []);
    }
  }

  ghost predicate AllFramed(packets: seq<Packet>, max: nat)
  {
    forall i :: 0 <= i < |packets| ==> Framed(packets[i], max)
  }

  function Stream(packets: seq<Packet>): seq<Byte>
  {
    if packets == [] then [] else Stream(packets[..|packets| - 1]) + packets[|packets| - 1]
  }

  lemma {:induction false} StreamAppends(a: seq<Packet>, b: seq<Packet>)
    ensures Stream(a + b) == Stream(a) + Stream(b)
  {
    if b == [] {
      assert a + b == a;
    } else {
      var init := b[..|b| - 1];
      StreamAppends(a, init);
      assert (a + b)[..|a + b| - 1] == a + init;
    }
  }

  lemma StreamOne(p: Packet)
    ensures Stream([p]) == p
  {
    assert [p][..0] == [];
  }

  lemma StreamHead(packets: seq<Packet>)
    requires packets != []
    ensures Stream(packets) == packets[0] + Stream(packets[1..])
  {
    StreamAppends([packets[0]], packets[1..]);
    StreamOne(packets[0]);
    assert [packets[0]] + packets[1..] == packets;
  }
}
