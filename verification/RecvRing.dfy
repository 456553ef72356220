/** The receive ring of a session: a power-of-two buffer the kernel fills and the parser empties. */
module RecvRing {
  import opened Bits
  import opened Wire
  import opened Framing

  datatype PacketReadResult = Ok | NeedMore | Bad | OutOfMemory

  function Min(a: nat, b: nat): nat { if a < b then a else b }

  // A position one lap too far comes back to the start.
  function Wrap(x: nat, capacity: nat): nat
  {
    if x < capacity then x else x - capacity
  }

  lemma MaskWraps(x: nat, capacity: nat)
    requires IsPowerOfTwo(capacity) && x < 2 * capacity
    ensures And(x, capacity - 1) == Wrap(x, capacity)
  {
    PowerOfTwoIff(capacity);
    var k: nat :| capacity == Pow2(k);
    MaskIsMod(x, k);
    if x < capacity { QuotientIs(x, capacity, 0, x); } else { QuotientIs(x, capacity, 1, x - capacity); }
  }

  // The bytes from a position on, around the end of the buffer.
  function Around(bytes: seq<Byte>, from: nat, count: nat): (r: seq<Byte>)
    requires from < |bytes| && count <= |bytes|
    ensures |r| == count
  {
    if from + count <= |bytes| then bytes[from..from + count]
    else bytes[from..] + bytes[..from + count - |bytes|]
  }

  lemma AroundSplits(bytes: seq<Byte>, from: nat, count: nat, first: nat)
    requires from < |bytes| && first <= count <= |bytes|
    ensures Wrap(from + first, |bytes|) < |bytes|
    ensures Around(bytes, from, count)[..first] == Around(bytes, from, first)
    ensures Around(bytes, from, count)[first..] == Around(bytes, Wrap(from + first, |bytes|), count - first)
  {
  }

  // Bytes written behind the stored ones become the tail of the contents.
  lemma AroundExtends(bytes: seq<Byte>, from: nat, count: nat, more: nat)
    requires from < |bytes| && count + more <= |bytes|
    requires Wrap(from + count, |bytes|) + more <= |bytes|
    ensures Around(bytes, from, count + more)
         == Around(bytes, from, count) + bytes[Wrap(from + count, |bytes|)..Wrap(from + count, |bytes|) + more]
  {
  }

  // Writing only outside the stored region leaves it alone.
  lemma AroundUntouched(bytes: seq<Byte>, bytes': seq<Byte>, from: nat, count: nat, at: nat, n: nat)
    requires from < |bytes| == |bytes'| && count + n <= |bytes|
    requires at == Wrap(from + count, |bytes|) && at + n <= |bytes|
    requires bytes'[..at] == bytes[..at] && bytes'[at + n..] == bytes[at + n..]
    ensures Around(bytes', from, count) == Around(bytes, from, count)
  {
    forall i | 0 <= i < |bytes| && !(at <= i < at + n)
      ensures bytes'[i] == bytes[i]
    {
      if i < at {
        assert bytes'[i] == bytes'[..at][i];
      } else {
        assert bytes'[i] == bytes'[at + n..][i - at - n];
        assert bytes[i] == bytes[at + n..][i - at - n];
      }
    }
  }

  class RecvPacketBuffer {
    var buffer: array?<Byte>
    var pooled: bool           // m_packetMemoryPool is set
    var writePos: nat
    var readPos: nat
    var storedSize: nat
    var capacity: nat
    var capacityMask: nat
    var maxPacketSize: nat

    ghost predicate Valid()
      reads this
    {
      && (buffer == null ==> storedSize == 0 && readPos == 0 && writePos == 0 && capacity == 0)
      && (buffer != null ==>
            && buffer.Length == capacity && IsPowerOfTwo(capacity) && capacityMask == capacity - 1
            && HEADER_SIZE <= maxPacketSize <= PACKET_SIZE_LIMIT && capacity >= 2 * maxPacketSize
            && readPos < capacity && storedSize <= capacity && writePos == Wrap(readPos + storedSize, capacity))
    }

    // The byte sequence the ring stands for.
    ghost function Contents(): (s: seq<Byte>)
      reads this, buffer
      requires Valid()
      ensures |s| == storedSize
    {
      if buffer == null then [] else Around(buffer[..], readPos, storedSize)
    }

    constructor ()
      ensures Valid() && Contents() == [] && buffer == null && !pooled
    {
      buffer := null;
      pooled := false;
      writePos, readPos, storedSize := 0, 0, 0;
      capacity, capacityMask, maxPacketSize := 0, 0, 0;
    }

    method Finalize()
      modifies this
      ensures Valid() && buffer == null && !pooled && Contents() == []
    {
      pooled := false;
      writePos, readPos, storedSize := 0, 0, 0;
      capacity, capacityMask, maxPacketSize := 0, 0, 0;
      buffer := null;
    }

    method Reset()
      requires Valid()
      modifies this`writePos, this`readPos, this`storedSize
      ensures Valid() && Contents() == []
    {
      writePos, readPos, storedSize := 0, 0, 0;
    }

    // granted: whether _aligned_malloc succeeds.  A refused configuration leaves the ring as it was.
    method Initialize(pool: bool, ringSize: nat, maxSize: nat, granted: bool) returns (ok: bool)
      requires Valid()
      modifies this
      ensures Valid()
      ensures ok <==> pool && IsPowerOfTwo(ringSize) && HEADER_SIZE <= maxSize <= PACKET_SIZE_LIMIT
                      && ringSize >= 2 * maxSize && granted
      ensures ok ==> buffer != null && fresh(buffer) && pooled && capacity == ringSize && maxPacketSize == maxSize
                     && Contents() == []
      ensures !ok ==> buffer == old(buffer) || (buffer == null && !granted)
    {
      if !pool {
        return false;
      }
      if ringSize == 0 || And(ringSize, ringSize - 1) != 0 {
        return false;
      }
      if maxSize < HEADER_SIZE || maxSize > PACKET_SIZE_LIMIT {
        return false;
      }
      if ringSize < maxSize * 2 {
        return false;
      }
      Finalize();
      if !granted {
        return false;
      }
      pooled := true;
      capacity := ringSize;
      capacityMask := ringSize - 1;
      maxPacketSize := maxSize;
      buffer := new Byte[ringSize];
      Reset();
      return true;
    }

    predicate IsFull()
      reads this
    {
      storedSize == capacity
    }

    predicate IsEmpty()
      reads this
    {
      storedSize == 0
    }

    // The longest run of free bytes that starts at the write position.
    method GetWriteableSize() returns (n: nat)
      requires Valid()
      ensures buffer == null ==> n == 0
      ensures buffer != null ==> n == Min(capacity - writePos, capacity - storedSize)
    {
      if buffer == null {
        return 0;
      }
      if IsFull() {
        return 0;
      }
      if writePos >= readPos {
        var spaceToEnd := capacity - writePos;
        var totalSpace := capacity - storedSize;
        return if spaceToEnd < totalSpace then spaceToEnd else totalSpace;
      } else {
        return readPos - writePos;
      }
    }

    // What WSARecv does to the buffer it was given, before the completion is handled.
    method Receive(bytes: seq<Byte>)
      requires Valid() && buffer != null && |bytes| <= Min(capacity - writePos, capacity - storedSize)
      modifies buffer
      ensures Valid() && Contents() == old(Contents())
      ensures buffer[writePos..writePos + |bytes|] == bytes
    {
      ghost var before := buffer[..];
      forall i | 0 <= i < |bytes| {
        buffer[writePos + i] := bytes[i];
      }
      AroundUntouched(before, buffer[..], readPos, storedSize, writePos, |bytes|);
    }

    // Accepts exactly the completions that fit the offer; their bytes join the contents at the end.
    method CommitWrite(bytesReceived: nat) returns (ok: bool)
      requires Valid()
      modifies this`writePos, this`storedSize
      ensures Valid()
      ensures ok <==> buffer != null && 0 < bytesReceived <= Min(capacity - old(writePos), capacity - old(storedSize))
      ensures ok ==> Contents() == old(Contents()) + old(buffer[writePos..writePos + bytesReceived])
      ensures !ok ==> writePos == old(writePos) && storedSize == old(storedSize)
    {
      if buffer == null || bytesReceived == 0 {
        return false;
      }
      var writeableSize := GetWriteableSize();
      if bytesReceived > writeableSize {
        return false;
      }
      hide And, IsPowerOfTwo;
      AroundExtends(buffer[..], readPos, storedSize, bytesReceived);
      MaskWraps(writePos + bytesReceived, capacity);
      writePos := And(writePos + bytesReceived, capacityMask);
      storedSize := storedSize + bytesReceived;
      return true;
    }

    // The four bytes at the read position, also when they lie around the end.
    method PeekHeader() returns (ok: bool, header: seq<Byte>)
      requires Valid()
      ensures ok <==> storedSize >= HEADER_SIZE
      ensures ok ==> header == Contents()[..HEADER_SIZE]
    {
      header := [];
      if buffer == null || IsEmpty() {
        return false, [];
      }
      if storedSize < HEADER_SIZE {
        return false, [];
      }
      AroundSplits(buffer[..], readPos, storedSize, HEADER_SIZE);
      var remainFirst := capacity - readPos;
      if remainFirst >= HEADER_SIZE {
        header := buffer[readPos..readPos + HEADER_SIZE];
      } else {
        header := buffer[readPos..] + buffer[..HEADER_SIZE - remainFirst];
      }
      return true, header;
    }

    // Makes room for a whole packet in one piece whenever what is stored is less than one packet; nothing
    // moves where that room is there already or what is stored lies around the end.
    method PrepareWrite()
      requires Valid()
      modifies this`readPos, this`writePos, buffer
      ensures Valid() && Contents() == old(Contents())
      ensures buffer != null && storedSize < maxPacketSize ==>
                Min(capacity - writePos, capacity - storedSize) >= maxPacketSize
      ensures storedSize > 0 && (readPos + storedSize > capacity || capacity - old(writePos) >= maxPacketSize) ==>
                readPos == old(readPos) && writePos == old(writePos)
    {
      if buffer == null {
        return;
      }
      if storedSize == 0 {
        readPos := 0;
        writePos := 0;
        return;
      }
      if readPos + storedSize > capacity {
        return;
      }
      if capacity - writePos >= maxPacketSize {
        return;
      }
      Compact();
    }

    method Compact()
      requires Valid() && buffer != null && 0 < storedSize && readPos + storedSize < capacity
      modifies this`readPos, this`writePos, buffer
      ensures Valid() && Contents() == old(Contents())
      ensures readPos == 0 && writePos == storedSize
    {
      forall i | 0 <= i < storedSize {
        buffer[i] := buffer[readPos + i];
      }
      readPos := 0;
      writePos := storedSize;
    }

    // The first n bytes, in memory of their own.
    method CopyOut(n: nat) returns (packet: array<Byte>)
      requires Valid() && buffer != null && n <= storedSize
      ensures fresh(packet) && packet[..] == Contents()[..n]
    {
      hide And, IsPowerOfTwo;
      packet := new Byte[n];
      var remainFirst := capacity - readPos;
      if n <= remainFirst {
        forall i | 0 <= i < n {
          packet[i] := buffer[readPos + i];
        }
      } else {
        forall i | 0 <= i < remainFirst {
          packet[i] := buffer[readPos + i];
        }
        forall i | 0 <= i < n - remainFirst {
          packet[remainFirst + i] := buffer[i];
        }
      }
      assert packet[..] == Around(buffer[..], readPos, n);
      AroundSplits(buffer[..], readPos, storedSize, n);
    }

    method Consume(n: nat)
      requires Valid() && buffer != null && n <= storedSize
      modifies this`readPos, this`storedSize
      ensures Valid() && Contents() == old(Contents())[n..]
    {
      hide And, IsPowerOfTwo;
      AroundSplits(buffer[..], readPos, storedSize, n);
      MaskWraps(readPos + n, capacity);
      readPos := And(readPos + n, capacityMask);
      storedSize := storedSize - n;
    }

    // One packet from the front, exactly as the byte sequence would be cut; nothing moves unless a
    // packet is handed out.  granted: whether the packet pool has a block.
    method ReadPacket(granted: bool) returns (r: PacketReadResult, packet: array?<Byte>, size: nat, id: nat)
      requires Valid()
      modifies this`readPos, this`storedSize
      ensures Valid()
      ensures ParseOne(old(Contents()), maxPacketSize).NeedMoreData? ==> r == NeedMore
      ensures ParseOne(old(Contents()), maxPacketSize).Invalid? ==> r == Bad
      ensures ParseOne(old(Contents()), maxPacketSize).Whole? ==> r == if pooled && granted then Ok else OutOfMemory
      ensures r == Ok ==> packet != null && fresh(packet) && size == packet.Length >= HEADER_SIZE && id == IdOf(packet[..])
      ensures r == Ok ==> ParseOne(old(Contents()), maxPacketSize) == Whole(packet[..], Contents())
      ensures r != Ok ==> packet == null && Contents() == old(Contents())
      // so a packet written behind its header comes out with its own size, id and bytes
      ensures forall i, body, rest :: Carries(old(Contents()), i, body, rest) && HEADER_SIZE + |body| <= maxPacketSize ==>
                if !pooled || !granted then r == OutOfMemory
                else r == Ok && size == HEADER_SIZE + |body| && id == i && packet[..] == Header(i, size) + body && Contents() == rest
      ensures r == Ok ==> Carries(old(Contents()), id, packet[HEADER_SIZE..], Contents())
    {
      hide And, IsPowerOfTwo, Around, Wrap;
      forall i, body, rest | Carries(Contents(), i, body, rest)
        ensures ParseOne(Contents(), maxPacketSize)
             == if HEADER_SIZE + |body| <= maxPacketSize then Whole(Header(i, HEADER_SIZE + |body|) + body, rest) else Invalid
        ensures IdOf(Header(i, HEADER_SIZE + |body|) + body) == i
      {
        CarriedIsParsed(Contents(), maxPacketSize, i, body, rest);
      }
      size, id, packet := 0, 0, null;
      var peeked, header := PeekHeader();
      if !peeked {
        return NeedMore, null, 0, 0;
      }
      assert SizeOf(header) == SizeOf(Contents());
      if SizeOf(header) < HEADER_SIZE || SizeOf(header) > maxPacketSize {
        return Bad, null, 0, 0;
      }
      if storedSize < SizeOf(header) {
        return NeedMore, null, 0, 0;
      }
      if !pooled || !granted {
        return OutOfMemory, null, 0, 0;
      }
      size := SizeOf(header);
      packet := CopyOut(size);
      assert packet[..][..HEADER_SIZE] == header;
      Consume(size);
      return Ok, packet, size, IdOf(header);
    }
  }
}
