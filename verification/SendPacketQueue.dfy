/**
 The send queue's linked list of entries and the reference count of a packet many queues share: who
 gets what back, and how often.
 */
module SendPacketQueue {
  import opened Tally

  // SharedSendPacket; the ghost fields count what went back to the pools.
  class SharedSendPacket {
    var refCount: int
    var packet: nat            // the packet it stands for; 0 once returned
    ghost var packetReturned: nat
    ghost var selfReturned: nat

    // Create: the one reference is the distributor's.
    constructor (packet: nat)
      requires packet != 0
      ensures refCount == 1 && this.packet == packet && packetReturned == 0 && selfReturned == 0
    {
      refCount, this.packet, packetReturned, selfReturned := 1, packet, 0, 0;
    }

    ghost predicate Held()
      reads this
    {
      refCount > 0 && packet != 0 && packetReturned == 0 && selfReturned == 0
    }

    method AddRef()
      requires Held()
      modifies this`refCount
      ensures Held() && refCount == old(refCount) + 1
    {
      refCount := refCount + 1;
    }

    // Gives one reference back; the last one returns the packet, then the header, once each.
    method Release()
      requires Held()
      modifies this
      ensures refCount == old(refCount) - 1
      ensures refCount > 0 ==> Held() && packet == old(packet)
      ensures refCount == 0 ==> packet == 0 && packetReturned == 1 && selfReturned == 1
    {
      refCount := refCount - 1;
      if refCount != 0 {
        return;
      }
      if packet != 0 {
        packetReturned := packetReturned + 1;
      }
      packet := 0;
      selfReturned := selfReturned + 1;
    }
  }

  // SendPacketEntry: shared is set where the release callback is.
  class SendPacketEntry {
    var next: SendPacketEntry?
    var packetData: nat
    var packetSize: nat
    var shared: SharedSendPacket?

    constructor ()
      ensures next == null && packetData == 0 && packetSize == 0 && shared == null
    {
      next, packetData, packetSize, shared := null, 0, 0, null;
    }

    // ReleaseEntry: packet or callback, then the entry is wiped and returned.
    method Wipe()
      modifies this
      ensures next == null && packetData == 0
    {
      packetData, packetSize, shared, next := 0, 0, null, null;
    }
  }

  function Follower(entries: seq<SendPacketEntry>, i: nat): SendPacketEntry?
  {
    if i + 1 < |entries| then entries[i + 1] else null
  }

  ghost predicate Linked(entries: seq<SendPacketEntry>)
    reads entries
  {
    forall i :: 0 <= i < |entries| ==> entries[i].next == Follower(entries, i)
  }

  twostate predicate KeepTheirPackets(entries: seq<SendPacketEntry>)
    reads entries
  {
    forall e :: e in entries ==> e.packetData == old(e.packetData) && e.packetSize == old(e.packetSize) && e.shared == old(e.shared)
  }

  const PACKET_SIZE_LIMIT := 65535

  class SendPacketQueue {
    var head: SendPacketEntry?
    var tail: SendPacketEntry?
    var count: nat
    const maxCount: nat
    // The entries waiting, oldest first.
    ghost var entries: seq<SendPacketEntry>

    ghost predicate Valid()
      reads this, entries
    {
      && Linked(entries) && Distinct(entries) && count == |entries| <= maxCount
      && head == (if entries == [] then null else entries[0])
      && tail == (if entries == [] then null else entries[|entries| - 1])
    }

    constructor (maxCount: nat)
      requires maxCount > 0
      ensures Valid() && entries == [] && this.maxCount == maxCount
    {
      head, tail, count, entries, this.maxCount := null, null, 0, [], maxCount;
    }

    method PushBack(entry: SendPacketEntry) returns (ok: bool)
      requires Valid() && entry !in entries
      modifies this, entries, entry`next
      ensures Valid() && ok == (|old(entries)| < maxCount)
      ensures entries == if ok then old(entries) + [entry] else old(entries)
      ensures KeepTheirPackets(old(entries))
    {
      entry.next := null;
      if count >= maxCount {
        return false;
      }
      if tail != null {
        tail.next := entry;
      } else {
        head := entry;
      }
      tail := entry;
      count := count + 1;
      entries := entries + [entry];
      return true;
    }

    // Enqueue a packet of this session: given says whether the entry pool had one.  The packet becomes
    // the queue's exactly when the call succeeds.
    method Enqueue(packetData: nat, packetSize: nat, given: bool) returns (ok: bool, kept: nat)
      requires Valid()
      modifies this, entries
      ensures Valid()
      ensures ok <==> packetData != 0 && 0 < packetSize <= PACKET_SIZE_LIMIT && given && |old(entries)| < maxCount
      ensures kept == if ok then 0 else packetData
      ensures !ok ==> entries == old(entries)
      ensures ok ==> |entries| == |old(entries)| + 1 && entries[..|old(entries)|] == old(entries)
                     && entries[|old(entries)|].packetData == packetData && entries[|old(entries)|].packetSize == packetSize
                     && entries[|old(entries)|].shared == null && fresh(entries[|old(entries)|])
      ensures KeepTheirPackets(old(entries))
    {
      if packetData == 0 || packetSize == 0 || packetSize > PACKET_SIZE_LIMIT {
        return false, packetData;
      }
      if !given {
        return false, packetData;
      }
      var entry := new SendPacketEntry();
      entry.packetData, entry.packetSize, entry.shared := packetData, packetSize, null;
      var pushed := PushBack(entry);
      if !pushed {
        return false, packetData;
      }
      return true, 0;
    }

    method Dequeue() returns (ok: bool, entry: SendPacketEntry?)
      requires Valid()
      modifies this, entries
      ensures Valid() && ok == (old(entries) != [])
      ensures ok ==> entry == old(entries)[0] && entries == old(entries)[1..] && entry.next == null
      ensures !ok ==> entry == null && entries == []
      ensures KeepTheirPackets(old(entries))
    {
      entry := head;
      if entry == null {
        return false, null;
      }
      ghost var was := entries;
      assert was[0].next == Follower(was, 0);
      head := entry.next;
      if head == null {
        tail := null;
      }
      count := count - 1;
      entries := entries[1..];
      entry.next := null;
      forall i | 0 <= i < |entries| ensures entries[i].next == Follower(entries, i) {
        assert entries[i] == was[i + 1];
      }
      return true, entry;
    }

    // Detaches the whole list at once and walks it, each entry released once, oldest first.
    method Reset() returns (released: seq<SendPacketEntry>)
      requires Valid()
      modifies this, entries
      ensures Valid() && entries == [] && released == old(entries)
      ensures forall e :: e in released ==> e.packetData == 0 && e.next == null
    {
      ghost var all := entries;
      var chain := head;
      head, tail, count := null, null, 0;
      entries := [];
      released := [];
      ghost var i := 0;
      assert forall k :: 0 <= k < |all| ==> all[k].next == Follower(all, k);
      while chain != null
        invariant 0 <= i <= |all| && released == all[..i] && all == old(entries) && Distinct(all)
        invariant chain == (if i < |all| then all[i] else null)
        invariant forall k :: i <= k < |all| ==> all[k].next == Follower(all, k)
        invariant forall k :: 0 <= k < i ==> all[k].packetData == 0 && all[k].next == null
        modifies all
        decreases |all| - i
      {
        assert all[i].next == Follower(all, i);
        var next := chain.next;
        chain.Wipe();
        released := released + [chain];
        chain := next;
        i := i + 1;
      }
    }
  }
}
