/**
 Two ends of a connection together: what one session's send path puts on the wire is what the other
 side takes off it, as packets and as jobs.
 */
module Connection {
  import opened Wire
  import opened Framing
  import Send = SendPathProtocol
  import SendInv = SendPathInvariants
  import Receive = ReceivePipeline
  import ReceiveInv = BackpressureInvariants

  lemma StepAccepts(c: Send.Limits, s: Send.State, a: Send.Action)
    requires Send.Enabled(s, a) && AllFramed(s.log.accepted, c.maxPacketSize)
    ensures AllFramed(Send.Next(c, s, a).log.accepted, c.maxPacketSize)
  {
    hide Framed;
  }

  lemma {:induction false} AcceptedAreFramed(c: Send.Limits, s: Send.State, schedule: seq<Send.Action>)
    requires Send.Runs(c, s, schedule) && AllFramed(s.log.accepted, c.maxPacketSize)
    ensures AllFramed(Send.After(c, s, schedule).log.accepted, c.maxPacketSize)
    decreases |schedule|
  {
    hide AllFramed, Send.Next, Send.Enabled;
    if schedule != [] {
      StepAccepts(c, s, schedule[0]);
      AcceptedAreFramed(c, Send.Next(c, s, schedule[0]), schedule[1..]);
    }
  }

  // Over every interleaving of senders, completions and a cancel, up to the first failed send, a
  // receiver that takes packets as large as the sender makes them never sees a bad header; it is
  // delivered a prefix of the accepted packets, in PushBack order, whatever pieces the bytes come in.
  lemma ReceiverSeesAccepted(c: Send.Limits, s0: Send.State, schedule: seq<Send.Action>, pieces: seq<seq<Byte>>, max: nat)
    requires Send.Initial(s0) && Send.Runs(c, s0, schedule) && c.maxPacketSize <= max
    requires Send.After(c, s0, schedule).log.failures == 0
    requires Stream(pieces) == Send.After(c, s0, schedule).log.wire
    ensures var s := Send.After(c, s0, schedule);
            var fed := Feed([], pieces, max);
            !fed.bad && fed.packets <= s.log.accepted
    ensures var s := Send.After(c, s0, schedule);
            SendInv.Quiet(s) && !s.m.cancelIo ==> Feed([], pieces, max) == Delivery(s.log.accepted, [], false)
  {
    hide Feed, Deliver, Stream, ParseOne, Send.Runs, Send.After, Send.Initial, SendInv.Quiet;
    var s := Send.After(c, s0, schedule);
    SendInv.WireFollowsQueue(c, s0, schedule);
    StartsEmpty(s0);
    AcceptedAreFramed(c, s0, schedule);
    WiderFrames(s.log.accepted, c.maxPacketSize, max);
    PrefixDelivers(s.log.wire, s.log.accepted, max);
    EmptyNeedsMore(max);
    PiecesDoNotMatter([], pieces, max);
    assert [] + Stream(pieces) == s.log.wire;
    if SendInv.Quiet(s) && !s.m.cancelIo {
      SendInv.NothingIsStranded(c, s0, schedule);
      FramedRoundTrip(s.log.accepted, max);
    }
  }

  lemma StartsEmpty(s0: Send.State)
    requires Send.Initial(s0)
    ensures s0.log.accepted == []
  {
  }

  lemma EmptyNeedsMore(max: nat)
    ensures ParseOne([], max).NeedMoreData?
  {
  }

  lemma WiderFrames(packets: seq<Packet>, narrow: nat, wide: nat)
    requires AllFramed(packets, narrow) && narrow <= wide
    ensures AllFramed(packets, wide)
  {
  }

  // From one service to the other: as long as no send has failed, the jobs a receiver has run are the
  // first of the packets the sender's queue accepted, in that order; once the sender has sent everything,
  // the receiver has received it and both are at rest, they are all of them.
  lemma JobsFollowSends(c: Send.Limits, s0: Send.State, sends: seq<Send.Action>,
                        l: Receive.Limits, r0: Receive.State, receives: seq<Receive.Action>)
    requires Send.Initial(s0) && Send.Runs(c, s0, sends) && Send.After(c, s0, sends).log.failures == 0
    requires Receive.Initial(r0) && Receive.Runs(l, r0, receives) && c.maxPacketSize <= l.maxPacketSize
    requires Receive.After(l, r0, receives).received <= Send.After(c, s0, sends).log.wire
    ensures var s, r := Send.After(c, s0, sends), Receive.After(l, r0, receives);
            && r.bp.log.executed <= s.log.accepted
            && (SendInv.Quiet(s) && !s.m.cancelIo && ReceiveInv.Quiescent(r.bp) && r.received == s.log.wire ==>
                  r.bp.log.executed == s.log.accepted)
  {
    hide Deliver, Stream, ParseOne, Send.Runs, Send.After, Send.Initial, SendInv.Quiet,
         Receive.Runs, Receive.After, Receive.Initial, ReceiveInv.Quiescent;
    var s, r := Send.After(c, s0, sends), Receive.After(l, r0, receives);
    SendInv.WireFollowsQueue(c, s0, sends);
    StartsEmpty(s0);
    AcceptedAreFramed(c, s0, sends);
    WiderFrames(s.log.accepted, c.maxPacketSize, l.maxPacketSize);
    PrefixDelivers(r.received, s.log.accepted, l.maxPacketSize);
    Receive.JobsFollowStream(l, r0, receives);
    if SendInv.Quiet(s) && !s.m.cancelIo && r.received == s.log.wire {
      SendInv.NothingIsStranded(c, s0, sends);
      FramedRoundTrip(s.log.accepted, l.maxPacketSize);
    }
  }
}
