/**
 The receive path from bytes to jobs: the receive and job path protocol with the ring's bytes beside it.
 A completion brings bytes that fit the ring, a handler submits what parsing the bytes yields, and it
 stops when they hold no whole packet.  A bad header ends the session, which is not part of this
 protocol: the handler that met one makes no further step.
 */
module ReceivePipeline {
  import opened Tally
  import opened Wire
  import opened Framing
  import BP = BackpressureProtocol
  import Inv = BackpressureInvariants
  import Bound = BackpressureBound

  // recvRingSize, maxRecvPacketSize and the two levels of SessionBufferConfig.
  datatype Limits = Limits(ringSize: nat, maxPacketSize: nat, pause: nat, resume: nat)

  // received: all bytes that completed in this lease; held: those of them still in the ring.
  datatype State = State(bp: BP.State, received: seq<Byte>, held: seq<Byte>)

  // bytes: what a completion brings, and nothing for every other action.
  datatype Action = Action(act: BP.Action, bytes: seq<Byte>)

  function ConfigOf(l: Limits): BP.Config
  {
    BP.Config(l.pause, l.resume, l.ringSize / HEADER_SIZE)
  }

  ghost predicate Enabled(l: Limits, s: State, a: Action)
  {
    && BP.Enabled(ConfigOf(l), s.bp, a.act) && !BP.PushFails(s.bp, a.act)
    && match a.act
       case Complete(_) => a.bytes != [] && |s.held| + |a.bytes| <= l.ringSize
       case Submit(_, job) =>
         && a.bytes == [] && ParseOne(s.held, l.maxPacketSize).Whole? && job == ParseOne(s.held, l.maxPacketSize).packet
       case StopParsing(_) => a.bytes == [] && ParseOne(s.held, l.maxPacketSize).NeedMoreData?
       case _ => a.bytes == []
  }

  ghost function Next(l: Limits, s: State, a: Action): State
    requires Enabled(l, s, a)
  {
    State(BP.Next(ConfigOf(l), s.bp, a.act), s.received + a.bytes,
          if a.act.Submit? then ParseOne(s.held, l.maxPacketSize).rest else s.held + a.bytes)
  }

  ghost predicate Initial(s: State)
  {
    BP.Initial(s.bp) && s.received == [] && s.held == []
  }

  ghost predicate Runs(l: Limits, s: State, schedule: seq<Action>)
    decreases |schedule|
  {
    schedule == [] || (Enabled(l, s, schedule[0]) && Runs(l, Next(l, s, schedule[0]), schedule[1..]))
  }

  ghost function After(l: Limits, s: State, schedule: seq<Action>): State
    requires Runs(l, s, schedule)
    decreases |schedule|
  {
    if schedule == [] then s else After(l, Next(l, s, schedule[0]), schedule[1..])
  }

  // --- The run of the protocol underneath -------------------------------------------------------------

  function Acts(schedule: seq<Action>): (acts: seq<BP.Action>)
    ensures |acts| == |schedule|
  {
    seq(|schedule|, i requires 0 <= i < |schedule| => schedule[i].act)
  }

  lemma {:induction false} RunsUnderneath(l: Limits, s: State, schedule: seq<Action>)
    requires Runs(l, s, schedule)
    ensures BP.Runs(ConfigOf(l), s.bp, Acts(schedule))
    ensures After(l, s, schedule).bp == BP.After(ConfigOf(l), s.bp, Acts(schedule))
    decreases |schedule|
  {
    if schedule != [] {
      assert Acts(schedule)[1..] == Acts(schedule[1..]);
      RunsUnderneath(l, Next(l, s, schedule[0]), schedule[1..]);
    }
  }

  // --- What every step keeps --------------------------------------------------------------------------

  // Packets a handler may still submit; every other thread submits none.
  predicate Parsing(pc: BP.IoPc)
  {
    pc.Parse? || pc.Schedule? || pc.Announce? || pc.Withdraw?
  }

  // The bytes received are the submitted packets and what the ring holds; a handler's budget covers
  // the packets the ring holds; and without a handler the ring holds no whole packet and no bad header.
  ghost predicate Sound(l: Limits, s: State)
  {
    && Inv.Serial(s.bp) && AllFramed(s.bp.log.submitted, l.maxPacketSize)
    && s.received == Stream(s.bp.log.submitted) + s.held
    && (forall t :: 0 <= t < |s.bp.io| && Parsing(s.bp.io[t]) ==>
          |Deliver(s.held, l.maxPacketSize).packets| <= s.bp.io[t].left)
    && ((forall t :: 0 <= t < |s.bp.io| ==> !Parsing(s.bp.io[t])) ==> ParseOne(s.held, l.maxPacketSize).NeedMoreData?)
  }

  // While the receive is posted nobody parses; while one thread parses no other does.
  lemma ReceiverIsAlone(s: BP.State)
    requires Inv.Serial(s)
    ensures s.m.posted ==> forall t :: 0 <= t < |s.io| ==> !Parsing(s.io[t])
    ensures forall t, u :: 0 <= t < u < |s.io| ==> !(Parsing(s.io[t]) && Parsing(s.io[u]))
  {
    forall t | 0 <= t < |s.io| && s.m.posted ensures !Parsing(s.io[t]) {
      AtLeast(s.io, t, Inv.IoReceives);
    }
    forall t, u | 0 <= t < u < |s.io| ensures !(Parsing(s.io[t]) && Parsing(s.io[u])) {
      AtLeastTwo(s.io, t, u, Inv.IoReceives);
    }
  }

  lemma SubmitKeepsBooks(l: Limits, s: State, job: BP.Job)
    requires ParseOne(s.held, l.maxPacketSize).Whole? && job == ParseOne(s.held, l.maxPacketSize).packet
    requires s.received == Stream(s.bp.log.submitted) + s.held && AllFramed(s.bp.log.submitted, l.maxPacketSize)
    ensures AllFramed(s.bp.log.submitted + [job], l.maxPacketSize)
    ensures s.received == Stream(s.bp.log.submitted + [job]) + ParseOne(s.held, l.maxPacketSize).rest
    ensures |Deliver(s.held, l.maxPacketSize).packets| == 1 + |Deliver(ParseOne(s.held, l.maxPacketSize).rest, l.maxPacketSize).packets|
  {
    StreamAppends(s.bp.log.submitted, [job]);
    StreamOne(job);
    assert s.held == job + ParseOne(s.held, l.maxPacketSize).rest;
  }

  // Where the parsing threads go.
  lemma ParsersMove(l: Limits, s: State, a: Action)
    requires Enabled(l, s, a)
    ensures var r := Next(l, s, a);
            && |r.bp.io| == |s.bp.io|
            && (a.act.Submit? ==> r.bp.log.submitted == s.bp.log.submitted + [a.act.job] && s.bp.io[a.act.t].Parse?
                                  && r.bp.io == s.bp.io[a.act.t := BP.Schedule(s.bp.io[a.act.t].left - 1)])
            && (!a.act.Submit? ==> r.bp.log.submitted == s.bp.log.submitted)
            && (a.act.Complete? ==> s.bp.m.posted && r.bp.io == s.bp.io[a.act.t := BP.Parse(ConfigOf(l).batch)])
            && (a.act.StopParsing? ==> r.bp.io == s.bp.io[a.act.t := BP.ReadDepth])
            && (a.act.Io? ==> forall t :: 0 <= t < |s.bp.io| ==>
                  Parsing(r.bp.io[t]) == Parsing(s.bp.io[t]) && (Parsing(s.bp.io[t]) ==> r.bp.io[t].left == s.bp.io[t].left))
            && (a.act.Pop? || a.act.Wk? ==> r.bp.io == s.bp.io)
  {
  }

  lemma NextIsSound(l: Limits, s: State, a: Action)
    requires Sound(l, s) && Enabled(l, s, a)
    ensures Sound(l, Next(l, s, a))
  {
    hide Inv.Serial, Next, Stream, Deliver, ParseOne;
    var r := Next(l, s, a);
    Inv.NextIsSerial(ConfigOf(l), s.bp, a.act);
    ReceiverIsAlone(s.bp);
    ParsersMove(l, s, a);
    NextFields(l, s, a);
    match a.act {
      case Submit(t, job) =>
        SubmitKeepsBooks(l, s, job);
        assert Parsing(r.bp.io[t]);
      case Complete(t) =>
        HandlerFitsBatch(s.held + a.bytes, l.maxPacketSize, l.ringSize);
        assert Parsing(r.bp.io[t]);
      case StopParsing(t) =>
      case Io(t, _) =>
        assert Parsing(r.bp.io[t]) == Parsing(s.bp.io[t]);
      case _ =>
    }
  }

  // A quarter of the ring is a handler's batch: the ring never holds more four-byte headers.
  lemma HandlerFitsBatch(stream: seq<Byte>, max: nat, ringSize: nat)
    requires |stream| <= ringSize
    ensures |Deliver(stream, max).packets| <= ringSize / HEADER_SIZE
  {
    FewPackets(stream, max);
  }

  lemma NextFields(l: Limits, s: State, a: Action)
    requires Enabled(l, s, a) && s.received == Stream(s.bp.log.submitted) + s.held
    ensures var r := Next(l, s, a);
            && r.bp == BP.Next(ConfigOf(l), s.bp, a.act)
            && (a.act.Submit? ==> r.received == s.received && r.held == ParseOne(s.held, l.maxPacketSize).rest)
            && (a.act.Complete? ==> r.received == Stream(s.bp.log.submitted) + r.held && r.held == s.held + a.bytes)
            && (!a.act.Submit? && !a.act.Complete? ==> r.received == s.received && r.held == s.held)
  {
  }

  lemma InitialIsSound(l: Limits, s: State)
    requires Initial(s)
    ensures Sound(l, s)
  {
    Inv.InitialIsSerial(ConfigOf(l), s.bp);
  }

  lemma {:induction false} RunIsSound(l: Limits, s: State, schedule: seq<Action>)
    requires Sound(l, s) && Runs(l, s, schedule)
    ensures Sound(l, After(l, s, schedule))
    decreases |schedule|
  {
    hide Sound, Enabled, Next;
    if schedule != [] {
      NextIsSound(l, s, schedule[0]);
      RunIsSound(l, Next(l, s, schedule[0]), schedule[1..]);
    }
  }

  // --- Theorems -----------------------------------------------------------------------------------------

  // A handler's budget never runs out before the ring's packets do: whenever the ring holds a whole
  // packet, the handler may submit it.
  lemma BudgetSuffices(l: Limits, s0: State, schedule: seq<Action>, t: nat)
    requires Initial(s0) && Runs(l, s0, schedule)
    requires t < |After(l, s0, schedule).bp.io| && After(l, s0, schedule).bp.io[t].Parse?
    requires ParseOne(After(l, s0, schedule).held, l.maxPacketSize).Whole?
    ensures var s := After(l, s0, schedule);
            Enabled(l, s, Action(BP.Submit(t, ParseOne(s.held, l.maxPacketSize).packet), []))
  {
    InitialIsSound(l, s0);
    RunIsSound(l, s0, schedule);
    var s := After(l, s0, schedule);
    assert Parsing(s.bp.io[t]);
  }

  // Jobs run in the order of the stream: those executed are the first packets of the bytes received,
  // and once everybody is at rest they are all of them.
  lemma JobsFollowStream(l: Limits, s0: State, schedule: seq<Action>)
    requires Initial(s0) && Runs(l, s0, schedule)
    ensures var s := After(l, s0, schedule);
            && s.bp.log.executed <= s.bp.log.submitted <= Deliver(s.received, l.maxPacketSize).packets
            && (Inv.Quiescent(s.bp) ==>
                  s.bp.log.executed == Deliver(s.received, l.maxPacketSize).packets && !Deliver(s.received, l.maxPacketSize).bad)
  {
    hide Inv.Serial, Initial, Runs, After, Deliver, Stream, ParseOne;
    var s := After(l, s0, schedule);
    InitialIsSound(l, s0);
    RunIsSound(l, s0, schedule);
    Inv.ExecutedIsPrefix(s.bp);
    SubmittedAreDelivered(s.bp.log.submitted, s.held, l.maxPacketSize);
    if Inv.Quiescent(s.bp) {
      RunsUnderneath(l, s0, schedule);
      assert BP.Initial(s0.bp) by { InitialUnderneath(s0); }
      Inv.NothingIsStranded(ConfigOf(l), s0.bp, Acts(schedule));
      NothingWhole(s.held, l.maxPacketSize);
    }
  }

  lemma InitialUnderneath(s0: State)
    requires Initial(s0)
    ensures BP.Initial(s0.bp)
  {
  }

  lemma NothingWhole(held: seq<Byte>, max: nat)
    requires ParseOne(held, max).NeedMoreData?
    ensures Deliver(held, max) == Delivery([], held, false)
  {
  }

  lemma SubmittedAreDelivered(packets: seq<Packet>, held: seq<Byte>, max: nat)
    requires AllFramed(packets, max)
    ensures Deliver(Stream(packets) + held, max).packets == packets + Deliver(held, max).packets
    ensures Deliver(Stream(packets) + held, max).bad == Deliver(held, max).bad
  {
    FramedRoundTrip(packets, max);
    DeliverContinues(Stream(packets), held, max);
    assert [] + held == held;
  }

  // The backlog of this path, in the configuration's own terms.
  lemma BacklogInBytes(l: Limits, s0: State, schedule: seq<Action>)
    requires l.resume < l.pause && Initial(s0) && |s0.bp.io| > 0 && Runs(l, s0, schedule)
    ensures |After(l, s0, schedule).bp.m.jobs|
         <= l.pause - 1 + l.ringSize / HEADER_SIZE * (|s0.bp.io| + |s0.bp.wk|)
  {
    hide BP.Runs, BP.After, BP.Initial;
    RunsUnderneath(l, s0, schedule);
    Bound.BacklogIsBounded(ConfigOf(l), s0.bp, Acts(schedule));
  }
}
