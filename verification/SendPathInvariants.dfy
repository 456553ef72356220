/**
 What every step of the send path keeps, and what follows: one WSASend at a time, the wire carries
 the accepted packets in PushBack order, and no packet is left behind while sends succeed.
 */
module SendPathInvariants {
  import opened Tally
  import opened Wire
  import opened SendPathProtocol

  // Holding the right that m_sending == 1 stands for.
  function Owns(pc: Pc): nat { One(!pc.Idle? && !pc.Claim? && !pc.Recheck?) }

  // On the way to looking at the queue for a packet somebody enqueued.
  function Looks(pc: Pc): nat { One(pc.Claim? || pc.Recheck?) }

  // Bytes that completed but are not in m_sendOffset yet.
  function Landed(pc: Pc): nat { if pc.Completed? then pc.n else 0 }

  datatype Sums = Sums(owns: nat, looks: nat, landed: nat)

  function SumsOf(threads: seq<Pc>): Sums
  {
    Sums(Total(threads, Owns), Total(threads, Looks), Total(threads, Landed))
  }

  function SentOf(f: Fate): seq<Byte>
  {
    if f.sent <= |f.packet| then f.packet[..f.sent] else f.packet
  }

  function Packets(fates: seq<Fate>): (packets: seq<Packet>)
    ensures |packets| == |fates|
  {
    seq(|fates|, i requires 0 <= i < |fates| => fates[i].packet)
  }

  function SentBytes(fates: seq<Fate>): seq<Byte>
  {
    if fates == [] then [] else SentBytes(fates[..|fates| - 1]) + SentOf(fates[|fates| - 1])
  }

  function InHand(current: Option<Packet>): seq<Packet>
  {
    if current.Some? then [current.value] else []
  }

  // The part of the packet in hand that is on the wire.
  function Begun(current: Option<Packet>, sent: nat): seq<Byte>
  {
    if current.Some? then SentOf(Fate(current.value, sent)) else []
  }

  ghost predicate Whole(fates: seq<Fate>)
  {
    forall i :: 0 <= i < |fates| ==> fates[i].sent == |fates[i].packet|
  }

  // The packet in hand has bytes left.
  ghost predicate Unfinished(m: Shared)
  {
    m.current.Some? && m.offset < |m.current.value|
  }

  // What the program counter says about the packet in hand.
  ghost predicate Fits(m: Shared, log: Log, pc: Pc)
  {
    match pc
    case Take => m.current.None? && m.offset == 0
    case Give => m.current.None? && m.offset == 0
    case LetGo(again) => m.current.None? && m.offset == 0 && (!again ==> log.failures > 0 || m.cancelIo)
    case Prepare => Unfinished(m) && (log.cut ==> m.offset == 0)
    case Begin => Unfinished(m) && m.overlapped == m.current.value[m.offset..] && (log.cut ==> m.offset == 0 && m.cancelIo)
    case Post => Unfinished(m) && m.overlapped == m.current.value[m.offset..] && !log.cut
    case Completed(n) => Unfinished(m) && 0 < n <= |m.current.value| - m.offset && !log.cut
    case _ => true
  }

  ghost predicate AllFit(m: Shared, log: Log, threads: seq<Pc>)
  {
    forall t :: 0 <= t < |threads| ==> Fits(m, log, threads[t])
  }

  // One right to send: with a thread, with the posted send, or stuck.
  ghost predicate OneRight(m: Shared, owns: nat)
  {
    && owns + m.posted + m.stuck == One(m.sending)
    && (!m.sending ==> m.current.None? && m.offset == 0)
    && (m.posted > 0 ==> Unfinished(m) && m.overlapped == m.current.value[m.offset..])
  }

  // Every accepted packet is released, in hand or queued, in PushBack order; the wire is what the
  // released ones sent and what the one in hand has sent so far.
  ghost predicate Books(m: Shared, log: Log, landed: nat)
  {
    && log.accepted == Packets(log.fates) + InHand(m.current) + m.queue
    && log.wire == SentBytes(log.fates) + Begun(m.current, m.offset + landed)
  }

  // Without a failed send the wire is a prefix of the stream, cancelled or not; without a cancel
  // either, every released packet went out whole.
  ghost predicate InStream(m: Shared, log: Log)
  {
    && (log.cut ==> m.cancelIo && m.posted == 0 && m.offset == 0)
    && (log.failures == 0 && !log.cut ==> Whole(log.fates))
    && (log.failures == 0 ==> log.wire <= Stream(log.accepted))
    && (log.failures == 0 && !m.cancelIo ==> m.stuck == 0)
  }

  // A packet waits only while somebody is on the way to the queue.
  ghost predicate Awake(m: Shared, log: Log, looks: nat)
  {
    log.failures == 0 && !m.cancelIo && m.queue != [] && !m.sending ==> looks > 0
  }

  ghost predicate NoEmptyPackets(m: Shared)
  {
    forall i :: 0 <= i < |m.queue| ==> m.queue[i] != []
  }

  ghost predicate Sound(s: State)
  {
    var z := SumsOf(s.threads);
    && OneRight(s.m, z.owns) && AllFit(s.m, s.log, s.threads) && Books(s.m, s.log, z.landed)
    && InStream(s.m, s.log) && Awake(s.m, s.log, z.looks) && NoEmptyPackets(s.m)
  }

  // --- Streams -------------------------------------------------------------------------------

  lemma {:induction false} WholeIsStream(fates: seq<Fate>)
    requires Whole(fates)
    ensures SentBytes(fates) == Stream(Packets(fates))
  {
    if fates != [] {
      var init := fates[..|fates| - 1];
      WholeIsStream(init);
      assert Packets(fates)[..|fates| - 1] == Packets(init);
    }
  }

  lemma PacketsAppend(fates: seq<Fate>, f: Fate)
    ensures Packets(fates + [f]) == Packets(fates) + [f.packet]
    ensures SentBytes(fates + [f]) == SentBytes(fates) + SentOf(f)
  {
    assert (fates + [f])[..|fates|] == fates;
  }

  // With whole packets behind it, the wire is a prefix of the stream.
  lemma WholeIsInStream(m: Shared, log: Log, landed: nat)
    requires Books(m, log, landed) && Whole(log.fates)
    ensures log.wire <= Stream(log.accepted)
    ensures m.current.None? && m.queue == [] ==> log.wire == Stream(log.accepted)
  {
    var done := Packets(log.fates);
    WholeIsStream(log.fates);
    StreamAppends(done + InHand(m.current), m.queue);
    StreamAppends(done, InHand(m.current));
    if m.current.Some? {
      StreamOne(m.current.value);
      assert Stream(log.accepted) == Stream(done) + (m.current.value + Stream(m.queue));
      assert log.wire <= Stream(done) + m.current.value;
    }
  }

  // --- The right to send ------------------------------------------------------------------------

  // While t holds the right nobody else does, nothing is posted and nothing is stuck.
  lemma OwnerIsAlone(s: State, t: nat)
    requires OneRight(s.m, Total(s.threads, Owns)) && t < |s.threads| && Owns(s.threads[t]) == 1
    ensures s.m.sending && s.m.posted == 0 && s.m.stuck == 0 && Total(s.threads, Owns) == 1
    ensures forall u :: 0 <= u < |s.threads| && u != t ==> Owns(s.threads[u]) == 0
    ensures Total(s.threads, Landed) == Landed(s.threads[t])
  {
    AtLeast(s.threads, t, Owns);
    forall u | 0 <= u < |s.threads| && u != t
      ensures Owns(s.threads[u]) == 0
    {
      if t < u { AtLeastTwo(s.threads, t, u, Owns); } else { AtLeastTwo(s.threads, u, t, Owns); }
    }
    var rest := s.threads[t := Idle];
    Update(s.threads, t, Idle, Landed);
    Zero(rest, Landed);
  }

  lemma NobodyOwns(s: State)
    requires Total(s.threads, Owns) == 0
    ensures forall u :: 0 <= u < |s.threads| ==> Owns(s.threads[u]) == 0
    ensures Total(s.threads, Landed) == 0
  {
    forall u | 0 <= u < |s.threads| ensures Owns(s.threads[u]) == 0 {
      AtLeast(s.threads, u, Owns);
    }
    Zero(s.threads, Landed);
  }

  // A thread that does not hold the right says nothing about the packet in hand.
  lemma StrangersFit(m: Shared, log: Log, pc: Pc)
    requires Owns(pc) == 0
    ensures Fits(m, log, pc) && Landed(pc) == 0
  {
  }

  lemma Moves(threads: seq<Pc>, t: nat, pc: Pc)
    requires t < |threads|
    ensures Total(threads[t := pc], Owns) + Owns(threads[t]) == Total(threads, Owns) + Owns(pc)
    ensures Total(threads[t := pc], Looks) + Looks(threads[t]) == Total(threads, Looks) + Looks(pc)
    ensures Total(threads[t := pc], Landed) + Landed(threads[t]) == Total(threads, Landed) + Landed(pc)
  {
    Update(threads, t, pc, Owns);
    Update(threads, t, pc, Looks);
    Update(threads, t, pc, Landed);
  }

  // --- What the holder of the right does ------------------------------------------------------

  // The state an owner's step is taken in, and the state it must leave.
  ghost predicate OwnerBefore(m: Shared, log: Log, pc: Pc)
  {
    && OneRight(m, 1) && Owns(pc) == 1 && Fits(m, log, pc) && Books(m, log, Landed(pc)) && InStream(m, log)
  }

  ghost predicate OwnerAfter(e: Effect)
  {
    && OneRight(e.m, Owns(e.pc)) && Fits(e.m, e.log, e.pc) && Books(e.m, e.log, Landed(e.pc)) && InStream(e.m, e.log)
    && (e.log.failures == 0 && !e.m.cancelIo && !e.m.sending ==> Looks(e.pc) == 1)
  }

  lemma TakeKeeps(m: Shared, log: Log)
    requires OwnerBefore(m, log, Take)
    requires NoEmptyPackets(m)
    ensures OwnerAfter(TakeStep(m, log))
  {
    hide Books, InStream;
    var e := TakeStep(m, log);
    TakeKeepsBooks(m, log);
    assert InStream(e.m, e.log) by { InStreamIgnores(m, e.m, log); }
  }

  lemma TakeKeepsBooks(m: Shared, log: Log)
    requires m.current.None? && m.offset == 0 && Books(m, log, 0)
    ensures Books(TakeStep(m, log).m, log, 0)
  {
    if m.queue != [] {
      assert Packets(log.fates) + InHand(Some(m.queue[0])) + m.queue[1..] == Packets(log.fates) + m.queue;
      assert Packets(log.fates) + InHand(None) + m.queue == Packets(log.fates) + m.queue;
    }
  }

  lemma InStreamIgnores(m: Shared, m': Shared, log: Log)
    requires InStream(m, log)
    requires m'.cancelIo == m.cancelIo && m'.posted == m.posted && m'.offset == m.offset && m'.stuck == m.stuck
    ensures InStream(m', log)
  {
  }

  // Releasing the packet in hand with what it has sent.
  lemma ReleaseKeepsBooks(m: Shared, log: Log, offset: nat, pc: Pc)
    requires m.current.Some? && m.offset <= offset && Books(m, log, offset - m.offset)
    ensures var e := ReleaseCurrent(m, log, offset, pc); Books(e.m, e.log, 0)
  {
    PacketsAppend(log.fates, Fate(m.current.value, offset));
    assert Packets(log.fates) + [m.current.value] + m.queue
        == Packets(log.fates + [Fate(m.current.value, offset)]) + InHand(None) + m.queue;
  }

  lemma PrepareKeeps(m: Shared, log: Log)
    requires OwnerBefore(m, log, Prepare)
    ensures OwnerAfter(PrepareStep(m, log))
  {
    hide Books, Whole;
    var ready := m.(overlapped := m.current.value[m.offset..]);
    BooksIgnoreBuffers(m, ready, log, 0);
    if m.cancelIo {
      BooksIgnoreMarks(ready, log, log.(cut := true), 0);
      ReleaseKeepsBooks(ready, log.(cut := true), m.offset, LetGo(false));
    }
  }

  // The books are about packets, not about the marks beside them.
  lemma BooksIgnoreMarks(m: Shared, log: Log, log': Log, landed: nat)
    requires Books(m, log, landed)
    requires log'.accepted == log.accepted && log'.fates == log.fates && log'.wire == log.wire
    ensures Books(m, log', landed)
  {
  }

  lemma BooksIgnoreBuffers(m: Shared, m': Shared, log: Log, landed: nat)
    requires Books(m, log, landed)
    requires m'.queue == m.queue && m'.current == m.current && m'.offset == m.offset
    ensures Books(m', log, landed)
  {
  }

  lemma PostKeeps(m: Shared, log: Log, accepted: bool)
    requires OwnerBefore(m, log, Post)
    ensures OwnerAfter(PostStep(m, log, accepted))
  {
    hide Books, Whole;
    if accepted {
      BooksIgnoreBuffers(m, m.(posted := m.posted + 1), log, 0);
    } else {
      var failed := log.(failures := log.failures + 1);
      BooksIgnoreMarks(m, log, failed, 0);
      ReleaseKeepsBooks(m, failed, m.offset, LetGo(false));
    }
  }

  lemma CompletedKeeps(m: Shared, log: Log, n: nat)
    requires OwnerBefore(m, log, Completed(n))
    ensures OwnerAfter(CompletedStep(m, log, n))
  {
    hide Stream, Whole, Books;
    if m.offset + n == |m.current.value| {
      ReleaseKeepsBooks(m, log, m.offset + n, LetGo(true));
      if log.failures == 0 { WholeAppends(log.fates, Fate(m.current.value, m.offset + n)); }
    } else {
      OffsetCatchesUp(m, log, n);
    }
  }

  lemma WholeAppends(fates: seq<Fate>, f: Fate)
    requires Whole(fates) && f.sent == |f.packet|
    ensures Whole(fates + [f])
  {
  }

  lemma OffsetCatchesUp(m: Shared, log: Log, n: nat)
    requires Books(m, log, n)
    ensures Books(m.(offset := m.offset + n), log, 0)
  {
  }

  lemma OwnerKeeps(m: Shared, log: Log, pc: Pc, choice: bool)
    requires OwnerBefore(m, log, pc) && Owns(pc) == 1
    requires NoEmptyPackets(m)
    ensures OwnerAfter(StepEffect(m, log, pc, choice))
  {
    hide OwnerBefore, OwnerAfter, TakeStep, PrepareStep, PostStep, CompletedStep;
    if pc.Take? {
      TakeKeeps(m, log);
    } else if pc.Prepare? {
      PrepareKeeps(m, log);
    } else if pc.Post? {
      PostKeeps(m, log, choice);
    } else if pc.Completed? {
      CompletedKeeps(m, log, pc.n);
    } else {
      PlainKeeps(m, log, pc, choice);
    }
  }

  lemma PlainKeeps(m: Shared, log: Log, pc: Pc, choice: bool)
    requires OwnerBefore(m, log, pc) && (pc.Give? || pc.Begin? || pc.LetGo?)
    ensures OwnerAfter(StepEffect(m, log, pc, choice))
  {
    hide Whole, Stream;
  }

  // --- Every step -----------------------------------------------------------------------------

  // Replacing an owner's row by what its step leaves.
  lemma OwnerNext(c: Limits, s: State, t: nat, choice: bool)
    requires Sound(s) && Enabled(s, Step(t, choice)) && Owns(s.threads[t]) == 1
    ensures Sound(Next(c, s, Step(t, choice)))
  {
    hide Books, InStream, Fits, StepEffect, Unfinished, NoEmptyPackets;
    var e := StepEffect(s.m, s.log, s.threads[t], choice);
    OwnerIsAlone(s, t);
    OwnerKeeps(s.m, s.log, s.threads[t], choice);
    Moves(s.threads, t, e.pc);
    QueueOnlyShrinks(s.m, s.log, s.threads[t], choice);
    var next := s.threads[t := e.pc];
    forall u | 0 <= u < |next| ensures Fits(e.m, e.log, next[u]) {
      if u != t { StrangersFit(e.m, e.log, s.threads[u]); }
    }
    WhenAwake(s.m, s.log, s.threads[t], choice, Total(s.threads, Looks));
  }

  lemma QueueOnlyShrinks(m: Shared, log: Log, pc: Pc, choice: bool)
    requires !pc.Idle? && NoEmptyPackets(m)
    ensures NoEmptyPackets(StepEffect(m, log, pc, choice).m)
  {
  }

  // Giving up the right with packets waiting: the giver looks once more itself.
  lemma WhenAwake(m: Shared, log: Log, pc: Pc, choice: bool, looks: nat)
    requires OwnerBefore(m, log, pc) && Awake(m, log, looks)
    requires OwnerAfter(StepEffect(m, log, pc, choice))
    ensures Awake(StepEffect(m, log, pc, choice).m, StepEffect(m, log, pc, choice).log, looks + Looks(StepEffect(m, log, pc, choice).pc))
  {
    hide Books, InStream, Fits, StepEffect, OneRight;
  }

  // A thread without the right: it wins it, loses the race, or looks at the queue again.
  lemma StrangerNext(c: Limits, s: State, t: nat, choice: bool)
    requires Sound(s) && Enabled(s, Step(t, choice)) && Owns(s.threads[t]) == 0
    ensures Sound(Next(c, s, Step(t, choice)))
  {
    hide Books, InStream, NoEmptyPackets, Total;
    var pc := s.threads[t];
    var e := StepEffect(s.m, s.log, pc, choice);
    Moves(s.threads, t, e.pc);
    AtLeast(s.threads, t, Looks);
    BooksIgnoreBuffers(s.m, e.m, s.log, Total(s.threads, Landed));
    InStreamIgnores(s.m, e.m, s.log);
    QueueOnlyShrinks(s.m, s.log, pc, choice);
    if pc.Claim? && !s.m.sending {
      NobodyOwns(s);
      OthersFit(s, e.m, t, Take);
    } else {
      assert e.m == s.m;
    }
  }

  // With nobody else holding the right, only t's own row has anything to say.
  lemma OthersFit(s: State, m: Shared, t: nat, pc: Pc)
    requires t < |s.threads| && Fits(m, s.log, pc)
    requires forall u :: 0 <= u < |s.threads| && u != t ==> Owns(s.threads[u]) == 0
    ensures AllFit(m, s.log, s.threads[t := pc])
  {
  }

  lemma EnqueueNext(c: Limits, s: State, t: nat, p: Packet, admitted: bool)
    requires Sound(s) && Enabled(s, Enqueue(t, p, admitted))
    ensures Sound(Next(c, s, Enqueue(t, p, admitted)))
  {
    hide Books, InStream;
    var e := EnqueueEffect(c, s.m, s.log, p, admitted);
    Moves(s.threads, t, e.pc);
    if e.pc.Claim? {
      AcceptKeepsBooks(s.m, s.log, p, Total(s.threads, Landed));
    }
  }

  lemma AcceptKeepsBooks(m: Shared, log: Log, p: Packet, landed: nat)
    requires Books(m, log, landed) && InStream(m, log)
    ensures var m', log' := m.(queue := m.queue + [p]), log.(accepted := log.accepted + [p]);
            Books(m', log', landed) && InStream(m', log')
  {
    hide Whole, Stream, SentBytes;
    StreamAppends(log.accepted, [p]);
    assert Packets(log.fates) + InHand(m.current) + (m.queue + [p])
        == Packets(log.fates) + InHand(m.current) + m.queue + [p];
  }

  lemma CompleteNext(c: Limits, s: State, t: nat, n: nat)
    requires Sound(s) && Enabled(s, Complete(t, n))
    ensures Sound(Next(c, s, Complete(t, n)))
  {
    hide Whole, Stream;
    var r := Next(c, s, Complete(t, n));
    Moves(s.threads, t, Completed(n));
    NobodyOwns(s);
    var p := s.m.current.value;
    assert p[..s.m.offset + n] == p[..s.m.offset] + p[s.m.offset..][..n];
    assert Books(r.m, r.log, n);
    if r.log.failures == 0 {
      WholeIsInStream(r.m, r.log, n);
    }
  }

  lemma CancelNext(c: Limits, s: State)
    requires Sound(s)
    ensures Sound(Next(c, s, CancelIO))
  {
    hide Whole, Stream, Books, SumsOf;
    BooksIgnoreBuffers(s.m, s.m.(cancelIo := true), s.log, SumsOf(s.threads).landed);
  }

  lemma FailedNext(c: Limits, s: State, t: nat)
    requires Sound(s) && Enabled(s, CompleteFailed(t))
    ensures Sound(Next(c, s, CompleteFailed(t)))
  {
    hide Whole, Stream, Packets, Total;
    NobodyOwns(s);
  }

  lemma NextIsSound(c: Limits, s: State, a: Action)
    requires Sound(s) && Enabled(s, a)
    ensures Sound(Next(c, s, a))
  {
    hide Sound, Next;
    match a {
      case Enqueue(t, p, admitted) => EnqueueNext(c, s, t, p, admitted);
      case Complete(t, n) => CompleteNext(c, s, t, n);
      case CompleteFailed(t) => FailedNext(c, s, t);
      case CancelIO => CancelNext(c, s);
      case Step(t, choice) =>
        if Owns(s.threads[t]) == 1 { OwnerNext(c, s, t, choice); } else { StrangerNext(c, s, t, choice); }
    }
  }

  ghost predicate AllIdle(threads: seq<Pc>)
  {
    forall t :: 0 <= t < |threads| ==> threads[t].Idle?
  }

  lemma IdleSums(threads: seq<Pc>)
    requires AllIdle(threads)
    ensures SumsOf(threads) == Sums(0, 0, 0)
  {
    Zero(threads, Owns);
    Zero(threads, Looks);
    Zero(threads, Landed);
  }

  lemma InitialIsSound(s: State)
    requires Initial(s)
    ensures Sound(s)
  {
    hide Books, InStream, SumsOf, OneRight, AllFit, Awake, NoEmptyPackets;
    IdleSums(s.threads);
    EmptyBooks(s.m, s.log);
    FreshFields(s);
    FreshThreads(s);
  }

  lemma FreshFields(s: State)
    requires Initial(s)
    ensures OneRight(s.m, 0) && Awake(s.m, s.log, 0) && NoEmptyPackets(s.m)
  {
  }

  lemma FreshThreads(s: State)
    requires Initial(s)
    ensures AllFit(s.m, s.log, s.threads)
  {
  }

  lemma EmptyBooks(m: Shared, log: Log)
    requires m == Shared([], false, None, 0, [], 0, 0, false) && log == Log([], [], [], 0, false)
    ensures Books(m, log, 0) && InStream(m, log)
  {
    assert Packets([]) == [];
  }

  lemma {:induction false} RunIsSound(c: Limits, s: State, schedule: seq<Action>)
    requires Sound(s) && Runs(c, s, schedule)
    ensures Sound(After(c, s, schedule))
    decreases |schedule|
  {
    hide Sound, Next, Enabled;
    if schedule != [] {
      NextIsSound(c, s, schedule[0]);
      RunIsSound(c, Next(c, s, schedule[0]), schedule[1..]);
    }
  }

  // --- Theorems -------------------------------------------------------------------------------

  // At most one WSASend is outstanding, and while one is, no thread touches the packet or the
  // overlapped structure; an idle m_sending means there is no packet in hand.
  lemma OneSendAtATime(c: Limits, s0: State, schedule: seq<Action>)
    requires Initial(s0) && Runs(c, s0, schedule)
    ensures var s := After(c, s0, schedule);
            && s.m.posted + s.m.stuck + Total(s.threads, Owns) == One(s.m.sending)
            && (s.m.posted > 0 ==> forall t :: 0 <= t < |s.threads| ==> Owns(s.threads[t]) == 0)
            && (!s.m.sending ==> s.m.current.None? && s.m.offset == 0)
  {
    var s := After(c, s0, schedule);
    InitialIsSound(s0);
    RunIsSound(c, s0, schedule);
    if s.m.posted > 0 { NobodyOwns(s); }
  }

  // No packet overtakes another and none is lost track of: in PushBack order they are released, in
  // hand, or queued; the wire holds exactly the bytes those packets sent.  While no send has failed
  // the wire is a prefix of the accepted stream, also under a cancel.
  lemma WireFollowsQueue(c: Limits, s0: State, schedule: seq<Action>)
    requires Initial(s0) && Runs(c, s0, schedule)
    ensures var s := After(c, s0, schedule);
            && s.log.accepted == Packets(s.log.fates) + InHand(s.m.current) + s.m.queue
            && s.log.wire == SentBytes(s.log.fates) + Begun(s.m.current, s.m.offset + Total(s.threads, Landed))
            && (s.log.failures == 0 ==> s.log.wire <= Stream(s.log.accepted))
            && (s.log.failures == 0 && !s.log.cut ==> Whole(s.log.fates))
  {
    hide Initial, Runs, After, Total, AllFit, Stream, SentBytes, Packets, Begun, InHand;
    InitialIsSound(s0);
    RunIsSound(c, s0, schedule);
  }

  ghost predicate Quiet(s: State)
  {
    s.m.posted == 0 && AllIdle(s.threads)
  }

  // No packet is stranded: at rest, with no failure and no cancel, everything accepted is on the wire.
  lemma NothingIsStranded(c: Limits, s0: State, schedule: seq<Action>)
    requires Initial(s0) && Runs(c, s0, schedule) && Quiet(After(c, s0, schedule))
    requires After(c, s0, schedule).log.failures == 0 && !After(c, s0, schedule).m.cancelIo
    ensures var s := After(c, s0, schedule);
            s.m.queue == [] && s.m.current.None? && !s.m.sending && s.log.wire == Stream(s.log.accepted)
  {
    var s := After(c, s0, schedule);
    hide Stream, SumsOf, Initial, Runs;
    InitialIsSound(s0);
    RunIsSound(c, s0, schedule);
    IdleSums(s.threads);
    WholeIsInStream(s.m, s.log, 0);
  }

  // The limit of the last theorem: WSASend fails for want of resources while a second packet, whose
  // sender found m_sending taken, waits.  The session lives on with that packet queued, nobody sending
  // and nobody about to.
  const SMALL: Packet := [0, 0, 4, 0]
  const LIMITS := Limits(1, 4)
  const START := State(Shared([], false, None, 0, [], 0, 0, false), [Idle, Idle], Log([], [], [], 0, false))

  lemma Further(schedule: seq<Action>, a: Action) returns (longer: seq<Action>)
    requires Runs(LIMITS, START, schedule) && Enabled(After(LIMITS, START, schedule), a)
    ensures Runs(LIMITS, START, longer) && After(LIMITS, START, longer) == Next(LIMITS, After(LIMITS, START, schedule), a)
  {
    RunsExtend(LIMITS, START, schedule, a);
    longer := schedule + [a];
  }

  lemma SecondSenderTurnedAway() returns (schedule: seq<Action>)
    ensures Runs(LIMITS, START, schedule)
    ensures After(LIMITS, START, schedule)
         == State(Shared([], true, Some(SMALL), 0, SMALL, 0, 0, false), [Post, Idle], Log([SMALL], [], [], 0, false))
  {
    schedule := [];
    assert After(LIMITS, START, schedule) == START;
    hide Runs, After;
    schedule := Further(schedule, Enqueue(0, SMALL, true));
    schedule := Further(schedule, Step(0, true));
    schedule := Further(schedule, Step(0, true));
    schedule := Further(schedule, Step(0, true));
    schedule := Further(schedule, Step(0, true));
  }

  lemma StrandedByShortage() returns (schedule: seq<Action>)
    ensures Initial(START) && Runs(LIMITS, START, schedule)
    ensures var s := After(LIMITS, START, schedule);
            Quiet(s) && !s.m.cancelIo && s.log.failures == 1 && s.m.queue == [SMALL] && !s.m.sending && s.log.wire == []
  {
    hide Runs, After;
    schedule := SecondSenderTurnedAway();
    schedule := Further(schedule, Enqueue(1, SMALL, true));
    schedule := Further(schedule, Step(1, true));
    schedule := Further(schedule, Step(0, false));
    schedule := Further(schedule, Step(0, true));
  }
}
