/**
 Conservation of references, entries and packets in a broadcast: everything taken goes back exactly
 once, and the shared packet only after its last holder.
 */
module BroadcastOwnership {
  import opened Tally
  import opened BroadcastProtocol

  // Entries in a thread's hands that still carry their packet.
  function Carried(pc: Pc): seq<Entry>
  {
    match pc
    case Chain(es) => es
    case Unref(ret) => Later(ret)
    case LastPacket(ret) => Later(ret)
    case LastSelf(ret) => Later(ret)
    case EntryBack(_, rest) => rest
    case _ => []
  }

  function Later(ret: Return): seq<Entry>
  {
    if ret.ToEntry? then ret.rest else []
  }

  // The one entry a thread holds apart from those.
  function InHand(pc: Pc): seq<Entry>
  {
    match pc
    case Filling(e, _) => [e]
    case Refused(e) => [e]
    case Unref(ret) => Freed(ret)
    case LastPacket(ret) => Freed(ret)
    case LastSelf(ret) => Freed(ret)
    case EntryBack(e, _) => [e]
    case _ => []
  }

  function Freed(ret: Return): seq<Entry>
  {
    if ret.ToEntry? then [ret.entry] else []
  }

  // References a thread answers for besides those of the entries it carries.
  function Refs(pc: Pc): nat
  {
    match pc
    case Added(_) => 1
    case Filling(e, _) => One(e.shared)
    case Refused(e) => One(e.shared)
    case Unref(_) => 1
    case _ => 0
  }

  function PacketDue(pc: Pc): nat { One(pc.LastPacket?) }
  function SelfDue(pc: Pc): nat { One(pc.LastPacket? || pc.LastSelf?) }

  // Sums over all queues and all threads.
  function Queued(queues: seq<seq<Entry>>, f: Entry -> nat): nat
  {
    Total(queues, (q: seq<Entry>) => Total(q, f))
  }

  function Carrying(threads: seq<Pc>, f: Entry -> nat): nat
  {
    Total(threads, (pc: Pc) => Total(Carried(pc), f))
  }

  function Holding(threads: seq<Pc>, f: Entry -> nat): nat
  {
    Total(threads, (pc: Pc) => Total(InHand(pc), f))
  }

  function Shared(e: Entry): nat { One(e.shared) }
  function Is(id: nat): Entry -> nat { (e: Entry) => One(e.id == id) }
  function Alone(id: nat): Entry -> nat { (e: Entry) => One(e.id == id && !e.shared) }

  ghost predicate RefsCounted(s: State)
  {
    && s.refCount == One(s.share) + Total(s.threads, Refs) + Carrying(s.threads, Shared) + Queued(s.queues, Shared)
    && One(s.refCount == 0) == s.log.sharedBack + Total(s.threads, PacketDue)
    && One(s.refCount == 0) == s.log.selfBack + Total(s.threads, SelfDue)
  }

  // Every entry taken from the pool is in one place: a queue, a thread's hands, or back.
  ghost predicate EntriesCounted(s: State)
  {
    forall id: nat ::
      Queued(s.queues, Is(id)) + Carrying(s.threads, Is(id)) + Holding(s.threads, Is(id)) + s.log.entriesBack[id]
      == One(id < s.log.issued)
  }

  // Every accepted packet of a single session is in one place, or back.
  ghost predicate PacketsCounted(s: State)
  {
    forall id: nat ::
      Queued(s.queues, Alone(id)) + Carrying(s.threads, Alone(id)) + s.log.packetsBack[id] == s.log.accepted[id]
  }

  // --- How one row or one queue changes the sums ---------------------------------------------------

  lemma RowMoves(threads: seq<Pc>, t: nat, pc: Pc, f: Entry -> nat)
    requires t < |threads|
    ensures Carrying(threads[t := pc], f) + Total(Carried(threads[t]), f) == Carrying(threads, f) + Total(Carried(pc), f)
    ensures Holding(threads[t := pc], f) + Total(InHand(threads[t]), f) == Holding(threads, f) + Total(InHand(pc), f)
  {
    Update(threads, t, pc, (p: Pc) => Total(Carried(p), f));
    Update(threads, t, pc, (p: Pc) => Total(InHand(p), f));
  }

  lemma RefsMove(threads: seq<Pc>, t: nat, pc: Pc)
    requires t < |threads|
    ensures Total(threads[t := pc], Refs) + Refs(threads[t]) == Total(threads, Refs) + Refs(pc)
    ensures Total(threads[t := pc], PacketDue) + PacketDue(threads[t]) == Total(threads, PacketDue) + PacketDue(pc)
    ensures Total(threads[t := pc], SelfDue) + SelfDue(threads[t]) == Total(threads, SelfDue) + SelfDue(pc)
    ensures Refs(threads[t]) <= Total(threads, Refs) && PacketDue(threads[t]) <= Total(threads, PacketDue)
    ensures SelfDue(threads[t]) <= Total(threads, SelfDue)
  {
    Update(threads, t, pc, Refs);
    Update(threads, t, pc, PacketDue);
    Update(threads, t, pc, SelfDue);
    AtLeast(threads, t, Refs);
    AtLeast(threads, t, PacketDue);
    AtLeast(threads, t, SelfDue);
  }

  lemma QueueMoves(queues: seq<seq<Entry>>, q: nat, queue: seq<Entry>, f: Entry -> nat)
    requires q < |queues|
    ensures Queued(queues[q := queue], f) + Total(queues[q], f) == Queued(queues, f) + Total(queue, f)
  {
    Update(queues, q, queue, (x: seq<Entry>) => Total(x, f));
  }

  // What an action adds to the entries in queues and carried chains, and takes from them.
  function Enters(depth: nat, s: State, a: Action, f: Entry -> nat): nat
    requires Enabled(s, a)
  {
    if a.Step? && s.threads[a.t].Filling? && |s.queues[s.threads[a.t].queue]| < depth then f(s.threads[a.t].entry) else 0
  }

  function Leaves(s: State, a: Action, f: Entry -> nat): nat
    requires Enabled(s, a)
  {
    if a.Step? && s.threads[a.t].Chain? && s.threads[a.t].entries != [] then f(s.threads[a.t].entries[0]) else 0
  }

  lemma CarriedChanges(depth: nat, s: State, a: Action, f: Entry -> nat)
    requires Enabled(s, a)
    ensures var r := Next(depth, s, a);
            Queued(r.queues, f) + Carrying(r.threads, f) + Leaves(s, a, f)
            == Queued(s.queues, f) + Carrying(s.threads, f) + Enters(depth, s, a, f)
  {
    hide Queued, Carrying, StepNext, Carried, Enters, Leaves;
    var r := Next(depth, s, a);
    OnlyOneRow(depth, s, a);
    RowMoves(s.threads, a.t, r.threads[a.t], f);
    if a.Step? {
      StepCarries(depth, s, a.t, a.choice, f);
    } else {
      CallCarries(depth, s, a, f);
    }
  }

  lemma CallCarries(depth: nat, s: State, a: Action, f: Entry -> nat)
    requires Enabled(s, a) && !a.Step?
    ensures var r := Next(depth, s, a);
            Queued(r.queues, f) + Total(Carried(r.threads[a.t]), f) + Leaves(s, a, f)
            == Queued(s.queues, f) + Total(Carried(s.threads[a.t]), f) + Enters(depth, s, a, f)
  {
    hide Queued;
    if a.Dequeue? {
      QueueMoves(s.queues, a.queue, s.queues[a.queue][1..], f);
      HeadTail(s.queues[a.queue], f);
      Single(s.queues[a.queue][0], f);
    } else if a.Reset? {
      QueueMoves(s.queues, a.queue, [], f);
    }
  }

  lemma StepCarries(depth: nat, s: State, t: nat, choice: bool, f: Entry -> nat)
    requires Enabled(s, Step(t, choice))
    ensures var r := StepNext(depth, s, t, choice);
            Queued(r.queues, f) + Total(Carried(r.threads[t]), f) + Leaves(s, Step(t, choice), f)
            == Queued(s.queues, f) + Total(Carried(s.threads[t]), f) + Enters(depth, s, Step(t, choice), f)
  {
    hide Queued, Total;
    var pc := s.threads[t];
    if pc.Filling? {
      PushCarries(depth, s, t, f);
    } else if pc.Chain? {
      if pc.entries != [] { HeadTail(pc.entries, f); }
    }
  }

  lemma PushCarries(depth: nat, s: State, t: nat, f: Entry -> nat)
    requires Enabled(s, Step(t, true)) && s.threads[t].Filling?
    ensures var r := PushStep(depth, s, t, s.threads[t].entry, s.threads[t].queue);
            Queued(r.queues, f) + Total(Carried(r.threads[t]), f)
            == Queued(s.queues, f) + Total(Carried(s.threads[t]), f) + Enters(depth, s, Step(t, true), f)
  {
    hide Queued;
    var pc := s.threads[t];
    var queue := s.queues[pc.queue];
    QueueMoves(s.queues, pc.queue, queue + [pc.entry], f);
    Concat(queue, [pc.entry], f);
    Single(pc.entry, f);
  }

  // --- The three books --------------------------------------------------------------------------

  lemma RefsKept(depth: nat, s: State, a: Action)
    requires Enabled(s, a) && RefsCounted(s)
    ensures RefsCounted(Next(depth, s, a))
  {
    hide Queued, Carrying, Next, Enters, Leaves, Refs, PacketDue, SelfDue;
    var r := Next(depth, s, a);
    OnlyOneRow(depth, s, a);
    CarriedChanges(depth, s, a, Shared);
    RefsMove(s.threads, a.t, r.threads[a.t]);
    RefSteps(depth, s, a, Queued(s.queues, Shared) + Carrying(s.threads, Shared),
             Queued(r.queues, Shared) + Carrying(r.threads, Shared));
  }

  // The count moves with the references; row is that of the thread that moves, others the references
  // of the rest.
  ghost predicate CountMoves(s: State, r: State, t: nat, others: int, carried: nat)
    requires t < |s.threads| == |r.threads|
  {
    && r.refCount == One(r.share) + others + Refs(r.threads[t]) + carried
    && r.log.sharedBack + PacketDue(r.threads[t]) + One(s.refCount == 0)
       == s.log.sharedBack + PacketDue(s.threads[t]) + One(r.refCount == 0)
    && r.log.selfBack + SelfDue(r.threads[t]) + One(s.refCount == 0)
       == s.log.selfBack + SelfDue(s.threads[t]) + One(r.refCount == 0)
  }

  lemma RefSteps(depth: nat, s: State, a: Action, carried: nat, carried': nat)
    requires Enabled(s, a)
    requires s.refCount == One(s.share) + Total(s.threads, Refs) + carried
    requires carried' + Leaves(s, a, Shared) == carried + Enters(depth, s, a, Shared)
    requires Total(s.threads, Refs) >= Refs(s.threads[a.t])
    ensures CountMoves(s, Next(depth, s, a), a.t, Total(s.threads, Refs) - Refs(s.threads[a.t]), carried')
  {
    hide Total, CountMoves;
    var others := Total(s.threads, Refs) - Refs(s.threads[a.t]);
    if a.Step? {
      StepRefs(depth, s, a, others, carried, carried');
    } else {
      CallRefs(depth, s, a, others, carried, carried');
    }
  }

  lemma StepRefs(depth: nat, s: State, a: Action, others: nat, carried: nat, carried': nat)
    requires Enabled(s, a) && a.Step?
    requires s.refCount == One(s.share) + others + Refs(s.threads[a.t]) + carried
    requires carried' + Leaves(s, a, Shared) == carried + Enters(depth, s, a, Shared)
    ensures CountMoves(s, Next(depth, s, a), a.t, others, carried')
  {
  }

  lemma CallRefs(depth: nat, s: State, a: Action, others: nat, carried: nat, carried': nat)
    requires Enabled(s, a) && !a.Step?
    requires s.refCount == One(s.share) + others + Refs(s.threads[a.t]) + carried
    requires carried' + Leaves(s, a, Shared) == carried + Enters(depth, s, a, Shared)
    ensures CountMoves(s, Next(depth, s, a), a.t, others, carried')
  {
  }

  function HandIs(pc: Pc, id: nat): nat
  {
    if InHand(pc) == [] then 0 else One(InHand(pc)[0].id == id)
  }

  lemma HandTotal(pc: Pc, id: nat)
    ensures Total(InHand(pc), Is(id)) == HandIs(pc, id)
  {
    if InHand(pc) != [] { Single(InHand(pc)[0], Is(id)); }
  }

  // Where the entry in a thread's hand comes from and goes to.
  ghost predicate HandMoves(depth: nat, s: State, a: Action, id: nat)
    requires Enabled(s, a)
  {
    var r := Next(depth, s, a);
    HandIs(r.threads[a.t], id) + Enters(depth, s, a, Is(id)) + r.log.entriesBack[id] + One(id < s.log.issued)
    == HandIs(s.threads[a.t], id) + Leaves(s, a, Is(id)) + s.log.entriesBack[id] + One(id < r.log.issued)
  }

  lemma HandChanges(depth: nat, s: State, a: Action, id: nat)
    requires Enabled(s, a)
    ensures HandMoves(depth, s, a, id)
  {
    if a.Step? {
      var pc := s.threads[a.t];
      if pc.Chain? || pc.EntryBack? {
        ChainHands(depth, s, a.t, a.choice, id);
      } else if pc.Unref? || pc.LastPacket? || pc.LastSelf? {
        UnrefHands(depth, s, a.t, a.choice, id);
      } else {
        OtherHands(depth, s, a.t, a.choice, id);
      }
    }
  }

  lemma ChainHands(depth: nat, s: State, t: nat, choice: bool, id: nat)
    requires Enabled(s, Step(t, choice)) && (s.threads[t].Chain? || s.threads[t].EntryBack?)
    ensures HandMoves(depth, s, Step(t, choice), id)
  {
  }

  lemma UnrefHands(depth: nat, s: State, t: nat, choice: bool, id: nat)
    requires Enabled(s, Step(t, choice)) && (s.threads[t].Unref? || s.threads[t].LastPacket? || s.threads[t].LastSelf?)
    ensures HandMoves(depth, s, Step(t, choice), id)
  {
  }

  lemma OtherHands(depth: nat, s: State, t: nat, choice: bool, id: nat)
    requires Enabled(s, Step(t, choice)) && (s.threads[t].Added? || s.threads[t].Filling? || s.threads[t].Refused?)
    ensures HandMoves(depth, s, Step(t, choice), id)
  {
  }

  lemma EntriesKept(depth: nat, s: State, a: Action)
    requires Enabled(s, a) && EntriesCounted(s)
    ensures EntriesCounted(Next(depth, s, a))
  {
    hide Next, Queued, Carrying, Holding, Enters, Leaves;
    var r := Next(depth, s, a);
    forall id: nat
      ensures Queued(r.queues, Is(id)) + Carrying(r.threads, Is(id)) + Holding(r.threads, Is(id)) + r.log.entriesBack[id]
           == One(id < r.log.issued)
    {
      OnlyOneRow(depth, s, a);
      CarriedChanges(depth, s, a, Is(id));
      RowMoves(s.threads, a.t, r.threads[a.t], Is(id));
      HandChanges(depth, s, a, id);
      HandTotal(s.threads[a.t], id);
      HandTotal(r.threads[a.t], id);
    }
  }

  lemma OnlyOneRow(depth: nat, s: State, a: Action)
    requires Enabled(s, a)
    ensures var r := Next(depth, s, a); |r.threads| == |s.threads| && r.threads == s.threads[a.t := r.threads[a.t]]
  {
  }

  lemma PacketsKept(depth: nat, s: State, a: Action)
    requires Enabled(s, a) && PacketsCounted(s)
    ensures PacketsCounted(Next(depth, s, a))
  {
    hide Queued, Carrying;
    var r := Next(depth, s, a);
    forall id: nat
      ensures Queued(r.queues, Alone(id)) + Carrying(r.threads, Alone(id)) + r.log.packetsBack[id] == r.log.accepted[id]
    {
      CarriedChanges(depth, s, a, Alone(id));
    }
  }

  // An entry is pushed at most once.
  function Fills(id: nat): Pc -> nat { (pc: Pc) => One(pc.Filling? && pc.entry.id == id) }

  ghost predicate AcceptedOnce(s: State)
  {
    forall id: nat :: Total(s.threads, Fills(id)) + s.log.accepted[id] <= One(id < s.log.issued)
  }

  lemma FillsMove(depth: nat, s: State, a: Action, id: nat)
    requires Enabled(s, a)
    ensures var r := Next(depth, s, a);
            && r.threads == s.threads[a.t := r.threads[a.t]]
            && Fills(id)(r.threads[a.t]) + r.log.accepted[id] + One(id < s.log.issued)
               <= Fills(id)(s.threads[a.t]) + s.log.accepted[id] + One(id < r.log.issued)
  {
  }

  lemma AcceptedOnceKept(depth: nat, s: State, a: Action)
    requires Enabled(s, a) && AcceptedOnce(s)
    ensures AcceptedOnce(Next(depth, s, a))
  {
    hide Total, Next, Fills;
    var r := Next(depth, s, a);
    forall id: nat
      ensures Total(r.threads, Fills(id)) + r.log.accepted[id] <= One(id < r.log.issued)
    {
      FillsMove(depth, s, a, id);
      Update(s.threads, a.t, r.threads[a.t], Fills(id));
    }
  }

  ghost predicate Counted(s: State)
  {
    RefsCounted(s) && EntriesCounted(s) && PacketsCounted(s) && AcceptedOnce(s)
  }

  lemma InitialIsCounted(s: State)
    requires Initial(s)
    ensures Counted(s)
  {
    Zero(s.threads, Refs);
    Zero(s.threads, PacketDue);
    Zero(s.threads, SelfDue);
    EmptyHanded(s, Shared);
    forall id: nat ensures Queued(s.queues, Is(id)) + Carrying(s.threads, Is(id)) + Holding(s.threads, Is(id)) == 0 {
      EmptyHanded(s, Is(id));
    }
    forall id: nat ensures Queued(s.queues, Alone(id)) + Carrying(s.threads, Alone(id)) == 0 {
      EmptyHanded(s, Alone(id));
    }
    forall id: nat ensures Total(s.threads, Fills(id)) == 0 {
      Zero(s.threads, Fills(id));
    }
  }

  ghost predicate Idle(s: State)
  {
    && (forall q :: 0 <= q < |s.queues| ==> s.queues[q] == [])
    && (forall t :: 0 <= t < |s.threads| ==> s.threads[t].Rest?)
  }

  lemma EmptyHanded(s: State, f: Entry -> nat)
    requires Idle(s)
    ensures Queued(s.queues, f) == 0 && Carrying(s.threads, f) == 0 && Holding(s.threads, f) == 0
  {
    Zero(s.queues, (q: seq<Entry>) => Total(q, f));
    Zero(s.threads, (pc: Pc) => Total(Carried(pc), f));
    Zero(s.threads, (pc: Pc) => Total(InHand(pc), f));
  }

  lemma {:induction false} RunIsCounted(depth: nat, s: State, schedule: seq<Action>)
    requires Counted(s) && Runs(depth, s, schedule)
    ensures Counted(After(depth, s, schedule))
    decreases |schedule|
  {
    hide RefsCounted, EntriesCounted, PacketsCounted, AcceptedOnce, Next, Enabled;
    if schedule != [] {
      RefsKept(depth, s, schedule[0]);
      EntriesKept(depth, s, schedule[0]);
      PacketsKept(depth, s, schedule[0]);
      AcceptedOnceKept(depth, s, schedule[0]);
      RunIsCounted(depth, Next(depth, s, schedule[0]), schedule[1..]);
    }
  }

  // The shared packet and its header go back at most once, and only when the distributor has dropped
  // its share and no queue and no thread holds a reference; a thread about to drop a reference still
  // finds the count positive; no entry and no packet goes back twice.
  lemma NothingReturnsTwice(depth: nat, s0: State, schedule: seq<Action>)
    requires Initial(s0) && Runs(depth, s0, schedule)
    ensures var s := After(depth, s0, schedule);
            && s.log.sharedBack <= 1 && s.log.selfBack <= 1
            && (s.log.sharedBack == 1 || s.log.selfBack == 1 ==>
                  !s.share && Queued(s.queues, Shared) == 0 && Carrying(s.threads, Shared) == 0 && Total(s.threads, Refs) == 0)
            && (forall t :: 0 <= t < |s.threads| && s.threads[t].Unref? ==> s.refCount > 0 && s.log.selfBack == 0)
            && (forall id :: s.log.entriesBack[id] <= 1)
            && (forall id :: s.log.packetsBack[id] <= s.log.accepted[id] <= 1)
  {
    hide Queued, Carrying, Holding, Total;
    var s := After(depth, s0, schedule);
    InitialIsCounted(s0);
    RunIsCounted(depth, s0, schedule);
    forall t | 0 <= t < |s.threads| && s.threads[t].Unref?
      ensures s.refCount > 0
    {
      AtLeast(s.threads, t, Refs);
    }
    forall id ensures s.log.entriesBack[id] <= 1 && s.log.packetsBack[id] <= s.log.accepted[id] <= 1 {
      assert Queued(s.queues, Is(id)) + Carrying(s.threads, Is(id)) + Holding(s.threads, Is(id)) + s.log.entriesBack[id] <= 1;
    }
  }

  // Once the broadcast is over and the queues are drained, everything has gone back: the packet, its
  // header, every entry, and every accepted packet of a single session.
  lemma EverythingReturns(depth: nat, s0: State, schedule: seq<Action>)
    requires Initial(s0) && Runs(depth, s0, schedule)
    requires Idle(After(depth, s0, schedule)) && !After(depth, s0, schedule).share
    ensures var s := After(depth, s0, schedule);
            && s.refCount == 0 && s.log.sharedBack == 1 && s.log.selfBack == 1
            && (forall id: nat :: s.log.entriesBack[id] == One(id < s.log.issued))
            && s.log.packetsBack == s.log.accepted
  {
    hide Queued, Carrying, Holding;
    var s := After(depth, s0, schedule);
    InitialIsCounted(s0);
    RunIsCounted(depth, s0, schedule);
    Zero(s.threads, Refs);
    Zero(s.threads, PacketDue);
    Zero(s.threads, SelfDue);
    EmptyHanded(s, Shared);
    forall id: nat
      ensures s.log.entriesBack[id] == One(id < s.log.issued) && s.log.packetsBack[id] == s.log.accepted[id]
    {
      EmptyHanded(s, Is(id));
      EmptyHanded(s, Alone(id));
      assert Queued(s.queues, Is(id)) + Carrying(s.threads, Is(id)) + Holding(s.threads, Is(id)) + s.log.entriesBack[id]
          == One(id < s.log.issued);
      assert Queued(s.queues, Alone(id)) + Carrying(s.threads, Alone(id)) + s.log.packetsBack[id] == s.log.accepted[id];
    }
  }
}
