/**
 One packet sent to many sessions: a distributor counts a reference for every target queue, the queues
 and the threads that empty them give the references back, and the last one returns the packet.
 Packets a session owns alone travel through the same queues.
 */
module BroadcastProtocol {
  import opened Tally

  // An entry of the send queue pool, numbered as it is taken; shared ones carry the release callback.
  datatype Entry = Entry(id: nat, shared: bool)

  // Where SHARED_SEND_PACKET::Release returns to.
  datatype Return = ToRest | ToEntry(entry: Entry, rest: seq<Entry>)

  datatype Pc =
    | Rest
    | Added(queue: nat)                         // AddRef done, before EnqueueShared takes an entry
    | Filling(entry: Entry, queue: nat)         // entry taken, before PushBack
    | Refused(entry: Entry)                     // PushBack refused, before the entry goes back
    | Unref(ret: Return)                        // before the decrement of refCount
    | LastPacket(ret: Return)                   // dropped it to 0, before the packet goes back
    | LastSelf(ret: Return)                     // before the SharedSendPacket itself goes back
    | Chain(entries: seq<Entry>)                // detached entries still to be released
    | EntryBack(entry: Entry, rest: seq<Entry>) // its packet is dealt with, before the entry goes back

  // Bookkeeping: entries taken, entries and packets put back, accepted packets of single sessions.
  datatype Log = Log(issued: nat, entriesBack: multiset<nat>, packetsBack: multiset<nat>,
                     accepted: multiset<nat>, sharedBack: nat, selfBack: nat)

  // share: the distributor has not dropped its own reference yet.
  datatype State = State(refCount: int, share: bool, queues: seq<seq<Entry>>, threads: seq<Pc>, log: Log)

  datatype Action =
    | AddRef(t: nat, queue: nat)
    | DropShare(t: nat)
    | SendAlone(t: nat, queue: nat)
    | Dequeue(t: nat, queue: nat)
    | Reset(t: nat, queue: nat)
    | Step(t: nat, choice: bool)

  // Thread 0 is the distributor.
  predicate Enabled(s: State, a: Action)
  {
    a.t < |s.threads| &&
    match a
    case AddRef(t, q) => t == 0 && s.share && s.threads[t].Rest? && q < |s.queues|
    case DropShare(t) => t == 0 && s.share && s.threads[t].Rest?
    case SendAlone(t, q) => s.threads[t].Rest? && q < |s.queues|
    case Dequeue(t, q) => s.threads[t].Rest? && q < |s.queues| && s.queues[q] != []
    case Reset(t, q) => s.threads[t].Rest? && q < |s.queues|
    case Step(t, _) =>
      !s.threads[t].Rest? && (s.threads[t].Filling? ==> s.threads[t].queue < |s.queues|)
  }

  function Returned(ret: Return): Pc
  {
    match ret
    case ToRest => Rest
    case ToEntry(e, rest) => EntryBack(e, rest)
  }

  function At(s: State, t: nat, pc: Pc): State
    requires t < |s.threads|
  {
    s.(threads := s.threads[t := pc])
  }

  // CreateSendPacketEntry inside EnqueueShared: it may fail, and the reference is dropped at once.
  function AddedStep(s: State, t: nat, queue: nat, created: bool): State
    requires t < |s.threads|
  {
    if created then
      At(s, t, Filling(Entry(s.log.issued, true), queue)).(log := s.log.(issued := s.log.issued + 1))
    else
      At(s, t, Unref(ToRest))
  }

  function PushStep(depth: nat, s: State, t: nat, e: Entry, queue: nat): State
    requires t < |s.threads| && queue < |s.queues|
  {
    if |s.queues[queue]| >= depth then
      At(s, t, Refused(e))
    else
      At(s, t, Rest).(queues := s.queues[queue := s.queues[queue] + [e]],
                      log := if e.shared then s.log else s.log.(accepted := s.log.accepted + multiset{e.id}))
  }

  // The entry goes back; a shared one's reference is then dropped, a packet of one session stays the caller's.
  function RefusedStep(s: State, t: nat, e: Entry): State
    requires t < |s.threads|
  {
    At(s, t, if e.shared then Unref(ToRest) else Rest).(log := s.log.(entriesBack := s.log.entriesBack + multiset{e.id}))
  }

  function UnrefStep(s: State, t: nat, ret: Return): State
    requires t < |s.threads|
  {
    At(s, t, if s.refCount - 1 == 0 then LastPacket(ret) else Returned(ret)).(refCount := s.refCount - 1)
  }

  // ReleaseEntry on the first detached entry: the callback, or the packet itself.
  function ChainStep(s: State, t: nat, entries: seq<Entry>): State
    requires t < |s.threads|
  {
    if entries == [] then At(s, t, Rest)
    else if entries[0].shared then At(s, t, Unref(ToEntry(entries[0], entries[1..])))
    else At(s, t, EntryBack(entries[0], entries[1..]))
           .(log := s.log.(packetsBack := s.log.packetsBack + multiset{entries[0].id}))
  }

  function StepNext(depth: nat, s: State, t: nat, choice: bool): State
    requires Enabled(s, Step(t, choice))
  {
    match s.threads[t]
    case Added(q) => AddedStep(s, t, q, choice)
    case Filling(e, q) => PushStep(depth, s, t, e, q)
    case Refused(e) => RefusedStep(s, t, e)
    case Unref(ret) => UnrefStep(s, t, ret)
    case LastPacket(ret) => At(s, t, LastSelf(ret)).(log := s.log.(sharedBack := s.log.sharedBack + 1))
    case LastSelf(ret) => At(s, t, Returned(ret)).(log := s.log.(selfBack := s.log.selfBack + 1))
    case Chain(es) => ChainStep(s, t, es)
    case EntryBack(e, rest) =>
      At(s, t, Chain(rest)).(log := s.log.(entriesBack := s.log.entriesBack + multiset{e.id}))
  }

  function Next(depth: nat, s: State, a: Action): State
    requires Enabled(s, a)
  {
    match a
    case AddRef(t, q) => At(s, t, Added(q)).(refCount := s.refCount + 1)
    case DropShare(t) => At(s, t, Unref(ToRest)).(share := false)
    case SendAlone(t, q) =>
      At(s, t, Filling(Entry(s.log.issued, false), q)).(log := s.log.(issued := s.log.issued + 1))
    case Dequeue(t, q) => At(s, t, Chain([s.queues[q][0]])).(queues := s.queues[q := s.queues[q][1..]])
    case Reset(t, q) => At(s, t, Chain(s.queues[q])).(queues := s.queues[q := []])
    case Step(t, choice) => StepNext(depth, s, t, choice)
  }

  // SHARED_SEND_PACKET::Create has just returned.
  ghost predicate Initial(s: State)
  {
    && s.refCount == 1 && s.share
    && (forall q :: 0 <= q < |s.queues| ==> s.queues[q] == [])
    && (forall t :: 0 <= t < |s.threads| ==> s.threads[t].Rest?)
    && s.log == Log(0, multiset{}, multiset{}, multiset{}, 0, 0)
  }

  ghost predicate Runs(depth: nat, s: State, schedule: seq<Action>)
    decreases |schedule|
  {
    schedule == [] || (Enabled(s, schedule[0]) && Runs(depth, Next(depth, s, schedule[0]), schedule[1..]))
  }

  ghost function After(depth: nat, s: State, schedule: seq<Action>): State
    requires Runs(depth, s, schedule)
    decreases |schedule|
  {
    if schedule == [] then s else After(depth, Next(depth, s, schedule[0]), schedule[1..])
  }
}
