/**
 One session's send path: any number of threads enqueue packets and try to send, completion threads
 continue what the kernel only sent in part, and m_sending is the right to touch the packet being
 sent and the one overlapped structure of the session.
 */
module SendPathProtocol {

  import opened Wire

  // sendQueueDepth and maxSendPacketSize of SessionBufferConfig.
  datatype Limits = Limits(depth: nat, maxPacketSize: nat)

  datatype Option<T> = None | Some(value: T)

  datatype Pc =
    | Idle
      // TrySendNext
    | Claim                 // before the m_sending exchange
    | Take                  // won it, before Dequeue
    | Give                  // queue was empty, before m_sending = 0
    | Recheck               // before IsEmpty
      // PostCurrentSend
    | Prepare
    | Begin                 // before BeginIO
    | Post                  // past the gate, before WSASend
      // OnSendCompleted, n bytes transferred
    | Completed(n: nat)
      // the packet is released, m_sending not yet; again: TrySendNext follows
    | LetGo(again: bool)

  // The fields of ClientSession and SendPacketQueue, the kernel's outstanding sends, and stuck: rights
  // to send that a refused BeginIO or a failed completion left with nobody.
  datatype Shared = Shared(queue: seq<Packet>, sending: bool, current: Option<Packet>, offset: nat,
                           overlapped: seq<Byte>, posted: nat, stuck: nat, cancelIo: bool)

  // What became of a packet whose entry was released: how many of its bytes went out.
  datatype Fate = Fate(packet: Packet, sent: nat)

  // Bookkeeping: packets in PushBack order, released packets, bytes completed on the wire, sends that
  // failed, and whether a cancelled send was dropped short of its end.
  datatype Log = Log(accepted: seq<Packet>, fates: seq<Fate>, wire: seq<Byte>, failures: nat, cut: bool)

  datatype State = State(m: Shared, threads: seq<Pc>, log: Log)

  datatype Action =
    // admitted: CanSendPacket lets the packet id pass, and the pool gives an entry
    | Enqueue(t: nat, packet: Packet, admitted: bool)
    | Complete(t: nat, n: nat)
    | CompleteFailed(t: nat)
    | CancelIO
    | Step(t: nat, choice: bool)

  predicate Enabled(s: State, a: Action)
  {
    match a
    case Enqueue(t, _, _) => t < |s.threads| && s.threads[t].Idle?
    case Complete(t, n) => t < |s.threads| && s.threads[t].Idle? && s.m.posted > 0 && 1 <= n <= |s.m.overlapped|
    case CompleteFailed(t) => t < |s.threads| && s.threads[t].Idle? && s.m.posted > 0
    case CancelIO => true
    case Step(t, _) => t < |s.threads| && !s.threads[t].Idle?
  }

  datatype Effect = Effect(m: Shared, log: Log, pc: Pc)

  // ReleaseEntry on the current packet; the fields are cleared and the entry's fate recorded.
  function ReleaseCurrent(m: Shared, log: Log, offset: nat, pc: Pc): Effect
    requires m.current.Some?
  {
    Effect(m.(current := None, offset := 0), log.(fates := log.fates + [Fate(m.current.value, offset)]), pc)
  }

  function TakeStep(m: Shared, log: Log): Effect
  {
    if m.current.Some? then Effect(m, log, Prepare)
    else if m.queue == [] then Effect(m, log, Give)
    else Effect(m.(current := Some(m.queue[0]), queue := m.queue[1..], offset := 0), log, Prepare)
  }

  function PrepareStep(m: Shared, log: Log): Effect
  {
    if m.current.None? then Effect(m.(stuck := m.stuck + 1), log, Idle)
    else if |m.current.value| == m.offset then ReleaseCurrent(m, log, m.offset, LetGo(false))
    else
      var ready := if m.offset <= |m.current.value| then m.(overlapped := m.current.value[m.offset..]) else m;
      if m.cancelIo then ReleaseCurrent(ready, log.(cut := true), m.offset, LetGo(false))
      else Effect(ready, log, Begin)
  }

  function PostStep(m: Shared, log: Log, accepted: bool): Effect
  {
    if accepted then Effect(m.(posted := m.posted + 1), log, Idle)
    else if m.current.Some? then ReleaseCurrent(m, log.(failures := log.failures + 1), m.offset, LetGo(false))
    else Effect(m.(offset := 0), log.(failures := log.failures + 1), LetGo(false))
  }

  function CompletedStep(m: Shared, log: Log, n: nat): Effect
  {
    var offset := m.offset + n;
    if m.current.None? then Effect(m.(offset := offset, stuck := m.stuck + 1), log, Idle)
    else if offset < |m.current.value| then Effect(m.(offset := offset), log, Prepare)
    else ReleaseCurrent(m, log, offset, LetGo(true))
  }

  function StepEffect(m: Shared, log: Log, pc: Pc, choice: bool): Effect
    requires !pc.Idle?
  {
    match pc
    case Claim => if m.sending then Effect(m, log, Idle) else Effect(m.(sending := true), log, Take)
    case Take => TakeStep(m, log)
    case Give => Effect(m.(sending := false), log, Recheck)
    case Recheck => Effect(m, log, if m.queue == [] then Idle else Claim)
    case Prepare => PrepareStep(m, log)
    case Begin => if m.cancelIo then Effect(m.(stuck := m.stuck + 1), log, Idle) else Effect(m, log, Post)
    case Post => PostStep(m, log, choice)
    case Completed(n) => CompletedStep(m, log, n)
    case LetGo(again) => Effect(m.(sending := false), log, if again then Claim else Idle)
  }

  // EnqueueSendPacket: a packet whose header does not name its own size, that the peer could not take,
  // or that is not admitted, is refused; then PushBack under the queue lock, refused at the depth limit;
  // then TrySendNext.
  function EnqueueEffect(c: Limits, m: Shared, log: Log, p: Packet, admitted: bool): Effect
  {
    if !Framed(p, c.maxPacketSize) || !admitted || |m.queue| >= c.depth then Effect(m, log, Idle)
    else Effect(m.(queue := m.queue + [p]), log.(accepted := log.accepted + [p]), Claim)
  }

  function Next(c: Limits, s: State, a: Action): State
    requires Enabled(s, a)
  {
    match a
    case Enqueue(t, p, admitted) =>
      var e := EnqueueEffect(c, s.m, s.log, p, admitted);
      State(e.m, s.threads[t := e.pc], e.log)
    case Complete(t, n) =>
      State(s.m.(posted := s.m.posted - 1), s.threads[t := Completed(n)],
            s.log.(wire := s.log.wire + s.m.overlapped[..n]))
    case CompleteFailed(t) =>
      State(s.m.(posted := s.m.posted - 1, stuck := s.m.stuck + 1), s.threads,
            s.log.(failures := s.log.failures + 1))
    case CancelIO => State(s.m.(cancelIo := true), s.threads, s.log)
    case Step(t, choice) =>
      var e := StepEffect(s.m, s.log, s.threads[t], choice);
      State(e.m, s.threads[t := e.pc], e.log)
  }

  ghost predicate Initial(s: State)
  {
    && s.m == Shared([], false, None, 0, [], 0, 0, false)
    && s.log == Log([], [], [], 0, false)
    && forall t :: 0 <= t < |s.threads| ==> s.threads[t].Idle?
  }

  ghost predicate Runs(c: Limits, s: State, schedule: seq<Action>)
    decreases |schedule|
  {
    schedule == [] || (Enabled(s, schedule[0]) && Runs(c, Next(c, s, schedule[0]), schedule[1..]))
  }

  ghost function After(c: Limits, s: State, schedule: seq<Action>): State
    requires Runs(c, s, schedule)
    decreases |schedule|
  {
    if schedule == [] then s else After(c, Next(c, s, schedule[0]), schedule[1..])
  }

  lemma {:induction false} RunsExtend(c: Limits, s: State, schedule: seq<Action>, a: Action)
    requires Runs(c, s, schedule) && Enabled(After(c, s, schedule), a)
    ensures Runs(c, s, schedule + [a])
    ensures After(c, s, schedule + [a]) == Next(c, After(c, s, schedule), a)
    decreases |schedule|
  {
    if schedule == [] {
      assert [a][1..] == [];
    } else {
      RunsExtend(c, Next(c, s, schedule[0]), schedule[1..], a);
      assert (schedule + [a])[1..] == schedule[1..] + [a];
    }
  }
}
