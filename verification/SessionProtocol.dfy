/**
 The life of one pooled session as every thread of the engine sees it: the outstanding I/O counter,
 the cancel gate, the deferred release and the pool state of its node.

 Each Interlocked operation, and each section under the pool lock, is one step.  A thread between
 two steps sits at a program counter; `held` is how many units of m_ioCount it answers for.
 A handler body is left open: while it holds a unit it may post, pause, release or drop in any order.
 */
module SessionProtocol {

  datatype PoolState = Free | InUse | Releasing

  // What a thread passing BeginIO means to do with the unit it takes.
  datatype Purpose = Recv | Send | Pause

  // How far the accepting thread is with the connect sequence it runs under its own unit.
  datatype Connecting = NotConnecting | Guarded | Opened | Marked | Told

  // Where a nested call returns to: its caller, or the middle of ClientSessionPool::Release.
  datatype Return = ToCaller | ToRelease

  datatype Pc =
    | Rest
      // HandleAccept between Acquire and its IncrementIO
    | Leased
    | Attached
      // BeginIO: counted, gate not read yet; then past the gate
    | Gate(purpose: Purpose)
    | Issue(purpose: Purpose)
      // DecrementIO
    | Decrement(ret: Return)
    | Signal(ret: Return)
    | TakePending(ret: Return)
      // CancelPendingIO
    | FindSocket(ret: Return)
    | Arm(ret: Return)
    | Sweep(ret: Return)
    | DropPause(ret: Return)
      // Release by a thread that holds no unit: decided, not yet at the poolState exchange
    | Decided
      // ClientSessionPool::Release past the won exchange, before it looks whether the session is connected
    | Won
      // RequestRelease
    | MarkPending
    | ReadCount
    | GrabPending
      // CompleteRelease
    | Finish(stage: nat)

  datatype Thread = Thread(held: nat, receiving: bool, connecting: Connecting, pc: Pc)

  // BaseSession, ClientSession and SessionNode fields the protocol turns on.
  datatype Memory = Memory(ioCount: int, cancelIo: bool, releasePending: bool, recvPaused: bool,
                           socket: bool, connected: bool, notified: bool, pool: PoolState)

  // Overlapped operations the kernel has not completed yet.
  datatype Kernel = Kernel(recv: nat, send: nat)

  // Bookkeeping: no step reads it.
  //   lease     leases handed out so far
  //   settled   the lessee has taken this lease's first unit, or gone without one
  //   finished  times CompleteRelease was entered in this lease
  //   told      OnClientConnect calls in this lease; parted: OnClientDisconnect calls
  //   leaked    units wiped together with a pause mark instead of being dropped
  datatype Ledger = Ledger(lease: nat, settled: bool, finished: nat, told: nat, parted: nat, leaked: nat)

  datatype State = State(m: Memory, k: Kernel, threads: seq<Thread>, ledger: Ledger)

  const FINISH_STAGES := 8

  // The calls a resting thread can begin.
  datatype Call =
    | Acquire | Open | Mark | Tell
    | Complete(purpose: Purpose)
    | BeginIO(purpose: Purpose)
    | BeginIOUnheld
    | Resume
    | Drop
    | Decide
    | Release
    | Cancel
    | SweepSlice

  datatype Action = Start(t: nat, call: Call) | Step(t: nat, choice: bool)

  predicate MayStart(s: State, th: Thread, call: Call)
  {
    th.pc.Rest? &&
    // between MarkServiceConnectNotified and OnClientConnect the lessee does nothing else
    (th.connecting.Marked? ==> call.Tell?) &&
    match call
    case Acquire => th.held == 0 && th.connecting.NotConnecting? && s.m.pool.Free?
    case Open => th.held > 0 && th.connecting.Guarded?
    case Mark => th.held > 0 && th.connecting.Opened?
    case Tell => th.held > 0 && th.connecting.Marked?
    case Complete(p) => th.held == 0 && ((p.Recv? && s.k.recv > 0) || (p.Send? && s.k.send > 0))
    case BeginIO(p) => th.held > 0 && (p.Send? || th.receiving)
    case BeginIOUnheld => th.held == 0
    case Resume => true
    case Drop => th.held > 0
    case Decide => th.held == 0 && s.m.connected
    case Release => th.held > 0
    case Cancel => true
    case SweepSlice => true
  }

  predicate Enabled(s: State, a: Action)
  {
    a.t < |s.threads| &&
    match a
    case Start(t, call) => MayStart(s, s.threads[t], call)
    case Step(t, _) => !s.threads[t].pc.Rest?
  }

  // What a step of one thread does: the shared state it leaves and the thread's own next row.
  datatype Effect = Effect(m: Memory, k: Kernel, ledger: Ledger, th: Thread)

  function Same(s: State, th: Thread): Effect
  {
    Effect(s.m, s.k, s.ledger, th)
  }

  function Store(s: State, m: Memory, th: Thread): Effect
  {
    Effect(m, s.k, s.ledger, th)
  }

  function At(th: Thread, pc: Pc): Thread
  {
    Thread(th.held, th.receiving, th.connecting, pc)
  }

  function Less(n: nat): nat
  {
    if n == 0 then 0 else n - 1
  }

  function Back(ret: Return): Pc
  {
    if ret.ToCaller? then Rest else MarkPending
  }

  // ClientSessionPool::Acquire and the lessee's connect sequence.
  function LeaseCall(s: State, th: Thread, call: Call): Effect
    requires call.Acquire? || call.Open? || call.Mark? || call.Tell?
  {
    match call
    case Acquire =>
      Effect(s.m.(pool := InUse), s.k, Ledger(s.ledger.lease + 1, false, 0, 0, 0, s.ledger.leaked), At(th, Leased))
    case Open => Store(s, s.m.(connected := true), th.(connecting := Opened))
    case Mark => Store(s, s.m.(notified := true), th.(connecting := Marked))
    case Tell => Effect(s.m, s.k, s.ledger.(told := s.ledger.told + 1), th.(connecting := Told))
  }

  // A completion packet hands the posted operation's unit to the thread that dequeues it.
  function CompleteCall(s: State, th: Thread, p: Purpose): Effect
    requires MayStart(s, th, Complete(p))
  {
    if p.Recv? then
      Effect(s.m, Kernel(s.k.recv - 1, s.k.send), s.ledger, Thread(1, true, NotConnecting, Rest))
    else
      Effect(s.m, Kernel(s.k.recv, s.k.send - 1), s.ledger, Thread(1, false, NotConnecting, Rest))
  }

  function TakeUnit(s: State, th: Thread, p: Purpose): Effect
  {
    Store(s, s.m.(ioCount := s.m.ioCount + 1), Thread(th.held + 1, th.receiving, th.connecting, Gate(p)))
  }

  // The 1 -> 0 exchange of m_recvPaused: its winner takes over the pause's unit.
  function ResumeCall(s: State, th: Thread): Effect
  {
    if s.m.recvPaused then
      Store(s, s.m.(recvPaused := false), Thread(th.held + 1, true, th.connecting, th.pc))
    else
      Same(s, th)
  }

  // The IN_USE -> RELEASING exchange that lets one caller in.
  function ReleaseCall(s: State, th: Thread): Effect
  {
    if s.m.pool.InUse? then
      Store(s, s.m.(pool := Releasing), At(th, Won))
    else
      Same(s, At(th, Rest))
  }

  function CallEffect(s: State, th: Thread, call: Call): Effect
    requires MayStart(s, th, call)
  {
    match call
    case Complete(p) => CompleteCall(s, th, p)
    case BeginIO(p) => TakeUnit(s, th, p)
    case BeginIOUnheld => TakeUnit(s, th, Send)
    case Resume => ResumeCall(s, th)
    case Drop => Same(s, At(th, Decrement(ToCaller)))
    case Decide => Same(s, At(th, Decided))
    case Release => ReleaseCall(s, th)
    case Cancel => Same(s, At(th, FindSocket(ToCaller)))
    case SweepSlice => Same(s, At(th, DropPause(ToCaller)))
    case _ => LeaseCall(s, th, call)
  }

  // HandleAccept after Acquire: attach the socket, then take the first unit, unless re-posting the
  // accept slot failed, which returns here and leaves the lease without a unit.
  function LeaseStep(s: State, th: Thread, choice: bool): Effect
    requires th.pc.Leased? || th.pc.Attached?
  {
    if th.pc.Leased? then
      Store(s, s.m.(socket := true), At(th, Attached))
    else if choice then
      Effect(s.m.(ioCount := s.m.ioCount + 1), s.k, s.ledger.(settled := true), Thread(th.held + 1, true, Guarded, Rest))
    else
      Effect(s.m, s.k, s.ledger.(settled := true), At(th, Rest))
  }

  function GateStep(s: State, th: Thread, p: Purpose): Effect
  {
    if s.m.cancelIo then
      Same(s, Thread(th.held, th.receiving && p.Send?, th.connecting, Decrement(ToCaller)))
    else
      Same(s, At(th, Issue(p)))
  }

  // WSARecv / WSASend, which may fail at once and leave the unit with the thread, or the pause mark.
  function IssueStep(s: State, th: Thread, p: Purpose, posted: bool): Effect
  {
    match p
    case Recv =>
      if posted then
        Effect(s.m, Kernel(s.k.recv + 1, s.k.send), s.ledger, Thread(Less(th.held), false, th.connecting, Rest))
      else
        Same(s, Thread(th.held, false, th.connecting, Rest))
    case Send =>
      if posted then
        Effect(s.m, Kernel(s.k.recv, s.k.send + 1), s.ledger, Thread(Less(th.held), th.receiving, th.connecting, Rest))
      else
        Same(s, At(th, Rest))
    case Pause =>
      Effect(s.m.(recvPaused := true), s.k, Leak(s.ledger, s.m.recvPaused),
             Thread(Less(th.held), false, th.connecting, Rest))
  }

  function Leak(l: Ledger, lost: bool): Ledger
  {
    if lost then l.(leaked := l.leaked + 1) else l
  }

  function DecrementStep(s: State, th: Thread, ret: Return): Effect
  {
    var left := Less(th.held);
    Store(s, s.m.(ioCount := s.m.ioCount - 1),
          Thread(left, th.receiving && left > 0, if left == 0 then NotConnecting else th.connecting,
                 if s.m.ioCount - 1 == 0 then Signal(ret) else Back(ret)))
  }

  // The 1 -> 0 exchange of m_releasePending: its winner runs CompleteRelease, the loser goes to `lost`.
  function TakeStep(s: State, th: Thread, lost: Pc): Effect
  {
    if s.m.releasePending then
      Effect(s.m.(releasePending := false), s.k, s.ledger.(finished := s.ledger.finished + 1), At(th, Finish(0)))
    else
      Same(s, At(th, lost))
  }

  // Only the thread that raises m_cancelIo calls CancelIoEx.
  function ArmStep(s: State, th: Thread, ret: Return): Effect
  {
    Store(s, s.m.(cancelIo := true), At(th, if s.m.cancelIo then DropPause(ret) else Sweep(ret)))
  }

  // ReleaseUnpostedIO: the unit a pause holds is dropped here when there is nothing left to resume.
  function DropPauseStep(s: State, th: Thread, ret: Return): Effect
  {
    if s.m.recvPaused then
      Store(s, s.m.(recvPaused := false), Thread(th.held + 1, th.receiving, th.connecting, Decrement(ret)))
    else
      Same(s, At(th, Back(ret)))
  }

  // CompleteRelease and the ResetSession inside it, store by store; the last one frees the node.
  function FinishStep(s: State, th: Thread, stage: nat): Effect
  {
    var next := At(th, Finish(stage + 1));
    if stage == 0 then Store(s, s.m.(socket := false), next)
    else if stage == 1 then
      Effect(s.m.(notified := false), s.k, if s.m.notified then s.ledger.(parted := s.ledger.parted + 1) else s.ledger, next)
    else if stage == 2 then Store(s, s.m.(connected := false), next)
    else if stage == 3 then Store(s, s.m.(cancelIo := false), next)
    else if stage == 4 then Store(s, s.m.(releasePending := false), next)
    else if stage == 5 then Effect(s.m.(recvPaused := false), s.k, Leak(s.ledger, s.m.recvPaused), next)
    else if stage == 6 then Store(s, s.m.(notified := false), next)
    else Store(s, s.m.(pool := Free), At(th, Rest))
  }

  function StepEffect(s: State, th: Thread, choice: bool): Effect
    requires !th.pc.Rest?
  {
    match th.pc
    case Gate(p) => GateStep(s, th, p)
    case Issue(p) => IssueStep(s, th, p, choice)
    case Decrement(ret) => DecrementStep(s, th, ret)
    case Signal(ret) => Same(s, At(th, TakePending(ret)))
    case TakePending(ret) => TakeStep(s, th, Back(ret))
    // a session without a socket has nothing to cancel but a pause
    case FindSocket(ret) => Same(s, At(th, if s.m.socket then Arm(ret) else DropPause(ret)))
    case Arm(ret) => ArmStep(s, th, ret)
    // CancelIoEx found nothing to cancel, or failed: CancelPendingIO returns at once
    case Sweep(ret) => Same(s, At(th, if choice then DropPause(ret) else Back(ret)))
    case DropPause(ret) => DropPauseStep(s, th, ret)
    case Decided => ReleaseCall(s, th)
    case Won => Same(s, At(th, if s.m.connected then FindSocket(ToRelease) else MarkPending))
    case MarkPending => Store(s, s.m.(releasePending := true), At(th, ReadCount))
    case ReadCount => Same(s, At(th, if s.m.ioCount != 0 then Rest else GrabPending))
    case GrabPending => TakeStep(s, th, Rest)
    case Finish(stage) => FinishStep(s, th, stage)
    case Leased => LeaseStep(s, th, choice)
    case Attached => LeaseStep(s, th, choice)
  }

  function Next(s: State, a: Action): State
    requires Enabled(s, a)
  {
    var e := match a
      case Start(t, call) => CallEffect(s, s.threads[t], call)
      case Step(t, choice) => StepEffect(s, s.threads[t], choice);
    State(e.m, e.k, s.threads[a.t := e.th], e.ledger)
  }

  ghost predicate Initial(s: State)
  {
    && s.m == Memory(0, false, false, false, false, false, false, Free)
    && s.k == Kernel(0, 0)
    && s.ledger == Ledger(0, false, 0, 0, 0, 0)
    && forall t :: 0 <= t < |s.threads| ==> s.threads[t] == Thread(0, false, NotConnecting, Rest)
  }

  // A schedule is a list of actions, each enabled where it happens.
  ghost predicate Runs(s: State, schedule: seq<Action>)
    decreases |schedule|
  {
    schedule == [] || (Enabled(s, schedule[0]) && Runs(Next(s, schedule[0]), schedule[1..]))
  }

  ghost function After(s: State, schedule: seq<Action>): State
    requires Runs(s, schedule)
    decreases |schedule|
  {
    if schedule == [] then s else After(Next(s, schedule[0]), schedule[1..])
  }

  lemma {:induction false} RunsExtend(s: State, schedule: seq<Action>, a: Action)
    requires Runs(s, schedule) && Enabled(After(s, schedule), a)
    ensures Runs(s, schedule + [a]) && After(s, schedule + [a]) == Next(After(s, schedule), a)
    decreases |schedule|
  {
    if schedule == [] {
      assert [a][1..] == [];
    } else {
      RunsExtend(Next(s, schedule[0]), schedule[1..], a);
      assert (schedule + [a])[1..] == schedule[1..] + [a];
    }
  }
}
