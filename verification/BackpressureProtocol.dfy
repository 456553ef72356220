/**
 One session's receive path and job path within a lease that is not being cancelled: completion
 threads parse packets into jobs and post the next receive or pause; workers drain the job queue and
 resume.  m_processing is the right to be scheduled, m_recvPaused carries the right to receive.
 Interlocked operations and queue-lock sections are single steps.
 */
module BackpressureProtocol {
  import opened Wire

  // A job is known by its packet.
  type Job = Packet

  // pause and resume levels of SessionBufferConfig; batch is the most packets one handler can parse,
  // a full ring of four-byte packets.
  datatype Config = Config(pause: nat, resume: nat, batch: nat)

  // A completion thread in HandleRecv; left counts packets it may still turn into jobs.
  datatype IoPc =
    | IoIdle
    | Parse(left: nat)
    | Schedule(left: nat)     // SubmitPacketJob: enqueued, before the m_processing exchange
    | Announce(left: nat)     // won it, before ReadySessionQueue::Push
    | Withdraw(left: nat)     // the ready queue was full
    | ReadDepth               // PostReceiveOrPause
    | Post
    | MarkPaused
    | RecheckDepth
    | IoClaim                 // depth read at or below the resume level, before the m_recvPaused exchange
    | IoResume

  // A worker in WorkerThreadLoop.
  datatype WkPc =
    | WkIdle
    | Drain
    | Run(job: Job)
    | Clear                   // before m_processing = 0
    | Look                    // before IsEmpty
    | Again                   // not empty, before the m_processing exchange
    | Requeue
    | Giveback
    | Peek                    // ResumeReceiveIfDrained: before reading m_recvPaused
    | WkDepth
    | WkClaim
    | WkResume

  datatype Shared = Shared(jobs: seq<Job>, processing: bool, ready: nat, paused: bool, posted: bool)

  // Bookkeeping: jobs in the order they were enqueued, and in the order they were run.
  datatype Log = Log(submitted: seq<Job>, executed: seq<Job>)

  datatype State = State(m: Shared, io: seq<IoPc>, wk: seq<WkPc>, log: Log)

  // full says what ReadySessionQueue::Push answers where a step pushes.
  datatype Action =
    | Complete(t: nat)
    | Submit(t: nat, job: Job)
    | StopParsing(t: nat)
    | Io(t: nat, full: bool)
    | Pop(t: nat)
    | Wk(t: nat, full: bool)

  predicate Enabled(c: Config, s: State, a: Action)
  {
    match a
    case Complete(t) => t < |s.io| && s.io[t].IoIdle? && s.m.posted
    case Submit(t, _) => t < |s.io| && s.io[t].Parse? && s.io[t].left > 0
    case StopParsing(t) => t < |s.io| && s.io[t].Parse?
    case Io(t, _) => t < |s.io| && !s.io[t].IoIdle? && !s.io[t].Parse?
    case Pop(t) => t < |s.wk| && s.wk[t].WkIdle? && s.m.ready > 0
    case Wk(t, _) => t < |s.wk| && !s.wk[t].WkIdle?
  }

  // The shared state and the pc a completion thread goes on to.
  function IoStep(c: Config, m: Shared, pc: IoPc, full: bool): (Shared, IoPc)
    requires !pc.IoIdle? && !pc.Parse?
  {
    match pc
    case Schedule(left) =>
      if m.processing then (m, Parse(left)) else (m.(processing := true), Announce(left))
    case Announce(left) =>
      if full then (m, Withdraw(left)) else (m.(ready := m.ready + 1), Parse(left))
    case Withdraw(left) => (m.(processing := false), Parse(left))
    case ReadDepth =>
      (m, if c.pause == 0 || |m.jobs| < c.pause then Post else MarkPaused)
    case Post => (m.(posted := true), IoIdle)
    case MarkPaused => (m.(paused := true), RecheckDepth)
    case RecheckDepth => (m, if |m.jobs| > c.resume then IoIdle else IoClaim)
    case IoClaim => if m.paused then (m.(paused := false), IoResume) else (m, IoIdle)
    case IoResume => (m.(posted := true), IoIdle)
  }

  function WkStep(c: Config, m: Shared, pc: WkPc, full: bool): (Shared, WkPc)
    requires !pc.WkIdle?
  {
    match pc
    case Drain => if m.jobs == [] then (m, Clear) else (m.(jobs := m.jobs[1..]), Run(m.jobs[0]))
    case Run(_) => (m, Drain)
    case Clear => (m.(processing := false), Look)
    case Look => (m, if m.jobs == [] then Peek else Again)
    case Again => if m.processing then (m, Peek) else (m.(processing := true), Requeue)
    case Requeue => if full then (m, Giveback) else (m.(ready := m.ready + 1), Peek)
    case Giveback => (m.(processing := false), Peek)
    case Peek => (m, if m.paused then WkDepth else WkIdle)
    case WkDepth => (m, if |m.jobs| > c.resume then WkIdle else WkClaim)
    case WkClaim => if m.paused then (m.(paused := false), WkResume) else (m, WkIdle)
    case WkResume => (m.(posted := true), WkIdle)
  }

  function Next(c: Config, s: State, a: Action): State
    requires Enabled(c, s, a)
  {
    match a
    case Complete(t) => State(s.m.(posted := false), s.io[t := Parse(c.batch)], s.wk, s.log)
    case Submit(t, job) =>
      State(s.m.(jobs := s.m.jobs + [job]), s.io[t := Schedule(s.io[t].left - 1)], s.wk,
            Log(s.log.submitted + [job], s.log.executed))
    case StopParsing(t) => State(s.m, s.io[t := ReadDepth], s.wk, s.log)
    case Io(t, full) =>
      var e := IoStep(c, s.m, s.io[t], full);
      State(e.0, s.io[t := e.1], s.wk, s.log)
    case Pop(t) => State(s.m.(ready := s.m.ready - 1), s.io, s.wk[t := Drain], s.log)
    case Wk(t, full) =>
      var e := WkStep(c, s.m, s.wk[t], full);
      State(e.0, s.io, s.wk[t := e.1],
            if s.wk[t].Run? then Log(s.log.submitted, s.log.executed + [s.wk[t].job]) else s.log)
  }

  // A push that finds the ready queue full.
  predicate PushFails(s: State, a: Action)
  {
    match a
    case Io(t, full) => full && t < |s.io| && s.io[t].Announce?
    case Wk(t, full) => full && t < |s.wk| && s.wk[t].Requeue?
    case _ => false
  }

  // Just connected: the first receive is posted and every thread is elsewhere.
  ghost predicate Initial(s: State)
  {
    && s.m == Shared([], false, 0, false, true) && s.log == Log([], [])
    && (forall t :: 0 <= t < |s.io| ==> s.io[t].IoIdle?)
    && (forall t :: 0 <= t < |s.wk| ==> s.wk[t].WkIdle?)
  }

  // A run in which no push finds the ready queue full.
  ghost predicate Runs(c: Config, s: State, schedule: seq<Action>)
    decreases |schedule|
  {
    schedule == [] ||
    (Enabled(c, s, schedule[0]) && !PushFails(s, schedule[0]) && Runs(c, Next(c, s, schedule[0]), schedule[1..]))
  }

  ghost function After(c: Config, s: State, schedule: seq<Action>): State
    requires Runs(c, s, schedule)
    decreases |schedule|
  {
    if schedule == [] then s else After(c, Next(c, s, schedule[0]), schedule[1..])
  }

  lemma {:induction false} RunsExtend(c: Config, s: State, schedule: seq<Action>, a: Action)
    requires Runs(c, s, schedule) && Enabled(c, After(c, s, schedule), a) && !PushFails(After(c, s, schedule), a)
    ensures Runs(c, s, schedule + [a]) && After(c, s, schedule + [a]) == Next(c, After(c, s, schedule), a)
    decreases |schedule|
  {
    if schedule == [] {
      assert [a][1..] == [];
    } else {
      RunsExtend(c, Next(c, s, schedule[0]), schedule[1..], a);
      assert (schedule + [a])[1..] == schedule[1..] + [a];
    }
  }
}
