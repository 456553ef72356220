/**
 What every step of the receive path and the job path keeps, and the wakeup arguments built on it:
 no job and no receive is ever left for nobody to pick up.
 */
module BackpressureInvariants {
  import opened Tally
  import opened BackpressureProtocol

  // Holding the scheduling right that m_processing == 1 stands for.
  function IoOwns(pc: IoPc): nat { One(pc.Announce? || pc.Withdraw?) }
  function WkOwns(pc: WkPc): nat { One(pc.Drain? || pc.Run? || pc.Clear? || pc.Requeue? || pc.Giveback?) }

  // Holding the right to post the next receive.
  function IoReceives(pc: IoPc): nat
  {
    One(!pc.IoIdle? && !pc.RecheckDepth? && !pc.IoClaim?)
  }
  function WkReceives(pc: WkPc): nat { One(pc.WkResume?) }

  // About to look at the queue or at m_processing on behalf of a job somebody enqueued.
  function IoSees(pc: IoPc): nat { One(pc.Schedule?) }
  function WkSees(pc: WkPc): nat { One(pc.Look? || pc.Again?) }

  // Will look at the pause mark again before leaving the session.
  function IoChecks(pc: IoPc): nat { One(pc.RecheckDepth? || pc.IoClaim?) }
  function WkChecks(pc: WkPc): nat { One(!pc.WkIdle? && !pc.WkResume?) }

  function IoFails(pc: IoPc): nat { One(pc.Withdraw?) }
  function WkFails(pc: WkPc): nat { One(pc.Giveback?) }

  function Running(pc: WkPc): nat { One(pc.Run?) }

  datatype Sums = Sums(owns: nat, receives: nat, sees: nat, checks: nat, fails: nat, running: nat)

  function SumsOf(io: seq<IoPc>, wk: seq<WkPc>): Sums
  {
    Sums(Total(io, IoOwns) + Total(wk, WkOwns), Total(io, IoReceives) + Total(wk, WkReceives),
         Total(io, IoSees) + Total(wk, WkSees), Total(io, IoChecks) + Total(wk, WkChecks),
         Total(io, IoFails) + Total(wk, WkFails), Total(wk, Running))
  }

  function IoRow(pc: IoPc): Sums
  {
    Sums(IoOwns(pc), IoReceives(pc), IoSees(pc), IoChecks(pc), IoFails(pc), 0)
  }

  function WkRow(pc: WkPc): Sums
  {
    Sums(WkOwns(pc), WkReceives(pc), WkSees(pc), WkChecks(pc), WkFails(pc), Running(pc))
  }

  ghost predicate Exchanged(z: Sums, before: Sums, now: Sums, after: Sums)
  {
    && after.owns + before.owns == z.owns + now.owns
    && after.receives + before.receives == z.receives + now.receives
    && after.sees + before.sees == z.sees + now.sees
    && after.checks + before.checks == z.checks + now.checks
    && after.fails + before.fails == z.fails + now.fails
    && after.running + before.running == z.running + now.running
    && before.owns <= z.owns && before.receives <= z.receives && before.sees <= z.sees
    && before.checks <= z.checks && before.fails <= z.fails && before.running <= z.running
  }

  lemma IoMoves(io: seq<IoPc>, wk: seq<WkPc>, t: nat, pc: IoPc)
    requires t < |io|
    ensures Exchanged(SumsOf(io, wk), IoRow(io[t]), IoRow(pc), SumsOf(io[t := pc], wk))
  {
    Update(io, t, pc, IoOwns);
    Update(io, t, pc, IoReceives);
    Update(io, t, pc, IoSees);
    Update(io, t, pc, IoChecks);
    Update(io, t, pc, IoFails);
    AtLeast(io, t, IoOwns);
    AtLeast(io, t, IoReceives);
    AtLeast(io, t, IoSees);
    AtLeast(io, t, IoChecks);
    AtLeast(io, t, IoFails);
  }

  lemma WkMoves(io: seq<IoPc>, wk: seq<WkPc>, t: nat, pc: WkPc)
    requires t < |wk|
    ensures Exchanged(SumsOf(io, wk), WkRow(wk[t]), WkRow(pc), SumsOf(io, wk[t := pc]))
  {
    Update(wk, t, pc, WkOwns);
    Update(wk, t, pc, WkReceives);
    Update(wk, t, pc, WkSees);
    Update(wk, t, pc, WkChecks);
    Update(wk, t, pc, WkFails);
    Update(wk, t, pc, Running);
    AtLeast(wk, t, WkOwns);
    AtLeast(wk, t, WkReceives);
    AtLeast(wk, t, WkSees);
    AtLeast(wk, t, WkChecks);
    AtLeast(wk, t, WkFails);
    AtLeast(wk, t, Running);
  }

  // One scheduling right, carried by the ready queue or by one thread, exactly while m_processing is
  // up; one receiving right, carried by the posted receive, the pause mark or one thread, always.
  ghost predicate Rights(m: Shared, z: Sums)
  {
    && z.owns + m.ready == One(m.processing)
    && One(m.posted) + One(m.paused) + z.receives == 1
  }

  // Jobs run in the order they were enqueued; one that a worker is running sits between the two parts.
  ghost predicate InOrder(m: Shared, wk: seq<WkPc>, log: Log, z: Sums)
  {
    && (z.running == 0 ==> log.executed + m.jobs == log.submitted)
    && (forall t :: 0 <= t < |wk| && wk[t].Run? ==> log.executed + [wk[t].job] + m.jobs == log.submitted)
  }

  ghost predicate Serial(s: State)
  {
    Rights(s.m, SumsOf(s.io, s.wk)) && InOrder(s.m, s.wk, s.log, SumsOf(s.io, s.wk))
  }

  // Nothing waits without somebody on the way to it.
  ghost predicate Awake(c: Config, m: Shared, z: Sums)
  {
    && z.fails == 0
    && (m.jobs != [] && !m.processing ==> z.sees > 0)
    && (m.paused && |m.jobs| <= c.resume ==> z.checks > 0)
  }

  ghost predicate Lively(c: Config, s: State)
  {
    Awake(c, s.m, SumsOf(s.io, s.wk))
  }

  lemma IoKeepsRights(c: Config, m: Shared, pc: IoPc, full: bool, z: Sums, after: Sums)
    requires !pc.IoIdle? && !pc.Parse? && Rights(m, z)
    requires Exchanged(z, IoRow(pc), IoRow(IoStep(c, m, pc, full).1), after)
    ensures Rights(IoStep(c, m, pc, full).0, after)
    ensures Awake(c, m, z) && !(full && pc.Announce?) ==> Awake(c, IoStep(c, m, pc, full).0, after)
  {
  }

  lemma WkKeepsRights(c: Config, m: Shared, pc: WkPc, full: bool, z: Sums, after: Sums)
    requires !pc.WkIdle? && Rights(m, z)
    requires Exchanged(z, WkRow(pc), WkRow(WkStep(c, m, pc, full).1), after)
    ensures Rights(WkStep(c, m, pc, full).0, after)
    ensures Awake(c, m, z) && !(full && pc.Requeue?) ==> Awake(c, WkStep(c, m, pc, full).0, after)
  {
  }

  // At most one worker runs a job at a time.
  lemma OneRunner(s: State, t: nat, u: nat)
    requires Serial(s) && t < |s.wk| && u < |s.wk| && WkOwns(s.wk[t]) == 1 && WkOwns(s.wk[u]) == 1
    ensures t == u
  {
    if t < u {
      AtLeastTwo(s.wk, t, u, WkOwns);
    } else if u < t {
      AtLeastTwo(s.wk, u, t, WkOwns);
    }
  }

  lemma DrainKeepsOrder(c: Config, s: State, t: nat, full: bool)
    requires Serial(s) && t < |s.wk| && s.wk[t].Drain?
    ensures var r := Next(c, s, Wk(t, full)); InOrder(r.m, r.wk, r.log, SumsOf(r.io, r.wk))
  {
    var r := Next(c, s, Wk(t, full));
    Update(s.wk, t, r.wk[t], Running);
    AtLeast(s.wk, t, Running);
    AtLeast(s.wk, t, WkOwns);
    NoOtherRuns(s, t);
    if s.m.jobs != [] {
      assert s.log.executed + [s.m.jobs[0]] + s.m.jobs[1..] == s.log.executed + s.m.jobs;
    }
    forall u | 0 <= u < |s.wk| && u != t
      ensures !s.wk[u].Run?
    {
      AtLeast(s.wk, u, Running);
    }
  }

  lemma WkKeepsOrder(c: Config, s: State, t: nat, full: bool)
    requires Serial(s) && t < |s.wk| && !s.wk[t].WkIdle?
    ensures var r := Next(c, s, Wk(t, full)); InOrder(r.m, r.wk, r.log, SumsOf(r.io, r.wk))
  {
    var r := Next(c, s, Wk(t, full));
    var pc := s.wk[t];
    if pc.Drain? {
      DrainKeepsOrder(c, s, t, full);
      return;
    }
    Update(s.wk, t, r.wk[t], Running);
    AtLeast(s.wk, t, Running);
    if pc.Run? {
      NoOtherRuns(s, t);
    }
    forall u | 0 <= u < |r.wk| && r.wk[u].Run?
      ensures r.log.executed + [r.wk[u].job] + r.m.jobs == r.log.submitted
    {
      if u != t {
        AtLeast(s.wk, u, Running);
        if WkOwns(pc) == 1 { OneRunner(s, t, u); }
      }
    }
  }

  // While t owns the session's turn, no other worker is running one of its jobs.
  lemma NoOtherRuns(s: State, t: nat)
    requires Serial(s) && t < |s.wk| && WkOwns(s.wk[t]) == 1
    ensures Total(s.wk, Running) == Running(s.wk[t])
  {
    var blanked := s.wk[t := WkIdle];
    Update(s.wk, t, WkIdle, Running);
    if Total(blanked, Running) > 0 {
      var u := Witness(blanked, Running);
      OneRunner(s, t, u);
    }
  }

  lemma SubmitKeepsOrder(s: State, job: Job)
    requires Serial(s)
    ensures InOrder(s.m.(jobs := s.m.jobs + [job]), s.wk, Log(s.log.submitted + [job], s.log.executed),
                    SumsOf(s.io, s.wk))
  {
    assert s.log.executed + (s.m.jobs + [job]) == s.log.executed + s.m.jobs + [job];
    forall u | 0 <= u < |s.wk| && s.wk[u].Run?
      ensures s.log.executed + [s.wk[u].job] + (s.m.jobs + [job]) == s.log.submitted + [job]
    {
      assert s.log.executed + [s.wk[u].job] + (s.m.jobs + [job]) == s.log.executed + [s.wk[u].job] + s.m.jobs + [job];
    }
  }

  // The conclusion shared by the cases below.
  ghost predicate StaysSerial(c: Config, s: State, a: Action)
    requires Enabled(c, s, a)
  {
    && Serial(Next(c, s, a))
    && (Lively(c, s) && !PushFails(s, a) ==> Lively(c, Next(c, s, a)))
  }

  lemma IoNextIsSerial(c: Config, s: State, t: nat, full: bool)
    requires Serial(s) && Enabled(c, s, Io(t, full))
    ensures StaysSerial(c, s, Io(t, full))
  {
    hide IoStep;
    var r := Next(c, s, Io(t, full));
    IoMoves(s.io, s.wk, t, r.io[t]);
    IoKeepsRights(c, s.m, s.io[t], full, SumsOf(s.io, s.wk), SumsOf(r.io, r.wk));
    IoLeavesJobs(c, s.m, s.io[t], full);
  }

  lemma WkNextIsSerial(c: Config, s: State, t: nat, full: bool)
    requires Serial(s) && Enabled(c, s, Wk(t, full))
    ensures StaysSerial(c, s, Wk(t, full))
  {
    hide WkStep, InOrder, Rights, Awake;
    var r := Next(c, s, Wk(t, full));
    WkMoves(s.io, s.wk, t, r.wk[t]);
    WkKeepsRights(c, s.m, s.wk[t], full, SumsOf(s.io, s.wk), SumsOf(r.io, r.wk));
    WkKeepsOrder(c, s, t, full);
  }

  lemma ParseNextIsSerial(c: Config, s: State, a: Action)
    requires Serial(s) && Enabled(c, s, a) && (a.Complete? || a.Submit? || a.StopParsing?)
    ensures StaysSerial(c, s, a)
  {
    IoMoves(s.io, s.wk, a.t, Next(c, s, a).io[a.t]);
    if a.Submit? {
      SubmitKeepsOrder(s, a.job);
    }
  }

  lemma PopNextIsSerial(c: Config, s: State, t: nat)
    requires Serial(s) && Enabled(c, s, Pop(t))
    ensures StaysSerial(c, s, Pop(t))
  {
    WkMoves(s.io, s.wk, t, Drain);
  }

  lemma NextIsSerial(c: Config, s: State, a: Action)
    requires Serial(s) && Enabled(c, s, a)
    ensures StaysSerial(c, s, a)
  {
    hide StaysSerial, Serial, Next;
    match a {
      case Io(t, full) => IoNextIsSerial(c, s, t, full);
      case Wk(t, full) => WkNextIsSerial(c, s, t, full);
      case Pop(t) => PopNextIsSerial(c, s, t);
      case _ => ParseNextIsSerial(c, s, a);
    }
  }

  lemma IoLeavesJobs(c: Config, m: Shared, pc: IoPc, full: bool)
    requires !pc.IoIdle? && !pc.Parse?
    ensures IoStep(c, m, pc, full).0.jobs == m.jobs
  {
  }

  lemma InitialIsSerial(c: Config, s: State)
    requires Initial(s)
    ensures Serial(s) && Lively(c, s)
  {
    Zero(s.io, IoOwns);
    Zero(s.io, IoReceives);
    Zero(s.io, IoFails);
    Zero(s.wk, WkOwns);
    Zero(s.wk, WkReceives);
    Zero(s.wk, WkFails);
    Zero(s.wk, Running);
  }

  lemma {:induction false} RunIsSerial(c: Config, s: State, schedule: seq<Action>)
    requires Serial(s) && Lively(c, s) && Runs(c, s, schedule)
    ensures Serial(After(c, s, schedule)) && Lively(c, After(c, s, schedule))
    decreases |schedule|
  {
    if schedule != [] {
      NextIsSerial(c, s, schedule[0]);
      RunIsSerial(c, Next(c, s, schedule[0]), schedule[1..]);
    }
  }

  // Every completion thread is out of the session, every worker too, and nothing is scheduled.
  ghost predicate Quiescent(s: State)
  {
    && s.m.ready == 0
    && (forall t :: 0 <= t < |s.io| ==> s.io[t].IoIdle?)
    && (forall t :: 0 <= t < |s.wk| ==> s.wk[t].WkIdle?)
  }

  // No lost job and no lost resume: whenever the dust settles, the queue is empty, nobody owns the
  // session's turn, the session is not paused and its one receive is posted; and every job enqueued
  // has been run, in order.
  lemma NothingIsStranded(c: Config, s0: State, schedule: seq<Action>)
    requires Initial(s0) && Runs(c, s0, schedule) && Quiescent(After(c, s0, schedule))
    ensures var s := After(c, s0, schedule);
            s.m == Shared([], false, 0, false, true) && s.log.executed == s.log.submitted
  {
    InitialIsSerial(c, s0);
    RunIsSerial(c, s0, schedule);
    QuietMeansDone(c, After(c, s0, schedule));
  }

  lemma CompletersAtRest(s: State)
    requires Quiescent(s)
    ensures Total(s.io, IoOwns) == Total(s.io, IoReceives) == Total(s.io, IoSees) == Total(s.io, IoChecks) == 0
  {
    hide Total;
    Zero(s.io, IoOwns);
    Zero(s.io, IoReceives);
    Zero(s.io, IoSees);
    Zero(s.io, IoChecks);
  }

  lemma WorkersAtRest(s: State)
    requires Quiescent(s)
    ensures Total(s.wk, WkOwns) == Total(s.wk, WkReceives) == Total(s.wk, WkSees) == Total(s.wk, WkChecks) == 0
    ensures Total(s.wk, Running) == 0
  {
    hide Total;
    Zero(s.wk, WkOwns);
    Zero(s.wk, WkReceives);
    Zero(s.wk, WkSees);
    Zero(s.wk, WkChecks);
    Zero(s.wk, Running);
  }

  lemma QuietMeansDone(c: Config, s: State)
    requires Serial(s) && Lively(c, s) && Quiescent(s)
    ensures s.m == Shared([], false, 0, false, true) && s.log.executed == s.log.submitted
  {
    hide Total;
    CompletersAtRest(s);
    WorkersAtRest(s);
  }

  // Serialisation: the session is in the ready queue at most once, and not at all while a worker is
  // draining it; at most one worker drains; at most one party may post the next receive.
  lemma OneTurnOneReceive(c: Config, s0: State, schedule: seq<Action>)
    requires Initial(s0) && Runs(c, s0, schedule)
    ensures var s := After(c, s0, schedule);
            && s.m.ready <= 1
            && (forall t, u :: 0 <= t < u < |s.wk| ==> !(WkOwns(s.wk[t]) == 1 && WkOwns(s.wk[u]) == 1))
            && (forall t :: 0 <= t < |s.wk| && WkOwns(s.wk[t]) == 1 ==> s.m.ready == 0)
            && One(s.m.posted) + One(s.m.paused) + Total(s.io, IoReceives) + Total(s.wk, WkReceives) == 1
            && s.log.executed <= s.log.submitted
  {
    var s := After(c, s0, schedule);
    InitialIsSerial(c, s0);
    RunIsSerial(c, s0, schedule);
    forall t, u | 0 <= t < u < |s.wk|
      ensures !(WkOwns(s.wk[t]) == 1 && WkOwns(s.wk[u]) == 1)
    {
      AtLeastTwo(s.wk, t, u, WkOwns);
    }
    forall t | 0 <= t < |s.wk| && WkOwns(s.wk[t]) == 1
      ensures s.m.ready == 0
    {
      AtLeast(s.wk, t, WkOwns);
    }
    ExecutedIsPrefix(s);
  }

  lemma ExecutedIsPrefix(s: State)
    requires Serial(s)
    ensures s.log.executed <= s.log.submitted
  {
    if Total(s.wk, Running) > 0 {
      var t := Witness(s.wk, Running);
      assert s.log.executed + [s.wk[t].job] + s.m.jobs == s.log.submitted;
    }
  }
}
