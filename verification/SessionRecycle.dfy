/**
 When a pooled session may be handed out again.

 "The counter is zero" means nobody touches the session only if no thread is still parked, since the
 previous lease, between having seen zero and exchanging m_releasePending (or between deciding to
 release and the poolState exchange).  Leases handed out with nobody parked are safe in every
 continuation; a lease handed out past a parked thread can be finished under its lessee.
 */
module SessionRecycle {
  import opened Tally
  import opened SessionProtocol
  import opened SessionAccounting

  // Parked past its last look at the old lease.
  function Parked(th: Thread): nat
  {
    One(th.pc.Signal? || th.pc.TakePending? || th.pc.ReadCount? || th.pc.GrabPending? || th.pc.Decided?)
  }

  // Has seen the counter at zero and may enter, or is inside, CompleteRelease.  A drop inside the cancel
  // that Release called is not among them: it never finds the release pending.
  function Spent(th: Thread): nat
  {
    One(((th.pc.Signal? || th.pc.TakePending?) && th.pc.ret.ToCaller?) || th.pc.GrabPending? || th.pc.Finish?)
  }

  function Opening(th: Thread): nat { One(th.pc.Leased? || th.pc.Attached?) }

  function Receiving(th: Thread): nat { One(th.receiving) }

  function Lessee(th: Thread): nat { One(!th.connecting.NotConnecting? && !th.connecting.Told?) }

  function Announcing(th: Thread): nat { One(th.connecting.Marked?) }

  function PastNotify(th: Thread): nat { One(th.pc.Finish? && th.pc.stage >= 2) }

  function PastDisconnect(th: Thread): nat { One(th.pc.Finish? && th.pc.stage >= 3) }

  // What the thread table adds up to.
  datatype Sums = Sums(held: nat, baton: nat, parked: nat, spent: nat, opening: nat, receiving: nat,
                       lessee: nat, announcing: nat, pastNotify: nat, pastDisconnect: nat)

  function SumsOf(threads: seq<Thread>): Sums
  {
    Sums(Total(threads, Held), Total(threads, Baton), Total(threads, Parked), Total(threads, Spent),
         Total(threads, Opening), Total(threads, Receiving), Total(threads, Lessee),
         Total(threads, Announcing), Total(threads, PastNotify), Total(threads, PastDisconnect))
  }

  function Row(th: Thread): Sums
  {
    Sums(th.held, Baton(th), Parked(th), Spent(th), Opening(th), Receiving(th), Lessee(th),
         Announcing(th), PastNotify(th), PastDisconnect(th))
  }

  // after == z - old + new, component by component.
  ghost predicate Exchanged(z: Sums, old_: Sums, new_: Sums, after: Sums)
  {
    && after.held + old_.held == z.held + new_.held
    && after.baton + old_.baton == z.baton + new_.baton
    && after.parked + old_.parked == z.parked + new_.parked
    && after.spent + old_.spent == z.spent + new_.spent
    && after.opening + old_.opening == z.opening + new_.opening
    && after.receiving + old_.receiving == z.receiving + new_.receiving
    && after.lessee + old_.lessee == z.lessee + new_.lessee
    && after.announcing + old_.announcing == z.announcing + new_.announcing
    && after.pastNotify + old_.pastNotify == z.pastNotify + new_.pastNotify
    && after.pastDisconnect + old_.pastDisconnect == z.pastDisconnect + new_.pastDisconnect
  }

  // What holds of the sums because of how the rows are made, for all rows but one.
  ghost predicate Coherent(z: Sums, row: Sums)
  {
    && row.held <= z.held && row.baton <= z.baton && row.parked <= z.parked && row.spent <= z.spent
    && row.opening <= z.opening && row.receiving <= z.receiving && row.lessee <= z.lessee
    && row.announcing <= z.announcing && row.pastNotify <= z.pastNotify && row.pastDisconnect <= z.pastDisconnect
    && z.spent - row.spent <= z.parked - row.parked + z.baton - row.baton
    && z.receiving - row.receiving <= z.held - row.held
    && z.lessee - row.lessee <= z.held - row.held
    && z.announcing - row.announcing <= z.lessee - row.lessee
    && z.pastDisconnect - row.pastDisconnect <= z.pastNotify - row.pastNotify <= z.spent - row.spent
  }

  // A thread's own row in a run whose leases were all handed out clean.
  ghost predicate Orderly(th: Thread)
  {
    && (!th.connecting.NotConnecting? ==> th.held > 0)
    && (th.receiving ==> th.held > 0)
    && (th.connecting.Marked? ==> th.pc.Rest?)
    && ((th.pc.Leased? || th.pc.Attached?) ==> th.held == 0)
    && (th.pc.Gate? || th.pc.Issue? ==>
          if th.held == 1 then th.pc.purpose.Send? && !th.receiving && th.connecting.NotConnecting?
          else th.pc.purpose.Send? || th.receiving)
    && Placed(th)
  }

  ghost predicate GoodNumbers(m: Memory, k: Kernel, l: Ledger, z: Sums)
  {
    var units := z.held + k.recv + k.send + One(m.recvPaused);
    && l.leaked == 0 && m.ioCount == units
    && z.baton + One(m.releasePending) == One(m.pool.Releasing?)
    // nobody answers for a free or unsettled session, nor for one some thread saw at zero
    && (m.pool.Free? || !l.settled || z.spent > 0 ==> units == 0)
    && (m.pool.Free? ==> !m.connected && !m.notified)
    && (!m.pool.Free? && !l.settled ==>
          m.pool.InUse? && !m.connected && z.parked == 0 && z.opening == 1 && l.told == 0 && l.parted == 0)
    && (m.pool.Free? || l.settled ==> z.opening == 0)
    // at most one thread, completion or pause mark may post the next receive
    && k.recv + One(m.recvPaused) + z.receiving <= 1
    // the connect latch
    && l.told + z.lessee <= 1
    && One(m.notified) + l.parted == l.told + z.announcing
    && (units > 0 ==> l.parted == 0)
    && (l.parted > 0 && !m.pool.Free? ==> z.pastNotify > 0)
    && (z.pastNotify > 0 ==> !m.notified)
    && (z.pastDisconnect > 0 ==> !m.connected)
  }

  ghost predicate Good(s: State)
  {
    && GoodNumbers(s.m, s.k, s.ledger, SumsOf(s.threads))
    && (forall t :: 0 <= t < |s.threads| ==> Orderly(s.threads[t]))
  }

  ghost predicate Clean(threads: seq<Thread>)
  {
    forall t :: 0 <= t < |threads| ==> Parked(threads[t]) == 0
  }

  // CompleteRelease running while somebody still answers for the session.
  ghost predicate Overlap(s: State)
  {
    Units(s) > 0 && exists t :: 0 <= t < |s.threads| && s.threads[t].pc.Finish?
  }

  lemma SumsMove(threads: seq<Thread>, t: nat, th: Thread)
    requires t < |threads|
    ensures Exchanged(SumsOf(threads), Row(threads[t]), Row(th), SumsOf(threads[t := th]))
  {
    Update(threads, t, th, Held);
    Update(threads, t, th, Baton);
    Update(threads, t, th, Parked);
    Update(threads, t, th, Spent);
    Update(threads, t, th, Opening);
    Update(threads, t, th, Receiving);
    Update(threads, t, th, Lessee);
    Update(threads, t, th, Announcing);
    Update(threads, t, th, PastNotify);
    Update(threads, t, th, PastDisconnect);
  }

  lemma {:induction false} SumsBound(threads: seq<Thread>)
    requires forall t :: 0 <= t < |threads| ==> Orderly(threads[t])
    ensures var z := SumsOf(threads);
            && z.spent <= z.parked + z.baton
            && z.receiving <= z.held && z.lessee <= z.held
            && z.announcing <= z.lessee
            && z.pastDisconnect <= z.pastNotify <= z.spent
  {
    if threads != [] {
      SumsBound(threads[..|threads| - 1]);
    }
  }

  const BLANK := Thread(0, false, NotConnecting, Rest)

  lemma SumsCohere(threads: seq<Thread>, t: nat)
    requires t < |threads|
    requires forall u :: 0 <= u < |threads| ==> Orderly(threads[u])
    ensures Coherent(SumsOf(threads), Row(threads[t]))
  {
    SumsMove(threads, t, BLANK);
    SumsBound(threads[t := BLANK]);
  }

  // The sums before and after one thread's row is replaced, in a good state.
  ghost predicate Moving(s: State, z: Sums, th: Thread, e: Effect, after: Sums)
  {
    && GoodNumbers(s.m, s.k, s.ledger, z) && Orderly(th) && Coherent(z, Row(th))
    && Exchanged(z, Row(th), Row(e.th), after)
  }

  ghost predicate StaysGood(e: Effect, after: Sums)
  {
    Orderly(e.th) && GoodNumbers(e.m, e.k, e.ledger, after)
  }

  lemma LeaseCallStaysGood(s: State, z: Sums, th: Thread, call: Call, after: Sums)
    requires call.Acquire? || call.Open? || call.Mark? || call.Tell?
    requires MayStart(s, th, call) && (call.Acquire? ==> z.parked == 0)
    requires Moving(s, z, th, LeaseCall(s, th, call), after)
    ensures StaysGood(LeaseCall(s, th, call), after)
  {
  }

  lemma CompletionStaysGood(s: State, z: Sums, th: Thread, p: Purpose, after: Sums)
    requires MayStart(s, th, Complete(p)) && Moving(s, z, th, CompleteCall(s, th, p), after)
    ensures StaysGood(CompleteCall(s, th, p), after)
  {
  }

  lemma CountedStaysGood(s: State, z: Sums, th: Thread, p: Purpose, after: Sums)
    requires MayStart(s, th, BeginIO(p)) && Moving(s, z, th, TakeUnit(s, th, p), after)
    ensures StaysGood(TakeUnit(s, th, p), after)
  {
  }

  lemma ResumeStaysGood(s: State, z: Sums, th: Thread, after: Sums)
    requires MayStart(s, th, Resume) && Moving(s, z, th, ResumeCall(s, th), after)
    ensures StaysGood(ResumeCall(s, th), after)
  {
  }

  lemma UnheldStaysGood(s: State, z: Sums, th: Thread, after: Sums)
    requires MayStart(s, th, BeginIOUnheld) && !s.m.pool.Free? && s.ledger.settled && z.spent == 0
    requires Moving(s, z, th, TakeUnit(s, th, Send), after)
    ensures StaysGood(TakeUnit(s, th, Send), after)
  {
  }

  lemma CallStaysGood(s: State, z: Sums, th: Thread, call: Call, after: Sums)
    requires MayStart(s, th, call) && (call.Acquire? ==> z.parked == 0)
    requires call.BeginIOUnheld? ==> !s.m.pool.Free? && s.ledger.settled && z.spent == 0
    requires Moving(s, z, th, CallEffect(s, th, call), after)
    ensures StaysGood(CallEffect(s, th, call), after)
  {
    hide LeaseCall, TakeUnit, CompleteCall, ResumeCall;
    if call.Acquire? || call.Open? || call.Mark? || call.Tell? {
      LeaseCallStaysGood(s, z, th, call, after);
    } else if call.BeginIOUnheld? {
      UnheldStaysGood(s, z, th, after);
    } else if call.Complete? {
      CompletionStaysGood(s, z, th, call.purpose, after);
    } else if call.BeginIO? {
      CountedStaysGood(s, z, th, call.purpose, after);
    } else if call.Resume? {
      ResumeStaysGood(s, z, th, after);
    }
  }

  lemma LeaseStaysGood(s: State, z: Sums, th: Thread, choice: bool, after: Sums)
    requires th.pc.Leased? || th.pc.Attached?
    requires Moving(s, z, th, LeaseStep(s, th, choice), after)
    ensures StaysGood(LeaseStep(s, th, choice), after)
  {
  }

  lemma GateStaysGood(s: State, z: Sums, th: Thread, p: Purpose, after: Sums)
    requires th.pc == Gate(p) && Moving(s, z, th, GateStep(s, th, p), after)
    ensures StaysGood(GateStep(s, th, p), after)
  {
  }

  lemma IssueStaysGood(s: State, z: Sums, th: Thread, p: Purpose, choice: bool, after: Sums)
    requires th.pc == Issue(p) && Moving(s, z, th, IssueStep(s, th, p, choice), after)
    ensures StaysGood(IssueStep(s, th, p, choice), after)
  {
  }

  lemma DecrementStaysGood(s: State, z: Sums, th: Thread, ret: Return, after: Sums)
    requires th.pc == Decrement(ret) && Moving(s, z, th, DecrementStep(s, th, ret), after)
    ensures StaysGood(DecrementStep(s, th, ret), after)
  {
  }

  lemma TakeStaysGood(s: State, z: Sums, th: Thread, lost: Pc, after: Sums)
    requires (th.pc.TakePending? && lost == Back(th.pc.ret)) || (th.pc.GrabPending? && lost == Rest)
    requires Moving(s, z, th, TakeStep(s, th, lost), after)
    ensures StaysGood(TakeStep(s, th, lost), after)
  {
  }

  lemma ArmStaysGood(s: State, z: Sums, th: Thread, ret: Return, after: Sums)
    requires th.pc == Arm(ret) && Moving(s, z, th, ArmStep(s, th, ret), after)
    ensures StaysGood(ArmStep(s, th, ret), after)
  {
  }

  lemma DropPauseStaysGood(s: State, z: Sums, th: Thread, ret: Return, after: Sums)
    requires th.pc == DropPause(ret) && Moving(s, z, th, DropPauseStep(s, th, ret), after)
    ensures StaysGood(DropPauseStep(s, th, ret), after)
  {
  }

  lemma FinishStaysGood(s: State, z: Sums, th: Thread, stage: nat, after: Sums)
    requires th.pc == Finish(stage) && Moving(s, z, th, FinishStep(s, th, stage), after)
    ensures StaysGood(FinishStep(s, th, stage), after)
  {
  }

  lemma RequestStaysGood(s: State, z: Sums, th: Thread, choice: bool, after: Sums)
    requires th.pc.Signal? || th.pc.FindSocket? || th.pc.Sweep? || th.pc.Decided? || th.pc.Won? || th.pc.MarkPending?
             || th.pc.ReadCount?
    requires Moving(s, z, th, StepEffect(s, th, choice), after)
    ensures StaysGood(StepEffect(s, th, choice), after)
  {
  }

  lemma StepStaysGood(s: State, z: Sums, th: Thread, choice: bool, after: Sums)
    requires !th.pc.Rest? && Moving(s, z, th, StepEffect(s, th, choice), after)
    ensures StaysGood(StepEffect(s, th, choice), after)
  {
    hide LeaseStep, GateStep, IssueStep, DecrementStep, TakeStep, ArmStep, DropPauseStep, FinishStep, ReleaseCall, Moving, StaysGood;
    match th.pc {
      case Gate(p) => GateStaysGood(s, z, th, p, after);
      case Issue(p) => IssueStaysGood(s, z, th, p, choice, after);
      case Decrement(ret) => DecrementStaysGood(s, z, th, ret, after);
      case TakePending(ret) => TakeStaysGood(s, z, th, Back(ret), after);
      case GrabPending => TakeStaysGood(s, z, th, Rest, after);
      case Finish(stage) => FinishStaysGood(s, z, th, stage, after);
      case Leased => LeaseStaysGood(s, z, th, choice, after);
      case Attached => LeaseStaysGood(s, z, th, choice, after);
      case Arm(ret) => ArmStaysGood(s, z, th, ret, after);
      case DropPause(ret) => DropPauseStaysGood(s, z, th, ret, after);
      case _ => RequestStaysGood(s, z, th, choice, after);
    }
  }

  // The session is in somebody's hands: leased, with a lessee who has taken the first unit or gone, and
  // no thread that has seen the counter at zero since.
  ghost predicate Answered(s: State)
  {
    !s.m.pool.Free? && s.ledger.settled && Total(s.threads, Spent) == 0
  }

  // As it is whenever the counter is positive.
  lemma CountedIsAnswered(s: State)
    requires Good(s) && s.m.ioCount > 0
    ensures Answered(s)
  {
  }

  // A step that neither counts a unit for a session nobody answers for, nor hands the session out past a
  // parked thread.
  ghost predicate Tame(s: State, a: Action)
  {
    && (a.Start? && a.call.BeginIOUnheld? ==> Answered(s))
    && (a.Start? && a.call.Acquire? ==> Clean(s.threads))
  }

  ghost predicate TameRun(s: State, schedule: seq<Action>)
    decreases |schedule|
  {
    schedule == [] ||
    (Enabled(s, schedule[0]) && Tame(s, schedule[0]) && TameRun(Next(s, schedule[0]), schedule[1..]))
  }

  lemma {:induction false} TameExtend(s: State, schedule: seq<Action>, a: Action)
    requires TameRun(s, schedule) && Runs(s, schedule)
    requires Enabled(After(s, schedule), a) && Tame(After(s, schedule), a)
    ensures TameRun(s, schedule + [a]) && Runs(s, schedule + [a])
    ensures After(s, schedule + [a]) == Next(After(s, schedule), a)
    decreases |schedule|
  {
    if schedule == [] {
      assert [a][1..] == [];
    } else {
      TameExtend(Next(s, schedule[0]), schedule[1..], a);
      assert (schedule + [a])[1..] == schedule[1..] + [a];
    }
  }

  lemma GoodNext(s: State, a: Action)
    requires Good(s) && Enabled(s, a) && Tame(s, a)
    ensures Good(Next(s, a))
  {
    hide CallEffect, StepEffect, GoodNumbers, Coherent, Orderly, Exchanged;
    var th := s.threads[a.t];
    var after := SumsOf(Next(s, a).threads);
    SumsCohere(s.threads, a.t);
    SumsMove(s.threads, a.t, Next(s, a).threads[a.t]);
    match a {
      case Start(t, call) =>
        if call.Acquire? {
          Zero(s.threads, Parked);
        }
        CallStaysGood(s, SumsOf(s.threads), th, call, after);
      case Step(t, choice) =>
        StepStaysGood(s, SumsOf(s.threads), th, choice, after);
    }
  }

  lemma {:induction false} BlankSums(threads: seq<Thread>)
    requires forall t :: 0 <= t < |threads| ==> threads[t] == BLANK
    ensures SumsOf(threads) == Sums(0, 0, 0, 0, 0, 0, 0, 0, 0, 0)
  {
    if threads != [] {
      var last := |threads| - 1;
      SumsMove(threads, last, BLANK);
      BlankSums(threads[..last]);
      assert Row(threads[last]) == Sums(0, 0, 0, 0, 0, 0, 0, 0, 0, 0);
    }
  }

  lemma InitialGood(s: State)
    requires Initial(s)
    ensures Good(s)
  {
    hide SumsOf, GoodNumbers;
    BlankSums(s.threads);
    InitialNumbers(s.m, s.k, s.ledger);
    forall t | 0 <= t < |s.threads|
      ensures Orderly(s.threads[t])
    {
      assert s.threads[t] == BLANK;
    }
  }

  lemma InitialNumbers(m: Memory, k: Kernel, l: Ledger)
    requires m == Memory(0, false, false, false, false, false, false, Free)
    requires k == Kernel(0, 0) && l == Ledger(0, false, 0, 0, 0, 0)
    ensures GoodNumbers(m, k, l, Sums(0, 0, 0, 0, 0, 0, 0, 0, 0, 0))
  {
  }

  lemma {:induction false} GoodRun(s: State, schedule: seq<Action>)
    requires Good(s) && TameRun(s, schedule)
    ensures Runs(s, schedule) && Good(After(s, schedule))
    decreases |schedule|
  {
    if schedule != [] {
      GoodNext(s, schedule[0]);
      GoodRun(Next(s, schedule[0]), schedule[1..]);
    }
  }

  lemma NobodyInside(s: State)
    requires Good(s)
    ensures !Overlap(s)
  {
    if t :| 0 <= t < |s.threads| && s.threads[t].pc.Finish? {
      AtLeast(s.threads, t, Spent);
    }
  }

  // In runs whose leases are handed out clean: the counter is exactly the outstanding units, no
  // unit exists while CompleteRelease runs, and at most one party may post the next receive.
  lemma RecycleIsSafe(s0: State, schedule: seq<Action>)
    requires Initial(s0) && TameRun(s0, schedule)
    ensures Runs(s0, schedule)
    ensures var s := After(s0, schedule);
            && s.m.ioCount == Units(s)
            && !Overlap(s)
            && s.k.recv + One(s.m.recvPaused) + Total(s.threads, Receiving) <= 1
            && (s.m.pool.Free? ==> Units(s) == 0)
  {
    InitialGood(s0);
    GoodRun(s0, schedule);
    NobodyInside(After(s0, schedule));
  }

  // OnClientDisconnect is called as often as OnClientConnect in every lease that has ended, and
  // never more often while one lasts.
  lemma GoodbyesMatchHellos(s0: State, schedule: seq<Action>)
    requires Initial(s0) && TameRun(s0, schedule)
    ensures Runs(s0, schedule)
    ensures var s := After(s0, schedule);
            && s.ledger.parted <= s.ledger.told <= 1
            && (s.m.pool.Free? ==> s.ledger.parted == s.ledger.told)
  {
    InitialGood(s0);
    GoodRun(s0, schedule);
    var s := After(s0, schedule);
    LatchIsExact(s);
  }

  lemma LatchIsExact(s: State)
    requires Good(s)
    ensures s.ledger.parted <= s.ledger.told <= 1
    ensures s.m.pool.Free? ==> s.ledger.parted == s.ledger.told
  {
    SumsBound(s.threads);
  }
}
