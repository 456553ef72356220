/**
 The exact price of handing a session out again: the lease is safe in every continuation if and only
 if no thread was still parked at the session when ClientSessionPool::Acquire took it.
 */
module LeaseHandout {
  import opened Tally
  import opened SessionProtocol
  import opened SessionAccounting
  import opened SessionRecycle

  predicate IsHandout(a: Action) { a.Start? && a.call.Acquire? }

  predicate IsUnheld(a: Action) { a.Start? && a.call.BeginIOUnheld? }

  // Steps of the lease that has just begun, in which a thread without a unit counts one only while
  // somebody answers for the session.
  ghost predicate WithinLease(s: State, schedule: seq<Action>)
  {
    TameRun(s, schedule) && forall i :: 0 <= i < |schedule| ==> !IsHandout(schedule[i])
  }

  ghost predicate SafeFromHere(s: State)
  {
    forall schedule :: Runs(s, schedule) && WithinLease(s, schedule) ==> !Overlap(After(s, schedule))
  }

  lemma CleanHandoutIsSafe(s: State, t: nat)
    requires Good(s) && Enabled(s, Start(t, Acquire)) && Clean(s.threads)
    ensures SafeFromHere(Next(s, Start(t, Acquire)))
  {
    var s1 := Next(s, Start(t, Acquire));
    GoodNext(s, Start(t, Acquire));
    forall schedule | Runs(s1, schedule) && WithinLease(s1, schedule)
      ensures !Overlap(After(s1, schedule))
    {
      GoodRun(s1, schedule);
      NobodyInside(After(s1, schedule));
    }
  }

  // One more step of a run under construction.
  lemma OneMore(s: State, schedule: seq<Action>, a: Action) returns (longer: seq<Action>)
    requires Runs(s, schedule) && WithinLease(s, schedule)
    requires Enabled(After(s, schedule), a) && !IsHandout(a) && !IsUnheld(a)
    ensures Runs(s, longer) && WithinLease(s, longer) && After(s, longer) == Next(After(s, schedule), a)
  {
    longer := schedule + [a];
    TameExtend(s, schedule, a);
  }

  // A lease whose lessee t has not counted yet: nobody else answers for the session.
  ghost predicate Fresh(s: State, t: nat)
  {
    && t < |s.threads| && (s.threads[t].pc.Leased? || s.threads[t].pc.Attached?)
    && s.threads[t] == Thread(0, false, NotConnecting, s.threads[t].pc)
    && s.m.ioCount == 0 && !s.m.releasePending && !s.m.connected && s.m.pool.InUse?
  }

  // The lessee takes its unit.
  lemma LesseeCounts(s: State, s1: State, t: nat, so: seq<Action>) returns (schedule: seq<Action>)
    requires Runs(s, so) && WithinLease(s, so) && After(s, so) == s1 && Fresh(s1, t)
    ensures Runs(s, schedule) && WithinLease(s, schedule)
    ensures var e := After(s, schedule);
            && (e.m == s1.m.(socket := true, ioCount := 1) || e.m == s1.m.(ioCount := 1))
            && |e.threads| == |s1.threads| && e.threads[t] == Thread(1, true, Guarded, Rest)
            && (forall u :: 0 <= u < |e.threads| && u != t ==> e.threads[u] == s1.threads[u])
  {
    hide Runs, After, WithinLease;
    schedule := so;
    if s1.threads[t].pc.Leased? {
      schedule := OneMore(s, schedule, Step(t, true));
    }
    schedule := OneMore(s, schedule, Step(t, true));
  }

  // And gives up before connecting, and leaves the release pending on it.
  lemma LesseeLeavesPending(s: State, s1: State, t: nat, so: seq<Action>) returns (schedule: seq<Action>)
    requires Runs(s, so) && WithinLease(s, so) && After(s, so) == s1 && Fresh(s1, t)
    ensures Runs(s, schedule) && WithinLease(s, schedule)
    ensures var e := After(s, schedule);
            && e.m.releasePending && |e.threads| == |s1.threads|
            && e.threads[t].held == 1
            && (forall u :: 0 <= u < |e.threads| && u != t ==> e.threads[u] == s1.threads[u])
  {
    hide Runs, After, WithinLease;
    schedule := LesseeCounts(s, s1, t, so);
    schedule := OneMore(s, schedule, Start(t, Release));
    schedule := OneMore(s, schedule, Step(t, true));
    schedule := OneMore(s, schedule, Step(t, true));
    schedule := OneMore(s, schedule, Step(t, true));
  }

  lemma FinishOverUnit(s: State, t: nat, k: nat)
    requires t < |s.threads| && k < |s.threads| && s.threads[t].held > 0 && s.threads[k].pc.Finish?
    ensures Overlap(s)
  {
    AtLeast(s.threads, t, Held);
  }

  // Has seen the counter at zero and looks for a pending release next.
  predicate Stale(th: Thread) { th.pc.Signal? || th.pc.TakePending? || th.pc.GrabPending? }

  // It takes the release pending on another thread's unit for its own.
  lemma PendingIsTaken(s: State, schedule: seq<Action>, h: nat, k: nat)
    requires Runs(s, schedule) && WithinLease(s, schedule)
    requires h < |After(s, schedule).threads| && k < |After(s, schedule).threads| && h != k
    requires After(s, schedule).m.releasePending && After(s, schedule).threads[h].held > 0
    requires Stale(After(s, schedule).threads[k])
    ensures !SafeFromHere(s)
  {
    hide Runs, After, WithinLease;
    var longer := schedule;
    if After(s, schedule).threads[k].pc.Signal? {
      longer := OneMore(s, longer, Step(k, true));
    }
    longer := OneMore(s, longer, Step(k, true));
    FinishOverUnit(After(s, longer), h, k);
  }

  // A thread past its look at zero takes the next lease's pending release for its own.
  lemma StaleLookTakesOver(s: State, t: nat, k: nat, so: seq<Action>, s1: State)
    requires Runs(s, so) && WithinLease(s, so) && After(s, so) == s1 && Fresh(s1, t)
    requires k < |s1.threads| && k != t && Stale(s1.threads[k])
    ensures !SafeFromHere(s)
  {
    hide Runs, After, WithinLease;
    var schedule := LesseeLeavesPending(s, s1, t, so);
    PendingIsTaken(s, schedule, t, k);
  }

  lemma NoStepsYet(s: State)
    ensures Runs(s, []) && WithinLease(s, []) && After(s, []) == s
  {
  }

  // A thread that reads the counter before the new lessee counts sees zero in the new lease.
  lemma StaleReadTakesOver(s: State, t: nat, k: nat)
    requires Fresh(s, t) && k < |s.threads| && k != t && s.threads[k].pc.ReadCount?
    ensures !SafeFromHere(s)
  {
    hide Runs, After, WithinLease;
    NoStepsYet(s);
    var schedule := OneMore(s, [], Step(k, true));
    StaleLookTakesOver(s, t, k, schedule, After(s, schedule));
  }

  // A release decided in the old lease finds the new one in use and no unit to wait for.
  lemma StaleDecisionFindsZero(s: State, t: nat, k: nat) returns (schedule: seq<Action>)
    requires Fresh(s, t) && k < |s.threads| && k != t && s.threads[k].pc.Decided?
    ensures Runs(s, schedule) && WithinLease(s, schedule)
    ensures var e := After(s, schedule);
            && |e.threads| == |s.threads| && e.threads[k].pc.GrabPending? && e.threads[t] == s.threads[t]
            && e.m.releasePending
  {
    NoStepsYet(s);
    hide Runs, After, WithinLease;
    schedule := OneMore(s, [], Step(k, true));
    schedule := OneMore(s, schedule, Step(k, true));
    schedule := OneMore(s, schedule, Step(k, true));
    schedule := OneMore(s, schedule, Step(k, true));
  }

  // The lessee counts, and the decider finishes the lease under it.
  lemma StaleDecisionTakesOver(s: State, t: nat, k: nat)
    requires Fresh(s, t) && k < |s.threads| && k != t && s.threads[k].pc.Decided?
    ensures !SafeFromHere(s)
  {
    hide Runs, After, WithinLease;
    var schedule := StaleDecisionFindsZero(s, t, k);
    if s.threads[t].pc.Leased? {
      schedule := OneMore(s, schedule, Step(t, true));
    }
    schedule := OneMore(s, schedule, Step(t, true));
    PendingIsTaken(s, schedule, t, k);
  }

  lemma ParkedThreadTakesOver(s: State, t: nat, k: nat)
    requires Fresh(s, t) && k < |s.threads| && Parked(s.threads[k]) > 0
    ensures !SafeFromHere(s)
  {
    if s.threads[k].pc.Decided? {
      StaleDecisionTakesOver(s, t, k);
    } else if s.threads[k].pc.ReadCount? {
      StaleReadTakesOver(s, t, k);
    } else {
      NoStepsYet(s);
      StaleLookTakesOver(s, t, k, [], s);
    }
  }

  lemma HandoutIsFresh(s: State, t: nat)
    requires Good(s) && Enabled(s, Start(t, Acquire))
    ensures var s1 := Next(s, Start(t, Acquire));
            Fresh(s1, t) && |s1.threads| == |s.threads| && forall k :: 0 <= k < |s.threads| && k != t ==> s1.threads[k] == s.threads[k]
  {
  }

  lemma HandoutIsSafeIffCleanHere(s: State, t: nat)
    requires Good(s) && Enabled(s, Start(t, Acquire))
    ensures SafeFromHere(Next(s, Start(t, Acquire))) <==> Clean(s.threads)
  {
    hide Good, Next, SafeFromHere, Fresh;
    HandoutIsFresh(s, t);
    if Clean(s.threads) {
      CleanHandoutIsSafe(s, t);
    } else {
      var k :| 0 <= k < |s.threads| && Parked(s.threads[k]) != 0;
      ParkedThreadTakesOver(Next(s, Start(t, Acquire)), t, k);
    }
  }

  // A node handed out to a thread, after any run whose earlier leases were handed out clean, is safe
  // in every continuation of the lease exactly when no thread was parked at it.
  lemma HandoutIsSafeIffClean(s0: State, schedule: seq<Action>, t: nat)
    requires Initial(s0) && TameRun(s0, schedule) && Runs(s0, schedule)
    requires Enabled(After(s0, schedule), Start(t, Acquire))
    ensures SafeFromHere(Next(After(s0, schedule), Start(t, Acquire))) <==> Clean(After(s0, schedule).threads)
  {
    InitialGood(s0);
    GoodRun(s0, schedule);
    HandoutIsSafeIffCleanHere(After(s0, schedule), t);
  }

  // --- Everything a lease relies on ------------------------------------------------------------------

  // The counter is the units outstanding, none is outstanding while CompleteRelease runs or the node is
  // free, one party at most may post the next receive, and the service is told goodbye at most as often
  // as hello, exactly as often once the node is free.
  ghost predicate LeaseIsWell(s: State)
  {
    && !Overlap(s) && s.m.ioCount == Units(s) && (s.m.pool.Free? ==> Units(s) == 0)
    && s.k.recv + One(s.m.recvPaused) + Total(s.threads, Receiving) <= 1
    && s.ledger.parted <= s.ledger.told <= 1 && (s.m.pool.Free? ==> s.ledger.parted == s.ledger.told)
  }

  ghost predicate WellFromHere(s: State)
  {
    forall schedule :: Runs(s, schedule) && WithinLease(s, schedule) ==> LeaseIsWell(After(s, schedule))
  }

  lemma GoodIsWell(s: State)
    requires Good(s)
    ensures LeaseIsWell(s)
  {
    hide Good, Overlap, Units, Total;
    NobodyInside(s);
    CountsUnits(s);
    LatchIsExact(s);
  }

  lemma CountsUnits(s: State)
    requires Good(s)
    ensures s.m.ioCount == Units(s) && s.k.recv + One(s.m.recvPaused) + Total(s.threads, Receiving) <= 1
    ensures s.m.pool.Free? ==> Units(s) == 0
  {
  }

  // A hand-out keeps all of that in every continuation of the lease exactly when no thread was parked.
  lemma HandoutIsWellIffClean(s0: State, schedule: seq<Action>, t: nat)
    requires Initial(s0) && TameRun(s0, schedule) && Runs(s0, schedule)
    requires Enabled(After(s0, schedule), Start(t, Acquire))
    ensures WellFromHere(Next(After(s0, schedule), Start(t, Acquire))) <==> Clean(After(s0, schedule).threads)
  {
    hide Good, Next, Initial, TameRun, Clean, LeaseIsWell;
    var s := After(s0, schedule);
    var r := Next(s, Start(t, Acquire));
    HandoutIsSafeIffClean(s0, schedule, t);
    InitialGood(s0);
    GoodRun(s0, schedule);
    if Clean(s.threads) {
      CleanNext(s, t);
      forall more | Runs(r, more) && WithinLease(r, more) ensures LeaseIsWell(After(r, more)) {
        GoodRun(r, more);
        GoodIsWell(After(r, more));
      }
    } else if WellFromHere(r) {
      WellIsSafe(r);
    }
  }

  lemma CleanNext(s: State, t: nat)
    requires Good(s) && Enabled(s, Start(t, Acquire)) && Clean(s.threads)
    ensures Good(Next(s, Start(t, Acquire)))
  {
    GoodNext(s, Start(t, Acquire));
  }

  lemma WellIsSafe(s: State)
    requires WellFromHere(s)
    ensures SafeFromHere(s)
  {
  }

  // The other side is not vacuous: three threads are enough to hand a session out past a parked one.
  const THREE := [BLANK, BLANK, BLANK]
  const START := State(Memory(0, false, false, false, false, false, false, Free), Kernel(0, 0), THREE,
                       Ledger(0, false, 0, 0, 0, 0))

  lemma Further(schedule: seq<Action>, a: Action) returns (longer: seq<Action>)
    requires TameRun(START, schedule) && Runs(START, schedule)
    requires Enabled(After(START, schedule), a) && !IsHandout(a) && !IsUnheld(a)
    ensures TameRun(START, longer) && Runs(START, longer)
    ensures After(START, longer) == Next(After(START, schedule), a)
  {
    longer := schedule + [a];
    TameExtend(START, schedule, a);
  }

  // Thread 0 leases, connects and drops the last unit; thread 1 had decided to release the session.
  lemma LastUnitDropped() returns (schedule: seq<Action>)
    ensures TameRun(START, schedule) && Runs(START, schedule)
    ensures After(START, schedule)
         == State(Memory(0, false, false, false, true, true, false, InUse), Kernel(0, 0),
                  [Thread(0, false, NotConnecting, Signal(ToCaller)), Thread(0, false, NotConnecting, Decided), BLANK],
                  Ledger(1, true, 0, 0, 0, 0))
  {
    hide TameRun, Runs, After;
    schedule := [Start(0, Acquire)];
    AcquireFirst();
    schedule := Further(schedule, Step(0, true));
    schedule := Further(schedule, Step(0, true));
    schedule := Further(schedule, Start(0, Open));
    schedule := Further(schedule, Start(1, Decide));
    schedule := Further(schedule, Start(0, Drop));
    schedule := Further(schedule, Step(0, true));
  }

  lemma AcquireFirst()
    ensures TameRun(START, [Start(0, Acquire)]) && Runs(START, [Start(0, Acquire)])
    ensures After(START, [Start(0, Acquire)])
         == State(Memory(0, false, false, false, false, false, false, InUse), Kernel(0, 0),
                  [Thread(0, false, NotConnecting, Leased), BLANK, BLANK], Ledger(1, false, 0, 0, 0, 0))
  {
    TameExtend(START, [], Start(0, Acquire));
    assert [] + [Start(0, Acquire)] == [Start(0, Acquire)];
  }

  // Thread 1 finds the counter at zero and wins the pending release before thread 0 moves.
  lemma ReleasedUnderneath() returns (schedule: seq<Action>)
    ensures TameRun(START, schedule) && Runs(START, schedule)
    ensures After(START, schedule)
         == State(Memory(0, true, false, false, true, true, false, Releasing), Kernel(0, 0),
                  [Thread(0, false, NotConnecting, Signal(ToCaller)), Thread(0, false, NotConnecting, Finish(0)), BLANK],
                  Ledger(1, true, 1, 0, 0, 0))
  {
    hide TameRun, Runs, After;
    schedule := LastUnitDropped();
    schedule := Further(schedule, Step(1, true));
    schedule := Further(schedule, Step(1, true));
    schedule := Further(schedule, Step(1, true));
    schedule := Further(schedule, Step(1, true));
    schedule := Further(schedule, Step(1, false));
    schedule := Further(schedule, Step(1, true));
    schedule := Further(schedule, Step(1, true));
    schedule := Further(schedule, Step(1, true));
  }

  lemma FreedUnderneath() returns (schedule: seq<Action>)
    ensures TameRun(START, schedule) && Runs(START, schedule)
    ensures After(START, schedule)
         == State(Memory(0, false, false, false, false, false, false, Free), Kernel(0, 0),
                  [Thread(0, false, NotConnecting, Signal(ToCaller)), BLANK, BLANK], Ledger(1, true, 1, 0, 0, 0))
  {
    hide TameRun, Runs, After;
    schedule := ReleasedUnderneath();
    schedule := Further(schedule, Step(1, true));
    schedule := Further(schedule, Step(1, true));
    schedule := Further(schedule, Step(1, true));
    schedule := Further(schedule, Step(1, true));
    schedule := Further(schedule, Step(1, true));
    schedule := Further(schedule, Step(1, true));
    schedule := Further(schedule, Step(1, true));
    schedule := Further(schedule, Step(1, true));
  }

  // So "no unit exists while CompleteRelease runs" does not hold of every run.
  lemma ParkedHandoutHappens()
    ensures exists schedule ::
      TameRun(START, schedule) && Runs(START, schedule) && Enabled(After(START, schedule), Start(2, Acquire))
      && !SafeFromHere(Next(After(START, schedule), Start(2, Acquire)))
  {
    var schedule := FreedUnderneath();
    assert Parked(After(START, schedule).threads[0]) == 1;
    HandoutIsSafeIffClean(START, schedule, 2);
  }

  // --- And a service that is told hello but never goodbye ---------------------------------------------

  // The node handed out to thread 2 while thread 0 is parked at it.
  const HANDED := State(Memory(0, false, false, false, false, false, false, InUse), Kernel(0, 0),
                        [Thread(0, false, NotConnecting, Signal(ToCaller)), BLANK, Thread(0, false, NotConnecting, Leased)],
                        Ledger(2, false, 0, 0, 0, 0))

  // Thread 2 connects; thread 1 decides to release the session.
  lemma DecidedOnLessee() returns (lease: seq<Action>)
    ensures Runs(HANDED, lease) && WithinLease(HANDED, lease)
    ensures After(HANDED, lease)
         == State(Memory(1, true, false, false, true, true, false, Releasing), Kernel(0, 0),
                  [Thread(0, false, NotConnecting, Signal(ToCaller)), Thread(0, false, NotConnecting, Sweep(ToRelease)),
                   Thread(1, true, Opened, Rest)],
                  Ledger(2, true, 0, 0, 0, 0))
  {
    hide Runs, After, WithinLease;
    lease := LesseeConnects();
    lease := OneMore(HANDED, lease, Start(1, Decide));
    lease := OneMore(HANDED, lease, Step(1, true));
    lease := OneMore(HANDED, lease, Step(1, true));
    lease := OneMore(HANDED, lease, Step(1, true));
    lease := OneMore(HANDED, lease, Step(1, true));
  }

  // It leaves that pending on the lessee's unit.
  lemma LeftPendingOnLessee() returns (lease: seq<Action>)
    ensures Runs(HANDED, lease) && WithinLease(HANDED, lease)
    ensures After(HANDED, lease)
         == State(Memory(1, true, true, false, true, true, false, Releasing), Kernel(0, 0),
                  [Thread(0, false, NotConnecting, Signal(ToCaller)), BLANK, Thread(1, true, Opened, Rest)],
                  Ledger(2, true, 0, 0, 0, 0))
  {
    hide Runs, After, WithinLease;
    lease := DecidedOnLessee();
    lease := OneMore(HANDED, lease, Step(1, false));
    lease := OneMore(HANDED, lease, Step(1, true));
    lease := OneMore(HANDED, lease, Step(1, true));
  }

  lemma LesseeConnects() returns (lease: seq<Action>)
    ensures Runs(HANDED, lease) && WithinLease(HANDED, lease)
    ensures After(HANDED, lease)
         == State(Memory(1, false, false, false, true, true, false, InUse), Kernel(0, 0),
                  [Thread(0, false, NotConnecting, Signal(ToCaller)), BLANK, Thread(1, true, Opened, Rest)],
                  Ledger(2, true, 0, 0, 0, 0))
  {
    lease := [];
    assert Runs(HANDED, lease) && After(HANDED, lease) == HANDED && WithinLease(HANDED, lease);
    hide Runs, After, WithinLease;
    lease := OneMore(HANDED, lease, Step(2, true));
    lease := OneMore(HANDED, lease, Step(2, true));
    lease := OneMore(HANDED, lease, Start(2, Open));
  }

  // The parked thread finishes that release while thread 2 is still connecting.
  lemma FinishedUnderLessee() returns (lease: seq<Action>)
    ensures Runs(HANDED, lease) && WithinLease(HANDED, lease)
    ensures After(HANDED, lease)
         == State(Memory(1, false, false, false, false, false, false, Free), Kernel(0, 0),
                  [BLANK, BLANK, Thread(1, true, Opened, Rest)], Ledger(2, true, 1, 0, 0, 0))
  {
    hide Runs, After, WithinLease;
    lease := LeftPendingOnLessee();
    lease := OneMore(HANDED, lease, Step(0, true));
    lease := OneMore(HANDED, lease, Step(0, true));
    lease := OneMore(HANDED, lease, Step(0, true));
    lease := OneMore(HANDED, lease, Step(0, true));
    lease := OneMore(HANDED, lease, Step(0, true));
    lease := OneMore(HANDED, lease, Step(0, true));
    lease := OneMore(HANDED, lease, Step(0, true));
    lease := OneMore(HANDED, lease, Step(0, true));
    lease := OneMore(HANDED, lease, Step(0, true));
    lease := OneMore(HANDED, lease, Step(0, true));
  }

  // OnClientConnect is called and OnClientDisconnect is not, in a lease that has ended.
  lemma HelloWithoutGoodbye() returns (handout: seq<Action>, lease: seq<Action>)
    ensures TameRun(START, handout) && Runs(START, handout) && Enabled(After(START, handout), Start(2, Acquire))
    ensures var r := Next(After(START, handout), Start(2, Acquire));
            && Runs(r, lease) && WithinLease(r, lease)
            && After(r, lease).m.pool.Free? && After(r, lease).ledger.told == 1 && After(r, lease).ledger.parted == 0
  {
    hide TameRun, Runs, After, WithinLease;
    handout := FreedUnderneath();
    assert Next(After(START, handout), Start(2, Acquire)) == HANDED;
    lease := FinishedUnderLessee();
    lease := OneMore(HANDED, lease, Start(2, Mark));
    lease := OneMore(HANDED, lease, Start(2, Tell));
  }
}
