/**
 A send by a thread that holds no unit of the session: exactly when the unit it counts is safe.
 */
module UnheldSend {
  import opened Tally
  import opened SessionProtocol
  import opened SessionAccounting
  import opened SessionRecycle
  import opened LeaseHandout

  const SENDER := Thread(1, false, NotConnecting, Gate(Send))

  // The state a send without a unit begins in.
  lemma SendBegins(s: State, t: nat)
    requires Good(s) && Enabled(s, Start(t, BeginIOUnheld))
    ensures var r := Next(s, Start(t, BeginIOUnheld));
            && r == State(s.m.(ioCount := s.m.ioCount + 1), s.k, s.threads[t := SENDER], s.ledger)
  {
    assert Orderly(s.threads[t]);
  }

  // --- While nobody does -------------------------------------------------------------------------------

  // The sender leaves again: gate closed or post failed, and the unit dropped to zero.
  lemma SenderGivesUp(r: State, t: nat) returns (schedule: seq<Action>)
    requires t < |r.threads| && r.threads[t] == SENDER && r.m.ioCount == 1
    ensures Runs(r, schedule) && WithinLease(r, schedule)
    ensures var e := After(r, schedule);
            && e.m == r.m.(ioCount := 0) && e.k == r.k && e.ledger == r.ledger
            && e.threads == r.threads[t := Thread(0, false, NotConnecting, Signal(ToCaller))]
  {
    NoStepsYet(r);
    hide Runs, After, WithinLease;
    schedule := OneMore(r, [], Step(t, true));
    if !r.m.cancelIo {
      schedule := OneMore(r, schedule, Step(t, false));
      schedule := OneMore(r, schedule, Start(t, Drop));
    }
    schedule := OneMore(r, schedule, Step(t, true));
  }

  // The lessee has not counted yet: it counts after the sender has seen zero.
  lemma UnsettledBreaks(s: State, t: nat)
    requires Good(s) && Enabled(s, Start(t, BeginIOUnheld)) && !s.m.pool.Free? && !s.ledger.settled
    ensures !SafeFromHere(Next(s, Start(t, BeginIOUnheld)))
  {
    hide Runs, After, WithinLease;
    var r := Next(s, Start(t, BeginIOUnheld));
    SendBegins(s, t);
    var u := LesseeIsThere(s);
    var schedule := SenderGivesUp(r, t);
    StaleLookTakesOver(r, u, t, schedule, After(r, schedule));
  }

  lemma LesseeIsThere(s: State) returns (u: nat)
    requires Good(s) && !s.m.pool.Free? && !s.ledger.settled
    ensures Fresh(s, u)
  {
    u := Witness(s.threads, Opening);
    assert Orderly(s.threads[u]);
  }

  // How many steps a thread that carries the release is from marking it pending.
  function ToMark(pc: Pc): nat
  {
    match pc
    case Won => 7
    case FindSocket(_) => 6
    case Arm(_) => 5
    case Sweep(_) => 4
    case DropPause(_) => 3
    case Signal(_) => 3
    case TakePending(_) => 2
    case _ => 1
  }

  // It gets there, whatever it does on the way, if no pause is left to drop.
  lemma {:induction false} CarrierMarks(r: State, so: seq<Action>, b: nat, h: nat, k: nat) returns (schedule: seq<Action>)
    requires Runs(r, so) && WithinLease(r, so)
    requires var e := After(r, so);
             && b < |e.threads| && h < |e.threads| && k < |e.threads| && b != k && e.threads[h].held > 0
             && Baton(e.threads[b]) == 1 && !e.threads[b].pc.Finish? && !e.threads[b].pc.Decrement?
             && !e.m.recvPaused && !e.m.releasePending
    ensures Runs(r, schedule) && WithinLease(r, schedule)
    ensures var e := After(r, schedule);
            && |e.threads| == |After(r, so).threads| && e.m.releasePending && e.threads[h].held > 0
            && e.threads[k] == After(r, so).threads[k]
    decreases ToMark(After(r, so).threads[b].pc)
  {
    hide Runs, After, WithinLease;
    schedule := OneMore(r, so, Step(b, false));
    if !After(r, so).threads[b].pc.MarkPending? {
      schedule := CarrierMarks(r, schedule, b, h, k);
    }
  }

  // Some thread has seen zero, and is about to look for a pending release or is finishing one.
  lemma SpentBreaks(s: State, t: nat, k: nat)
    requires Good(s) && Enabled(s, Start(t, BeginIOUnheld)) && !s.m.pool.Free?
    requires !s.m.cancelIo || !s.m.pool.InUse?
    requires k < |s.threads| && Spent(s.threads[k]) > 0
    ensures !SafeFromHere(Next(s, Start(t, BeginIOUnheld)))
  {
    hide Runs, After, WithinLease;
    var r := Next(s, Start(t, BeginIOUnheld));
    SendBegins(s, t);
    ZeroWasSeen(s, k);
    NoStepsYet(r);
    if s.threads[k].pc.Finish? {
      FinishOverUnit(r, t, k);
    } else if s.m.releasePending {
      PendingIsTaken(r, [], t, k);
    } else if s.m.pool.Releasing? {
      var b := Carrier(s);
      if s.threads[b].pc.Finish? {
        FinishOverUnit(r, t, b);
      } else {
        var schedule := CarrierMarks(r, [], b, t, k);
        PendingIsTaken(r, schedule, t, k);
      }
    } else {
      var schedule := SenderReleases(r, t);
      schedule := CarrierMarks(r, schedule, t, t, k);
      PendingIsTaken(r, schedule, t, k);
    }
  }

  // Nothing is outstanding once a thread has seen zero.
  lemma ZeroWasSeen(s: State, k: nat)
    requires Good(s) && k < |s.threads| && Spent(s.threads[k]) > 0
    ensures s.m.ioCount == 0 && !s.m.recvPaused && forall u :: 0 <= u < |s.threads| ==> s.threads[u].held == 0
  {
    AtLeast(s.threads, k, Spent);
    forall u | 0 <= u < |s.threads| ensures s.threads[u].held == 0 {
      AtLeast(s.threads, u, Held);
    }
  }

  lemma Carrier(s: State) returns (b: nat)
    requires Good(s) && s.m.pool.Releasing? && !s.m.releasePending
    ensures b < |s.threads| && Baton(s.threads[b]) == 1 && (s.threads[b].pc.Decrement? ==> s.threads[b].held > 0)
  {
    b := Witness(s.threads, Baton);
    assert Orderly(s.threads[b]);
  }

  // The post fails, and the sender releases the session while it still has the unit.
  lemma SenderReleases(r: State, t: nat) returns (schedule: seq<Action>)
    requires t < |r.threads| && r.threads[t] == SENDER && r.m.pool.InUse? && !r.m.cancelIo
    ensures Runs(r, schedule) && WithinLease(r, schedule)
    ensures After(r, schedule) == State(r.m.(pool := Releasing), r.k, r.threads[t := SENDER.(pc := Won)], r.ledger)
  {
    NoStepsYet(r);
    hide Runs, After, WithinLease;
    schedule := OneMore(r, [], Step(t, true));
    schedule := OneMore(r, schedule, Step(t, false));
    schedule := OneMore(r, schedule, Start(t, Release));
  }

  // --- Behind the gate of a session in use --------------------------------------------------------------

  // The gate turns the sender back, and nobody is there to leave a release pending on its unit: whoever
  // has seen zero is alone with it, or the session is not connected and nobody has decided to release it.
  ghost predicate TurnsBack(s: State, t: nat)
  {
    s.m.cancelIo && s.m.pool.InUse? && s.ledger.settled && NoReleaser(s, t)
  }

  ghost predicate NoReleaser(s: State, t: nat)
  {
    forall k, v :: 0 <= k < |s.threads| && 0 <= v < |s.threads| && k != t && v != t && v != k && Spent(s.threads[k]) > 0 ==>
      !s.m.connected && !s.threads[v].pc.Decided?
  }

  const GIVEN_UP := Thread(0, false, NotConnecting, Signal(ToCaller))

  // The state as if the sender had left already.
  function Without(s: State, t: nat): State
    requires t < |s.threads|
  {
    State(s.m.(ioCount := s.m.ioCount - 1), s.k, s.threads[t := GIVEN_UP], s.ledger)
  }

  // The sender is on its way back, and everything else is as it should be.
  ghost predicate Leaving(s: State, t: nat)
  {
    && t < |s.threads| && (s.threads[t] == SENDER || s.threads[t] == SENDER.(pc := Decrement(ToCaller)))
    && TurnsBack(s, t) && Good(Without(s, t))
  }

  lemma BeginsToLeave(s: State, t: nat)
    requires Good(s) && Enabled(s, Start(t, BeginIOUnheld)) && TurnsBack(s, t) && Total(s.threads, Spent) > 0
    ensures Leaving(Next(s, Start(t, BeginIOUnheld)), t)
  {
    hide Good, Next, Enabled, Orderly, Spent;
    var r := Next(s, Start(t, BeginIOUnheld));
    SendBegins(s, t);
    var k := Witness(s.threads, Spent);
    ZeroWasSeen(s, k);
    RestsBlank(s, t);
    RowStaysGood(s, t, GIVEN_UP);
    assert s.threads[t := SENDER][t := GIVEN_UP] == s.threads[t := GIVEN_UP];
    assert Without(r, t) == s.(threads := s.threads[t := GIVEN_UP]);
    SameReleasers(s, r, t);
  }

  lemma RestsBlank(s: State, t: nat)
    requires Good(s) && Enabled(s, Start(t, BeginIOUnheld))
    ensures t < |s.threads| && s.threads[t] == BLANK
  {
    assert Orderly(s.threads[t]);
  }

  // A thread without a unit, on a session somebody has seen at zero, may as well be where it looks for a
  // pending release, or have left after reading the counter.
  lemma RowStaysGood(s: State, u: nat, row: Thread)
    requires Good(s) && u < |s.threads| && s.threads[u].held == 0 && s.ledger.settled && s.m.ioCount == 0
    requires (s.threads[u] == BLANK && row == GIVEN_UP) || (s.threads[u].pc.ReadCount? && row == s.threads[u].(pc := Rest))
    requires !s.m.pool.Free?
    ensures Good(s.(threads := s.threads[u := row]))
  {
    SumsCohere(s.threads, u);
    SumsMove(s.threads, u, row);
    RowNumbers(s, SumsOf(s.threads), s.threads[u], row, SumsOf(s.threads[u := row]));
  }

  lemma RowNumbers(s: State, z: Sums, th: Thread, row: Thread, after: Sums)
    requires GoodNumbers(s.m, s.k, s.ledger, z) && Orderly(th) && Coherent(z, Row(th)) && Exchanged(z, Row(th), Row(row), after)
    requires th.held == 0 && s.ledger.settled && s.m.ioCount == 0 && !s.m.pool.Free?
    requires (th == BLANK && row == GIVEN_UP) || (th.pc.ReadCount? && row == th.(pc := Rest))
    ensures GoodNumbers(s.m, s.k, s.ledger, after) && Orderly(row)
  {
  }

  // With the sender on its way back no one else has a unit, and no release is under way.
  lemma OthersAreIdle(s: State, t: nat)
    requires Leaving(s, t)
    ensures s.m.ioCount == 1 && !s.m.recvPaused && !s.m.releasePending && s.k == Kernel(0, 0)
    ensures forall u :: 0 <= u < |s.threads| && u != t ==>
              var th := s.threads[u];
              th.held == 0 && Orderly(th) && Baton(th) == 0 && !th.pc.Leased? && !th.pc.Attached?
  {
    var w := Without(s, t);
    AtLeast(w.threads, t, Spent);
    forall u | 0 <= u < |s.threads| && u != t
      ensures var th := s.threads[u];
              th.held == 0 && Orderly(th) && Baton(th) == 0 && !th.pc.Leased? && !th.pc.Attached?
    {
      assert w.threads[u] == s.threads[u];
      AtLeast(w.threads, u, Held);
      AtLeast(w.threads, u, Baton);
      AtLeast(w.threads, u, Opening);
    }
  }

  // Once nobody else has seen zero the sender's unit is like any other.
  lemma NobodySpentIsGood(s: State, t: nat)
    requires Leaving(s, t) && Total(s.threads, Spent) == 0
    ensures Good(s)
  {
    var w := Without(s, t);
    assert w.threads[t := s.threads[t]] == s.threads;
    SumsCohere(w.threads, t);
    SumsMove(w.threads, t, s.threads[t]);
    SenderNumbers(s, SumsOf(w.threads), s.threads[t], SumsOf(s.threads));
    forall u | 0 <= u < |s.threads| && u != t ensures Orderly(s.threads[u]) {
      assert w.threads[u] == s.threads[u];
    }
  }

  lemma SenderNumbers(s: State, z: Sums, th: Thread, after: Sums)
    requires GoodNumbers(s.m.(ioCount := s.m.ioCount - 1), s.k, s.ledger, z) && Coherent(z, Row(GIVEN_UP))
    requires Exchanged(z, Row(GIVEN_UP), Row(th), after) && after.spent == 0 && s.m.pool.InUse? && s.ledger.settled
    requires th == SENDER || th == SENDER.(pc := Decrement(ToCaller))
    requires after.pastNotify <= after.spent
    ensures GoodNumbers(s.m, s.k, s.ledger, after) && Orderly(th)
  {
  }

  // The sender's own two steps.
  lemma SenderLeaves(s: State, a: Action, t: nat)
    requires Leaving(s, t) && Enabled(s, a) && a.t == t
    ensures Leaving(Next(s, a), t) || Good(Next(s, a))
  {
    OthersAreIdle(s, t);
    var r := Next(s, a);
    if s.threads[t].pc.Gate? {
      assert r.threads == s.threads[t := SENDER.(pc := Decrement(ToCaller))];
      assert Without(r, t) == Without(s, t) by { assert r.threads[t := GIVEN_UP] == s.threads[t := GIVEN_UP]; }
      SameReleasers(s, r, t);
    } else {
      assert r == Without(s, t);
    }
  }

  lemma SameReleasers(s: State, r: State, t: nat)
    requires NoReleaser(s, t) && r.m.connected == s.m.connected && |r.threads| == |s.threads|
    requires forall u :: 0 <= u < |s.threads| && u != t ==>
               Spent(r.threads[u]) <= Spent(s.threads[u]) && (r.threads[u].pc.Decided? ==> s.threads[u].pc.Decided?)
    ensures NoReleaser(r, t)
  {
  }

  // What another thread's step does to its own row and to the shared state.
  ghost predicate Harmless(s: State, u: nat, r: State)
    requires u < |s.threads|
  {
    && |r.threads| == |s.threads| && r == s.(threads := s.threads[u := r.threads[u]]) && r.threads[u].held == 0
    && Spent(r.threads[u]) <= Spent(s.threads[u]) && (r.threads[u].pc.Decided? ==> s.threads[u].pc.Decided?)
  }

  // Behind the gate, with a thread that has seen zero about, every other thread can only come and go.
  lemma OthersAreHarmless(s: State, a: Action, t: nat, k: nat)
    requires Leaving(s, t) && Enabled(s, a) && Tame(s, a) && !IsHandout(a) && a.t != t
    requires k < |s.threads| && Spent(s.threads[k]) > 0
    ensures !IsUnheld(a) && a.t < |s.threads| && Harmless(s, a.t, Next(s, a))
    ensures s.threads[a.t].pc.ReadCount? ==> Next(s, a) == s.(threads := s.threads[a.t := s.threads[a.t].(pc := Rest)])
    ensures !s.threads[a.t].pc.ReadCount? ==>
              Enabled(Without(s, t), a) && Without(Next(s, a), t) == Next(Without(s, t), a)
  {
    hide Good, StepEffect, CallEffect, GoodNumbers, MayStart;
    OthersAreIdle(s, t);
    AtLeast(s.threads, k, Spent);
    assert Without(s, t).threads[a.t] == s.threads[a.t];
    assert s.threads[a.t := Next(s, a).threads[a.t]][t := GIVEN_UP] == s.threads[t := GIVEN_UP][a.t := Next(s, a).threads[a.t]];
    if a.Start? { CallIsHarmless(s, a.t, a.call, t, k); } else { StepIsHarmless(s, a.t, a.choice, t, k); }
  }

  lemma CallIsHarmless(s: State, u: nat, call: Call, t: nat, k: nat)
    requires Leaving(s, t) && u < |s.threads| && u != t && k < |s.threads| && k != t && Spent(s.threads[k]) > 0
    requires MayStart(s, s.threads[u], call) && !call.Acquire? && !call.BeginIOUnheld?
    ensures var e := CallEffect(s, s.threads[u], call);
            && e == Effect(s.m, s.k, s.ledger, e.th) && e.th.held == 0
            && Spent(e.th) == 0 && !e.th.pc.Decided?
            && MayStart(Without(s, t), s.threads[u], call)
            && CallEffect(Without(s, t), s.threads[u], call) == e.(m := Without(s, t).m)
  {
    OthersAreIdle(s, t);
  }

  lemma StepIsHarmless(s: State, u: nat, choice: bool, t: nat, k: nat)
    requires Leaving(s, t) && u < |s.threads| && u != t && k < |s.threads| && k != t && Spent(s.threads[k]) > 0
    requires !s.threads[u].pc.Rest?
    ensures var e := StepEffect(s, s.threads[u], choice);
            && e == Effect(s.m, s.k, s.ledger, e.th) && e.th.held == 0
            && Spent(e.th) <= Spent(s.threads[u]) && !e.th.pc.Decided?
            && (s.threads[u].pc.ReadCount? ==> e.th == s.threads[u].(pc := Rest))
            && (!s.threads[u].pc.ReadCount? ==>
                  StepEffect(Without(s, t), s.threads[u], choice) == e.(m := Without(s, t).m))
  {
    OthersAreIdle(s, t);
  }

  lemma OtherStays(s: State, a: Action, t: nat, k: nat)
    requires Leaving(s, t) && Enabled(s, a) && Tame(s, a) && !IsHandout(a) && a.t != t
    requires k < |s.threads| && Spent(s.threads[k]) > 0
    ensures Leaving(Next(s, a), t)
  {
    hide Good, Next, Enabled, Tame;
    var r := Next(s, a);
    OthersAreHarmless(s, a, t, k);
    SameReleasers(s, r, t);
    var w := Without(s, t);
    if s.threads[a.t].pc.ReadCount? {
      OthersAreIdle(s, t);
      RowStaysGood(w, a.t, s.threads[a.t].(pc := Rest));
      assert Without(r, t) == w.(threads := w.threads[a.t := s.threads[a.t].(pc := Rest)]) by {
        assert s.threads[a.t := s.threads[a.t].(pc := Rest)][t := GIVEN_UP]
            == s.threads[t := GIVEN_UP][a.t := s.threads[a.t].(pc := Rest)];
      }
    } else {
      TamePasses(w, a);
      GoodNext(w, a);
    }
  }

  lemma TamePasses(w: State, a: Action)
    requires !IsUnheld(a) && !IsHandout(a)
    ensures Tame(w, a)
  {
  }

  ghost predicate FineBehindGate(s: State, t: nat) { Good(s) || Leaving(s, t) }

  lemma FineNext(s: State, a: Action, t: nat)
    requires FineBehindGate(s, t) && Enabled(s, a) && Tame(s, a) && !IsHandout(a)
    ensures FineBehindGate(Next(s, a), t)
  {
    hide Good, Next, Enabled, Tame, Leaving, Spent;
    if Good(s) {
      GoodNext(s, a);
    } else if Total(s.threads, Spent) == 0 {
      NobodySpentIsGood(s, t);
    } else if a.t == t {
      SenderLeaves(s, a, t);
    } else {
      var k := Witness(s.threads, Spent);
      OtherStays(s, a, t, k);
    }
  }

  lemma {:induction false} FineRun(s: State, schedule: seq<Action>, t: nat)
    requires FineBehindGate(s, t) && Runs(s, schedule) && WithinLease(s, schedule)
    ensures FineBehindGate(After(s, schedule), t)
    decreases |schedule|
  {
    hide FineBehindGate, Enabled, Next, Tame;
    if schedule != [] {
      assert !IsHandout(schedule[0]);
      FineNext(s, schedule[0], t);
      RestOfLease(s, schedule);
      FineRun(Next(s, schedule[0]), schedule[1..], t);
    }
  }

  lemma RestOfLease(s: State, schedule: seq<Action>)
    requires WithinLease(s, schedule) && schedule != []
    ensures Enabled(s, schedule[0]) && WithinLease(Next(s, schedule[0]), schedule[1..])
  {
    forall i | 0 <= i < |schedule| - 1 ensures !IsHandout(schedule[1..][i]) {
      assert schedule[1..][i] == schedule[i + 1];
    }
  }

  lemma LeavingIsWell(s: State, t: nat)
    requires Leaving(s, t)
    ensures LeaseIsWell(s)
  {
    OthersAreIdle(s, t);
    var w := Without(s, t);
    assert w.threads[t := s.threads[t]] == s.threads;
    Update(w.threads, t, s.threads[t], Held);
    Update(w.threads, t, s.threads[t], Receiving);
    GoodIsWell(w);
    assert forall u :: 0 <= u < |s.threads| && s.threads[u].pc.Finish? ==> Baton(s.threads[u]) == 1;
  }

  // --- Exactly when --------------------------------------------------------------------------------------

  // Nothing can go wrong: somebody answers for the session, or the gate turns the sender back and nobody
  // can leave a release pending meanwhile.
  ghost predicate SafeToSend(s: State, t: nat) { Answered(s) || TurnsBack(s, t) }

  lemma SafeSendIsWell(s: State, t: nat)
    requires Good(s) && Enabled(s, Start(t, BeginIOUnheld)) && SafeToSend(s, t)
    ensures WellFromHere(Next(s, Start(t, BeginIOUnheld)))
  {
    hide Good, Next, Enabled, LeaseIsWell, Leaving, Spent;
    var r := Next(s, Start(t, BeginIOUnheld));
    if Total(s.threads, Spent) == 0 {
      GoodNext(s, Start(t, BeginIOUnheld));
    } else {
      BeginsToLeave(s, t);
    }
    forall more | Runs(r, more) && WithinLease(r, more) ensures LeaseIsWell(After(r, more)) {
      FineRun(r, more, t);
      if Good(After(r, more)) { GoodIsWell(After(r, more)); } else { LeavingIsWell(After(r, more), t); }
    }
  }

  // A thread that has nothing to do with a release leaves the session.
  function ToRest(pc: Pc): nat
  {
    match pc
    case FindSocket(_) => 4
    case Arm(_) => 3
    case Sweep(_) => 2
    case Signal(_) => 2
    case Rest => 0
    case _ => 1
  }

  ghost predicate Passing(e: State, v: nat, t: nat, k: nat)
  {
    && v < |e.threads| && t < |e.threads| && k < |e.threads| && v != t && v != k && t != k
    && e.threads[t].held == 1 && e.m.ioCount == 1 && e.m.pool.InUse? && e.m.connected && !e.m.releasePending && !e.m.recvPaused
    && e.threads[v].held == 0 && Baton(e.threads[v]) == 0
    && !e.threads[v].pc.Leased? && !e.threads[v].pc.Attached? && Orderly(e.threads[v])
  }

  // It may then decide to release it.
  lemma {:induction false} ComesToDecide(r: State, so: seq<Action>, v: nat, t: nat, k: nat) returns (schedule: seq<Action>)
    requires Runs(r, so) && WithinLease(r, so) && Passing(After(r, so), v, t, k) && !After(r, so).threads[v].pc.Decided?
    ensures Runs(r, schedule) && WithinLease(r, schedule)
    ensures Passing(After(r, schedule), v, t, k) && After(r, schedule).threads[v].pc.Decided?
    ensures After(r, schedule).threads[k] == After(r, so).threads[k]
    decreases ToRest(After(r, so).threads[v].pc)
  {
    hide Runs, After, WithinLease;
    if After(r, so).threads[v].pc.Rest? {
      schedule := OneMore(r, so, Start(v, Decide));
    } else {
      schedule := OneMore(r, so, Step(v, true));
      schedule := ComesToDecide(r, schedule, v, t, k);
    }
  }

  // Another thread leaves a release pending on the sender's unit, which k takes.
  lemma ReleaserBreaks(s: State, t: nat, k: nat, v: nat)
    requires Good(s) && Enabled(s, Start(t, BeginIOUnheld)) && s.m.pool.InUse? && s.ledger.settled
    requires k < |s.threads| && v < |s.threads| && k != t && v != t && v != k && Spent(s.threads[k]) > 0
    requires s.m.connected || s.threads[v].pc.Decided?
    ensures !SafeFromHere(Next(s, Start(t, BeginIOUnheld)))
  {
    hide Runs, After, WithinLease;
    var r := Next(s, Start(t, BeginIOUnheld));
    SendBegins(s, t);
    ZeroWasSeen(s, k);
    NoStepsYet(r);
    AtLeast(s.threads, v, Baton);
    AtLeast(s.threads, k, Baton);
    AtLeast(s.threads, v, Opening);
    var schedule: seq<Action> := [];
    if !s.threads[v].pc.Decided? {
      assert Orderly(s.threads[v]);
      schedule := ComesToDecide(r, [], v, t, k);
    }
    schedule := OneMore(r, schedule, Step(v, true));
    schedule := CarrierMarks(r, schedule, v, t, k);
    PendingIsTaken(r, schedule, t, k);
  }

  lemma UnsafeSendBreaks(s: State, t: nat)
    requires Good(s) && Enabled(s, Start(t, BeginIOUnheld)) && !SafeToSend(s, t)
    ensures !WellFromHere(Next(s, Start(t, BeginIOUnheld)))
  {
    hide Good, Spent, Overlap;
    var r := Next(s, Start(t, BeginIOUnheld));
    if s.m.pool.Free? {
      FreeIsNotWell(s, t);
      NoStepsYet(r);
    } else if !s.ledger.settled {
      UnsettledBreaks(s, t);
    } else if !s.m.cancelIo || !s.m.pool.InUse? {
      var k := Witness(s.threads, Spent);
      SpentBreaks(s, t, k);
    } else {
      var k, v :| 0 <= k < |s.threads| && 0 <= v < |s.threads| && k != t && v != t && v != k && Spent(s.threads[k]) > 0
                  && (s.m.connected || s.threads[v].pc.Decided?);
      ReleaserBreaks(s, t, k, v);
    }
    if WellFromHere(r) { WellIsSafe(r); }
  }

  lemma FreeIsNotWell(s: State, t: nat)
    requires Good(s) && Enabled(s, Start(t, BeginIOUnheld)) && s.m.pool.Free?
    ensures !LeaseIsWell(Next(s, Start(t, BeginIOUnheld)))
  {
    SendBegins(s, t);
    AtLeast(Next(s, Start(t, BeginIOUnheld)).threads, t, Held);
  }

  // After any run in which that was heeded: a send without a unit leaves the session well in every
  // continuation exactly when somebody answers for it, or the gate is up on a session in use and nobody can
  // leave a release pending before the sender has gone.
  lemma UnheldSendIsWellIff(s0: State, schedule: seq<Action>, t: nat)
    requires Initial(s0) && TameRun(s0, schedule) && Runs(s0, schedule)
    requires Enabled(After(s0, schedule), Start(t, BeginIOUnheld))
    ensures WellFromHere(Next(After(s0, schedule), Start(t, BeginIOUnheld))) <==> SafeToSend(After(s0, schedule), t)
  {
    hide Initial, TameRun, Runs, After, Enabled, SafeToSend, WellFromHere, Next, Good;
    InitialGood(s0);
    GoodRun(s0, schedule);
    if SafeToSend(After(s0, schedule), t) {
      SafeSendIsWell(After(s0, schedule), t);
    } else {
      UnsafeSendBreaks(After(s0, schedule), t);
    }
  }

  // Whenever the counter is positive, a send without a unit is as safe as any other.
  lemma CountedSendIsWell(s0: State, schedule: seq<Action>, t: nat)
    requires Initial(s0) && TameRun(s0, schedule) && Runs(s0, schedule) && After(s0, schedule).m.ioCount > 0
    requires Enabled(After(s0, schedule), Start(t, BeginIOUnheld))
    ensures WellFromHere(Next(After(s0, schedule), Start(t, BeginIOUnheld)))
  {
    hide Initial, TameRun, Runs, After, Enabled, WellFromHere, Next, Good;
    InitialGood(s0);
    GoodRun(s0, schedule);
    CountedIsAnswered(After(s0, schedule));
    SafeSendIsWell(After(s0, schedule), t);
  }

  // A send posted on a node in the free list.
  lemma PostedOnFreeNode()
    ensures var schedule := [Start(1, BeginIOUnheld), Step(1, true), Step(1, true)];
            && Initial(START) && Runs(START, schedule)
            && After(START, schedule).m.pool.Free? && After(START, schedule).k.send == 1
            && !LeaseIsWell(After(START, schedule))
  {
    var schedule := [Start(1, BeginIOUnheld), Step(1, true), Step(1, true)];
    var s1 := Next(START, schedule[0]);
    var s2 := Next(s1, schedule[1]);
    var s3 := Next(s2, schedule[2]);
    assert schedule[1..] == [schedule[1], schedule[2]] && schedule[1..][1..] == [schedule[2]] && [schedule[2]][1..] == [];
    assert After(s2, [schedule[2]]) == s3;
    assert After(s1, schedule[1..]) == s3;
    assert After(START, schedule) == s3;
  }
}
