/**
 When a failed send leaves packets behind: at the moment the right to send is given back after the
 failure, it depends only on the queue and on who else is on the way to it.  And what becomes of a
 queue that was left behind.
 */
module SendStranding {
  import opened Tally
  import opened Wire
  import opened SendPathProtocol
  import opened SendPathInvariants

  // From r on no further send fails and nothing is cancelled.
  ghost predicate Unharmed(c: Limits, r: State, schedule: seq<Action>)
    requires Runs(c, r, schedule)
  {
    After(c, r, schedule).log.failures == r.log.failures && !After(c, r, schedule).m.cancelIo
  }

  // Nothing waits any more, and every packet released since r went out whole.
  ghost predicate Drained(r: State, s: State)
  {
    && s.m.queue == [] && s.m.current.None? && |r.log.fates| <= |s.log.fates|
    && forall i :: |r.log.fates| <= i < |s.log.fates| ==> s.log.fates[i].sent == |s.log.fates[i].packet|
  }

  ghost predicate DrainsFromHere(c: Limits, r: State)
  {
    forall schedule :: Runs(c, r, schedule) && Unharmed(c, r, schedule) && Quiet(After(c, r, schedule)) ==>
      Drained(r, After(c, r, schedule))
  }

  // Somebody will look at a queue that nobody sends from, and nobody is giving up after a failure.
  ghost predicate Attended(s: State)
  {
    && Sound(s) && !s.m.cancelIo && s.m.stuck == 0
    && (forall t :: 0 <= t < |s.threads| ==> s.threads[t] != LetGo(false))
    && (s.m.queue != [] && !s.m.sending ==> Total(s.threads, Looks) > 0)
  }

  // --- Attended queues stay attended --------------------------------------------------------------

  lemma MarksOnlyGrow(c: Limits, s: State, a: Action)
    requires Enabled(s, a)
    ensures Next(c, s, a).log.failures >= s.log.failures && (s.m.cancelIo ==> Next(c, s, a).m.cancelIo)
  {
  }

  lemma {:induction false} MarksOnlyGrowAlong(c: Limits, s: State, schedule: seq<Action>)
    requires Runs(c, s, schedule)
    ensures After(c, s, schedule).log.failures >= s.log.failures && (s.m.cancelIo ==> After(c, s, schedule).m.cancelIo)
    decreases |schedule|
  {
    hide Next, Enabled;
    if schedule != [] {
      MarksOnlyGrow(c, s, schedule[0]);
      MarksOnlyGrowAlong(c, Next(c, s, schedule[0]), schedule[1..]);
    }
  }

  // What one undisturbed step of a thread does to the right, the queue and the books.
  ghost predicate KeepsAttended(m: Shared, log: Log, pc: Pc, e: Effect)
  {
    && e.m.stuck == 0 && e.pc != LetGo(false)
    && (e.m.queue != [] && !e.m.sending ==> Looks(e.pc) > 0 || (e.m == m && Looks(pc) == 0))
    && (e.log.fates == log.fates
        || exists f :: e.log.fates == log.fates + [f] && f.sent == |f.packet|)
  }

  lemma OwnerAttends(m: Shared, log: Log, pc: Pc, choice: bool)
    requires OwnerBefore(m, log, pc) && !pc.Idle? && pc != LetGo(false) && !m.cancelIo && m.stuck == 0 && m.sending
    requires StepEffect(m, log, pc, choice).log.failures == log.failures
    ensures KeepsAttended(m, log, pc, StepEffect(m, log, pc, choice))
  {
    hide Books, InStream, OneRight;
    var e := StepEffect(m, log, pc, choice);
    if pc.Completed? && m.offset + pc.n >= |m.current.value| {
      assert e.log.fates == log.fates + [Fate(m.current.value, m.offset + pc.n)];
    }
  }

  lemma StrangerAttends(m: Shared, log: Log, pc: Pc, choice: bool)
    requires (pc.Claim? || pc.Recheck?) && m.stuck == 0
    ensures KeepsAttended(m, log, pc, StepEffect(m, log, pc, choice))
  {
  }

  lemma StepStaysAttended(c: Limits, s: State, t: nat, choice: bool)
    requires Attended(s) && Enabled(s, Step(t, choice)) && Next(c, s, Step(t, choice)).log.failures == s.log.failures
    ensures KeepsAttended(s.m, s.log, s.threads[t], StepEffect(s.m, s.log, s.threads[t], choice))
  {
    hide StepEffect, KeepsAttended;
    var pc := s.threads[t];
    if Owns(pc) == 1 {
      OwnerIsAlone(s, t);
      AtLeast(s.threads, t, Owns);
      OwnerAttends(s.m, s.log, pc, choice);
    } else {
      StrangerAttends(s.m, s.log, pc, choice);
    }
  }

  // One more step of a run in which nothing fails.
  lemma StaysAttended(c: Limits, s: State, a: Action)
    requires Attended(s) && Enabled(s, a)
    requires Next(c, s, a).log.failures == s.log.failures && !Next(c, s, a).m.cancelIo
    ensures Attended(Next(c, s, a)) && MoreWhole(s.log.fates, Next(c, s, a).log.fates)
  {
    hide Sound, StepEffect;
    NextIsSound(c, s, a);
    match a {
      case Step(t, choice) =>
        var e := StepEffect(s.m, s.log, s.threads[t], choice);
        StepStaysAttended(c, s, t, choice);
        Moves(s.threads, t, e.pc);
        AtLeast(s.threads[t := e.pc], t, Looks);
      case Enqueue(t, p, admitted) => EnqueueAttends(c, s, t, p, admitted);
      case Complete(t, n) =>
        Moves(s.threads, t, Completed(n));
        PostedIsSending(s);
      case CompleteFailed(_) =>
      case CancelIO =>
    }
  }

  lemma EnqueueAttends(c: Limits, s: State, t: nat, p: Packet, admitted: bool)
    requires Attended(s) && Enabled(s, Enqueue(t, p, admitted))
    ensures var r := Next(c, s, Enqueue(t, p, admitted));
            && r.m.stuck == 0 && (forall u :: 0 <= u < |r.threads| ==> r.threads[u] != LetGo(false))
            && (r.m.queue != [] && !r.m.sending ==> Total(r.threads, Looks) > 0) && r.log.fates == s.log.fates
  {
    hide Sound;
    var e := EnqueueEffect(c, s.m, s.log, p, admitted);
    Moves(s.threads, t, e.pc);
    AtLeast(s.threads[t := e.pc], t, Looks);
    if e.pc.Idle? { assert s.threads[t := Idle] == s.threads; }
  }

  lemma PostedIsSending(s: State)
    requires Sound(s)
    ensures s.m.posted > 0 ==> s.m.sending
  {
  }

  // The later list of released packets goes on from the earlier one, with whole packets only.
  ghost predicate MoreWhole(before: seq<Fate>, now: seq<Fate>)
  {
    before <= now && forall i :: |before| <= i < |now| ==> now[i].sent == |now[i].packet|
  }

  lemma {:induction false} RunStaysAttended(c: Limits, s: State, schedule: seq<Action>)
    requires Attended(s) && Runs(c, s, schedule) && Unharmed(c, s, schedule)
    ensures Attended(After(c, s, schedule)) && MoreWhole(s.log.fates, After(c, s, schedule).log.fates)
    decreases |schedule|
  {
    hide Attended, Enabled, Next;
    if schedule != [] {
      var r := Next(c, s, schedule[0]);
      MarksOnlyGrow(c, s, schedule[0]);
      MarksOnlyGrowAlong(c, r, schedule[1..]);
      StaysAttended(c, s, schedule[0]);
      RunStaysAttended(c, r, schedule[1..]);
    }
  }

  lemma AttendedDrains(c: Limits, r: State)
    requires Attended(r)
    ensures DrainsFromHere(c, r)
  {
    hide Attended, Runs, After;
    forall schedule | Runs(c, r, schedule) && Unharmed(c, r, schedule) && Quiet(After(c, r, schedule))
      ensures Drained(r, After(c, r, schedule))
    {
      RunStaysAttended(c, r, schedule);
      QuietIsDrained(r, After(c, r, schedule));
    }
  }

  lemma QuietIsDrained(r: State, s: State)
    requires Attended(s) && Quiet(s) && MoreWhole(r.log.fates, s.log.fates)
    ensures Drained(r, s)
  {
    IdleSums(s.threads);
  }

  // --- Theorems -----------------------------------------------------------------------------------

  // A post has failed and the thread that tried it is about to give the right back.  Whatever is queued
  // gets out in every continuation without further harm exactly when nothing is queued now or somebody
  // else is already on the way to the queue.
  lemma StrandedIff(c: Limits, s0: State, schedule: seq<Action>, t: nat)
    requires Initial(s0) && Runs(c, s0, schedule)
    requires t < |After(c, s0, schedule).threads| && After(c, s0, schedule).threads[t] == LetGo(false)
    requires !After(c, s0, schedule).m.cancelIo
    ensures var s := After(c, s0, schedule);
            DrainsFromHere(c, Next(c, s, Step(t, true)))
            <==> s.m.queue == [] || exists u :: 0 <= u < |s.threads| && u != t && Looks(s.threads[u]) == 1
  {
    hide Initial, Runs, After, Sound;
    var s := After(c, s0, schedule);
    InitialIsSound(s0);
    RunIsSound(c, s0, schedule);
    var r := Next(c, s, Step(t, true));
    NextIsSound(c, s, Step(t, true));
    GivenBack(c, s, t);
    if s.m.queue == [] || exists u :: 0 <= u < |s.threads| && u != t && Looks(s.threads[u]) == 1 {
      if u :| 0 <= u < |s.threads| && u != t && Looks(s.threads[u]) == 1 {
        assert r.threads[u] == s.threads[u];
        AtLeast(r.threads, u, Looks);
      }
      AttendedDrains(c, r);
    } else {
      assert Runs(c, r, []) && After(c, r, []) == r by { NoSteps(c, r); }
      assert Unharmed(c, r, []) && Quiet(r) && !Drained(r, r);
    }
  }

  lemma NoSteps(c: Limits, s: State)
    ensures Runs(c, s, []) && After(c, s, []) == s
  {
  }

  // The right is nobody's afterwards; all others are idle or on the way to the queue.
  lemma GivenBack(c: Limits, s: State, t: nat)
    requires Sound(s) && t < |s.threads| && s.threads[t] == LetGo(false) && !s.m.cancelIo
    ensures var r := Next(c, s, Step(t, true));
            && r.m == s.m.(sending := false) && r.m.stuck == 0 && r.m.posted == 0 && r.log == s.log
            && r.threads == s.threads[t := Idle]
            && forall u :: 0 <= u < |s.threads| && u != t ==> s.threads[u].Idle? || Looks(s.threads[u]) == 1
  {
    OwnerIsAlone(s, t);
  }

  // At rest, nobody has the right, and packets wait.
  ghost predicate Stranded(s: State)
  {
    Quiet(s) && !s.m.cancelIo && !s.m.sending && s.m.queue != []
  }

  // The next packet accepted gets a stranded queue going again.
  lemma NextEnqueueDrains(c: Limits, s0: State, schedule: seq<Action>, t: nat, p: Packet)
    requires Initial(s0) && Runs(c, s0, schedule) && Stranded(After(c, s0, schedule))
    requires t < |After(c, s0, schedule).threads|
    requires Framed(p, c.maxPacketSize) && |After(c, s0, schedule).m.queue| < c.depth
    ensures Enabled(After(c, s0, schedule), Enqueue(t, p, true))
    ensures DrainsFromHere(c, Next(c, After(c, s0, schedule), Enqueue(t, p, true)))
  {
    hide Initial, Runs, After, Sound;
    var s := After(c, s0, schedule);
    InitialIsSound(s0);
    RunIsSound(c, s0, schedule);
    NextIsSound(c, s, Enqueue(t, p, true));
    NothingStuck(s);
    var r := Next(c, s, Enqueue(t, p, true));
    AtLeast(r.threads, t, Looks);
    AttendedDrains(c, r);
  }

  lemma NothingStuck(s: State)
    requires Sound(s) && !s.m.sending
    ensures s.m.stuck == 0
  {
  }

  // But a stranded queue that is full accepts no packet, so nothing ever moves it again.
  lemma {:induction false} FullQueueStaysStranded(c: Limits, s: State, schedule: seq<Action>)
    requires Runs(c, s, schedule) && Quiet(s) && !s.m.sending && |s.m.queue| >= c.depth
    ensures var r := After(c, s, schedule);
            r.m.queue == s.m.queue && r.log == s.log && Quiet(r) && !r.m.sending
    decreases |schedule|
  {
    if schedule != [] {
      match schedule[0] {
        case Enqueue(t, _, _) => assert s.threads[t := Idle] == s.threads;
        case _ =>
      }
      FullQueueStaysStranded(c, Next(c, s, schedule[0]), schedule[1..]);
    }
  }

  // Both can come about: a failed post with nobody on the way, in front of a full queue.
  lemma FullQueueCanBeStranded() returns (schedule: seq<Action>)
    ensures Initial(START) && Runs(LIMITS, START, schedule) && Stranded(After(LIMITS, START, schedule))
    ensures |After(LIMITS, START, schedule).m.queue| == LIMITS.depth
  {
    hide Runs, After, Initial;
    schedule := StrandedByShortage();
  }
}
