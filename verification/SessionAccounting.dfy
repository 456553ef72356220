/**
 What every run keeps, whatever threads do: the counter is exactly the units somebody answers for,
 and each lease is finished by exactly one thread.
 */
module SessionAccounting {
  import opened Tally
  import opened SessionProtocol

  function Held(th: Thread): nat { th.held }

  // Threads that won the IN_USE -> RELEASING exchange and have not handed the release on yet,
  // and threads that are finishing one.
  function Baton(th: Thread): nat
  {
    match th.pc
    case Decrement(ret) => One(ret.ToRelease?)
    case Signal(ret) => One(ret.ToRelease?)
    case TakePending(ret) => One(ret.ToRelease?)
    case FindSocket(ret) => One(ret.ToRelease?)
    case Arm(ret) => One(ret.ToRelease?)
    case Sweep(ret) => One(ret.ToRelease?)
    case DropPause(ret) => One(ret.ToRelease?)
    case Won => 1
    case MarkPending => 1
    case Finish(_) => 1
    case _ => 0
  }

  function Finishing(th: Thread): nat { One(th.pc.Finish?) }

  // Threads that will look at the pending release before they leave the session.
  function Watching(th: Thread): nat
  {
    One(th.pc.Signal? || th.pc.TakePending? || th.pc.ReadCount? || th.pc.GrabPending?)
  }

  // Units of m_ioCount somebody will still drop.
  function Units(s: State): nat
  {
    Total(s.threads, Held) + s.k.recv + s.k.send + One(s.m.recvPaused)
  }

  ghost predicate Placed(th: Thread)
  {
    && ((th.pc.Gate? || th.pc.Issue? || th.pc.Decrement?) ==> th.held > 0)
    && (th.pc.Finish? ==> th.pc.stage < FINISH_STAGES)
  }

  ghost predicate Accounted(s: State)
  {
    && s.m.ioCount == Units(s) + s.ledger.leaked
    && (forall t :: 0 <= t < |s.threads| ==> Placed(s.threads[t]))
  }

  ghost predicate OneFinisher(s: State)
  {
    && Total(s.threads, Baton) + One(s.m.releasePending) == One(s.m.pool.Releasing?)
    && (s.m.pool.InUse? ==> s.ledger.finished == 0)
    && (s.m.pool.Releasing? ==> s.ledger.finished == Total(s.threads, Finishing))
    && (s.m.pool.Free? ==> s.ledger.finished <= 1 && (s.ledger.lease == 0 || s.ledger.finished == 1))
  }

  ghost predicate Watched(s: State)
  {
    s.m.releasePending && s.m.ioCount == 0 ==> Total(s.threads, Watching) > 0
  }

  ghost predicate Kept(s: State)
  {
    Accounted(s) && OneFinisher(s) && Watched(s)
  }

  // The sums after row t changes.
  lemma Moved(threads: seq<Thread>, t: nat, th: Thread)
    requires t < |threads|
    ensures var after := threads[t := th];
            && Total(after, Held) + threads[t].held == Total(threads, Held) + th.held
            && Total(after, Baton) + Baton(threads[t]) == Total(threads, Baton) + Baton(th)
            && Total(after, Finishing) + Finishing(threads[t]) == Total(threads, Finishing) + Finishing(th)
            && Total(after, Watching) + Watching(threads[t]) == Total(threads, Watching) + Watching(th)
            && Total(after, Finishing) <= Total(after, Baton)
    ensures threads[t].held <= Total(threads, Held) && Baton(threads[t]) <= Total(threads, Baton)
    ensures Finishing(threads[t]) <= Total(threads, Finishing) <= Total(threads, Baton)
    ensures Watching(threads[t]) <= Total(threads, Watching)
  {
    Update(threads, t, th, Held);
    Update(threads, t, th, Baton);
    Update(threads, t, th, Finishing);
    Update(threads, t, th, Watching);
    AtLeast(threads, t, Held);
    AtLeast(threads, t, Baton);
    AtLeast(threads, t, Finishing);
    AtLeast(threads, t, Watching);
    FinishersCarryBatons(threads);
    FinishersCarryBatons(threads[t := th]);
  }

  lemma {:induction false} FinishersCarryBatons(threads: seq<Thread>)
    ensures Total(threads, Finishing) <= Total(threads, Baton)
  {
    if threads != [] {
      FinishersCarryBatons(threads[..|threads| - 1]);
    }
  }

  // What one step does to the sums, read off the row it changes.
  ghost predicate Balanced(s: State, th: Thread, e: Effect)
  {
    && e.m.ioCount - s.m.ioCount
       == e.th.held - th.held + e.k.recv - s.k.recv + e.k.send - s.k.send
          + One(e.m.recvPaused) - One(s.m.recvPaused) + e.ledger.leaked - s.ledger.leaked
    && Placed(e.th)
  }

  // The three ways a step may move the pool state and the finisher count.
  ghost predicate PassesBaton(s: State, th: Thread, e: Effect)
  {
    && Baton(e.th) + One(e.m.releasePending) - Baton(th) - One(s.m.releasePending)
       == One(e.m.pool.Releasing?) - One(s.m.pool.Releasing?)
    && if e.ledger.lease != s.ledger.lease then
         s.m.pool.Free? && e.m.pool.InUse? && e.ledger.finished == 0
       else if th.pc == Finish(FINISH_STAGES - 1) then
         e.m.pool.Free? && e.ledger.finished == s.ledger.finished
       else
         && (e.m.pool == s.m.pool || (s.m.pool.InUse? && e.m.pool.Releasing?))
         && e.ledger.finished - s.ledger.finished == Finishing(e.th) - Finishing(th)
  }

  ghost predicate KeepsWatch(s: State, th: Thread, e: Effect)
  {
    e.m.releasePending && e.m.ioCount == 0 ==>
      Watching(e.th) == 1 || (s.m.releasePending && s.m.ioCount == 0 && Watching(th) == 0)
  }

  // What a thread may take for granted about the shared state when it steps.
  ghost predicate Expects(s: State, th: Thread)
  {
    && Placed(th)
    && (Baton(th) == 1 ==> s.m.pool.Releasing? && !s.m.releasePending)
    && (s.m.releasePending ==> s.m.pool.Releasing?)
    && s.m.ioCount >= th.held + s.k.recv + s.k.send + One(s.m.recvPaused)
  }

  ghost predicate Sound(s: State, th: Thread, e: Effect)
  {
    Balanced(s, th, e) && PassesBaton(s, th, e) && KeepsWatch(s, th, e)
  }

  lemma CallIsSound(s: State, th: Thread, call: Call)
    requires MayStart(s, th, call) && Expects(s, th)
    ensures Sound(s, th, CallEffect(s, th, call))
  {
  }

  lemma LeaseIsSound(s: State, th: Thread, choice: bool)
    requires (th.pc.Leased? || th.pc.Attached?) && Expects(s, th)
    ensures Sound(s, th, LeaseStep(s, th, choice))
  {
  }

  lemma PostIsSound(s: State, th: Thread, p: Purpose, choice: bool)
    requires Expects(s, th)
    ensures th.pc == Gate(p) ==> Sound(s, th, GateStep(s, th, p))
    ensures th.pc == Issue(p) ==> Sound(s, th, IssueStep(s, th, p, choice))
  {
  }

  lemma DecrementIsSound(s: State, th: Thread, ret: Return)
    requires th.pc == Decrement(ret) && Expects(s, th)
    ensures Sound(s, th, DecrementStep(s, th, ret))
  {
  }

  lemma TakeIsSound(s: State, th: Thread)
    requires Expects(s, th)
    ensures th.pc.TakePending? ==> Sound(s, th, TakeStep(s, th, Back(th.pc.ret)))
    ensures th.pc.GrabPending? ==> Sound(s, th, TakeStep(s, th, Rest))
  {
  }

  lemma CancelIsSound(s: State, th: Thread)
    requires Expects(s, th)
    ensures th.pc.Arm? ==> Sound(s, th, ArmStep(s, th, th.pc.ret))
    ensures th.pc.DropPause? ==> Sound(s, th, DropPauseStep(s, th, th.pc.ret))
  {
  }

  lemma FinishIsSound(s: State, th: Thread, stage: nat)
    requires th.pc == Finish(stage) && Expects(s, th)
    ensures Sound(s, th, FinishStep(s, th, stage))
  {
  }

  lemma RequestIsSound(s: State, th: Thread, choice: bool)
    requires th.pc.Signal? || th.pc.FindSocket? || th.pc.Sweep? || th.pc.Decided? || th.pc.Won? || th.pc.MarkPending?
             || th.pc.ReadCount?
    requires Expects(s, th)
    ensures Sound(s, th, StepEffect(s, th, choice))
  {
  }

  lemma StepIsSound(s: State, th: Thread, choice: bool)
    requires !th.pc.Rest? && Expects(s, th)
    ensures Sound(s, th, StepEffect(s, th, choice))
  {
    hide LeaseStep, GateStep, IssueStep, DecrementStep, TakeStep, ArmStep, DropPauseStep, FinishStep;
    hide ReleaseCall, Sound, Expects;
    match th.pc {
      case Gate(p) => PostIsSound(s, th, p, choice);
      case Issue(p) => PostIsSound(s, th, p, choice);
      case Decrement(ret) => DecrementIsSound(s, th, ret);
      case TakePending(_) => TakeIsSound(s, th);
      case GrabPending => TakeIsSound(s, th);
      case Finish(stage) => FinishIsSound(s, th, stage);
      case Leased => LeaseIsSound(s, th, choice);
      case Attached => LeaseIsSound(s, th, choice);
      case Arm(_) => CancelIsSound(s, th);
      case DropPause(_) => CancelIsSound(s, th);
      case _ => RequestIsSound(s, th, choice);
    }
  }

  lemma EffectKeeps(s: State, t: nat, e: Effect)
    requires Kept(s) && t < |s.threads| && Sound(s, s.threads[t], e)
    ensures Kept(State(e.m, e.k, s.threads[t := e.th], e.ledger))
  {
    Moved(s.threads, t, e.th);
  }

  lemma KeptExpects(s: State, t: nat)
    requires Kept(s) && t < |s.threads|
    ensures Expects(s, s.threads[t])
  {
    Moved(s.threads, t, s.threads[t]);
  }

  lemma NextKeeps(s: State, a: Action)
    requires Kept(s) && Enabled(s, a)
    ensures Kept(Next(s, a))
  {
    hide StepEffect, CallEffect, Sound, Kept, Expects;
    KeptExpects(s, a.t);
    match a {
      case Start(t, call) =>
        CallIsSound(s, s.threads[t], call);
        EffectKeeps(s, t, CallEffect(s, s.threads[t], call));
      case Step(t, choice) =>
        StepIsSound(s, s.threads[t], choice);
        EffectKeeps(s, t, StepEffect(s, s.threads[t], choice));
    }
  }

  lemma InitialKept(s: State)
    requires Initial(s)
    ensures Kept(s)
  {
    Zero(s.threads, Held);
    Zero(s.threads, Baton);
    Zero(s.threads, Finishing);
    Zero(s.threads, Watching);
  }

  // Every state of every run, whoever counts units in it.
  lemma {:induction false} RunKeeps(s: State, schedule: seq<Action>)
    requires Kept(s) && Runs(s, schedule)
    ensures Kept(After(s, schedule))
    decreases |schedule|
  {
    if schedule != [] {
      NextKeeps(s, schedule[0]);
      RunKeeps(Next(s, schedule[0]), schedule[1..]);
    }
  }

  // DecrementIO never takes the counter below zero, so its negative branch is dead code.
  lemma CountNeverNegative(s0: State, schedule: seq<Action>, a: Action)
    requires Initial(s0) && Runs(s0, schedule) && Enabled(After(s0, schedule), a)
    ensures After(s0, schedule).m.ioCount >= 0 && Next(After(s0, schedule), a).m.ioCount >= 0
  {
    hide Next;
    InitialKept(s0);
    RunKeeps(s0, schedule);
    NextKeeps(After(s0, schedule), a);
  }

  // A drop inside CancelPendingIO, reached from Release, never finds the release already pending:
  // control always comes back to Release.
  lemma NestedDropComesBack(s0: State, schedule: seq<Action>, t: nat)
    requires Initial(s0) && Runs(s0, schedule)
    requires t < |After(s0, schedule).threads| && After(s0, schedule).threads[t].pc == TakePending(ToRelease)
    ensures !After(s0, schedule).m.releasePending
  {
    InitialKept(s0);
    RunKeeps(s0, schedule);
    KeptExpects(After(s0, schedule), t);
  }

  // Each lease is finished once and only once, by one thread at a time: never while it is in use,
  // at most one finisher while it is being released, exactly one by the time the node is free again.
  lemma FinishedExactlyOnce(s0: State, schedule: seq<Action>)
    requires Initial(s0) && Runs(s0, schedule)
    ensures var s := After(s0, schedule);
            && s.ledger.finished <= 1
            && (s.m.pool.InUse? ==> s.ledger.finished == 0)
            && (s.m.pool.Free? && s.ledger.lease > 0 ==> s.ledger.finished == 1)
            && (forall t, u :: 0 <= t < u < |s.threads| ==> !(s.threads[t].pc.Finish? && s.threads[u].pc.Finish?))
  {
    var s := After(s0, schedule);
    InitialKept(s0);
    RunKeeps(s0, schedule);
    FinishersCarryBatons(s.threads);
    forall t, u | 0 <= t < u < |s.threads|
      ensures !(s.threads[t].pc.Finish? && s.threads[u].pc.Finish?)
    {
      AtLeastTwo(s.threads, t, u, Baton);
    }
  }

  ghost predicate AllAtRest(s: State)
  {
    forall t :: 0 <= t < |s.threads| ==> s.threads[t].pc.Rest?
  }

  // A release is never lost: when no thread is in the middle of an engine call, a session still
  // waiting to be released has units outstanding, and whoever drops the last of them finishes it.
  lemma ReleaseNeverLost(s0: State, schedule: seq<Action>)
    requires Initial(s0) && Runs(s0, schedule) && AllAtRest(After(s0, schedule))
    ensures var s := After(s0, schedule); s.m.pool.Releasing? ==> s.m.releasePending && s.m.ioCount > 0
  {
    InitialKept(s0);
    RunKeeps(s0, schedule);
    RestingReleaseWaits(After(s0, schedule));
  }

  lemma RestingReleaseWaits(s: State)
    requires Kept(s) && AllAtRest(s)
    ensures s.m.pool.Releasing? ==> s.m.releasePending && s.m.ioCount > 0
  {
    Zero(s.threads, Watching);
    Zero(s.threads, Baton);
  }
}
