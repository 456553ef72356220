/**
 The cancel gate.  Once m_cancelIo is up, the I/O that still has to be swept up can only shrink, and
 once the counter has been seen at zero behind the gate nothing is posted again until the reset:
 BeginIO counts before it looks.  Threads that post without holding a unit are included.
 */
module CancelBarrier {
  import opened Tally
  import opened SessionProtocol
  import opened SessionAccounting

  // Past the gate: will post, or mark a pause, whatever m_cancelIo says by then.
  function PastGate(th: Thread): nat { One(th.pc.Issue?) }

  // Operations the kernel still has, operations about to be posted, and a pause nobody has resumed.
  function Stragglers(s: State): nat
  {
    s.k.recv + s.k.send + One(s.m.recvPaused) + Total(s.threads, PastGate)
  }

  ghost predicate GateStaysClosed(s: State, schedule: seq<Action>)
    decreases |schedule|
  {
    s.m.cancelIo &&
    (schedule == [] || (Enabled(s, schedule[0]) && GateStaysClosed(Next(s, schedule[0]), schedule[1..])))
  }

  lemma {:induction false} PastGateIsHeld(threads: seq<Thread>)
    requires forall t :: 0 <= t < |threads| ==> Placed(threads[t])
    ensures Total(threads, PastGate) <= Total(threads, Held)
  {
    if threads != [] {
      PastGateIsHeld(threads[..|threads| - 1]);
    }
  }

  lemma StepSweeps(s: State, th: Thread, choice: bool)
    requires s.m.cancelIo && !th.pc.Rest?
    ensures var e := StepEffect(s, th, choice);
            e.k.recv + e.k.send + One(e.m.recvPaused) + PastGate(e.th)
            <= s.k.recv + s.k.send + One(s.m.recvPaused) + PastGate(th)
  {
    if !th.pc.Issue? {
      StepPostsNothing(s, th, choice);
    }
  }

  lemma StepPostsNothing(s: State, th: Thread, choice: bool)
    requires s.m.cancelIo && !th.pc.Rest? && !th.pc.Issue?
    ensures PostsNothing(s, StepEffect(s, th, choice))
  {
    hide FinishStep, TakeStep, DecrementStep, ReleaseCall, LeaseStep;
    match th.pc {
      case Finish(stage) => FinishPostsNothing(s, th, stage);
      case TakePending(ret) => TakePostsNothing(s, th, Back(ret));
      case GrabPending => TakePostsNothing(s, th, Rest);
      case Decrement(ret) => DecrementPostsNothing(s, th, ret);
      case Decided => ReleasePostsNothing(s, th);
      case Leased => LeasePostsNothing(s, th, choice);
      case Attached => LeasePostsNothing(s, th, choice);
      case _ =>
    }
  }

  // The shared state still owes the kernel as little as before, and the thread is not past the gate.
  ghost predicate PostsNothing(s: State, e: Effect)
  {
    e.k == s.k && One(e.m.recvPaused) <= One(s.m.recvPaused) && PastGate(e.th) == 0
  }

  lemma TakePostsNothing(s: State, th: Thread, lost: Pc)
    requires !lost.Issue?
    ensures PostsNothing(s, TakeStep(s, th, lost))
  {
  }

  lemma DecrementPostsNothing(s: State, th: Thread, ret: Return)
    ensures PostsNothing(s, DecrementStep(s, th, ret))
  {
  }

  lemma ReleasePostsNothing(s: State, th: Thread)
    requires !th.pc.Issue?
    ensures PostsNothing(s, ReleaseCall(s, th))
  {
  }

  lemma LeasePostsNothing(s: State, th: Thread, choice: bool)
    requires th.pc.Leased? || th.pc.Attached?
    ensures PostsNothing(s, LeaseStep(s, th, choice))
  {
  }

  lemma FinishPostsNothing(s: State, th: Thread, stage: nat)
    ensures PostsNothing(s, FinishStep(s, th, stage))
  {
  }

  lemma CallSweeps(s: State, th: Thread, call: Call)
    requires MayStart(s, th, call)
    ensures var e := CallEffect(s, th, call);
            e.k.recv + e.k.send + One(e.m.recvPaused) + PastGate(e.th)
            <= s.k.recv + s.k.send + One(s.m.recvPaused) + PastGate(th)
  {
  }

  lemma NextSweeps(s: State, a: Action)
    requires s.m.cancelIo && Enabled(s, a)
    ensures Stragglers(Next(s, a)) <= Stragglers(s)
  {
    hide StepEffect, CallEffect;
    Update(s.threads, a.t, Next(s, a).threads[a.t], PastGate);
    match a {
      case Start(t, call) => CallSweeps(s, s.threads[t], call);
      case Step(t, choice) => StepSweeps(s, s.threads[t], choice);
    }
  }

  // Behind a closed gate stragglers are never replaced, so finitely many sweeps collect them.
  lemma {:induction false} StragglersOnlyShrink(s: State, schedule: seq<Action>)
    requires GateStaysClosed(s, schedule)
    ensures Runs(s, schedule) && Stragglers(After(s, schedule)) <= Stragglers(s)
    decreases |schedule|
  {
    if schedule != [] {
      NextSweeps(s, schedule[0]);
      StragglersOnlyShrink(Next(s, schedule[0]), schedule[1..]);
    }
  }

  // The barrier: zero seen behind the gate means no I/O is posted, no thread is past the gate, and
  // it stays so under every step up to the reset that reopens the gate.
  lemma ZeroBehindGateIsFinal(s0: State, before: seq<Action>, schedule: seq<Action>)
    requires Initial(s0) && Runs(s0, before)
    requires After(s0, before).m.ioCount == 0 && GateStaysClosed(After(s0, before), schedule)
    ensures Stragglers(After(s0, before)) == 0
    ensures Runs(After(s0, before), schedule) && Stragglers(After(After(s0, before), schedule)) == 0
  {
    var s := After(s0, before);
    InitialKept(s0);
    RunKeeps(s0, before);
    PastGateIsHeld(s.threads);
    StragglersOnlyShrink(s, schedule);
  }

  // The gate only lets through threads that read it open: posting needs a unit taken before the look.
  lemma GateRefusesLateComers(s: State, t: nat, choice: bool)
    requires s.m.cancelIo && t < |s.threads| && s.threads[t].pc.Gate?
    ensures var r := Next(s, Step(t, choice)); r.threads[t].pc == Decrement(ToCaller) && r.k == s.k && r.m == s.m
  {
  }

  // Who comes to the gate after it was closed, or begins a new operation behind it, never posts: at no
  // point of any run behind the gate is such a thread past it, and no step of its own adds an operation
  // to what the kernel has.
  lemma {:induction false} LateComersNeverPost(s: State, schedule: seq<Action>, t: nat, i: nat)
    requires GateStaysClosed(s, schedule) && t < |s.threads| && !s.threads[t].pc.Issue? && i <= |schedule|
    ensures Runs(s, schedule[..i])
    ensures var r := After(s, schedule[..i]);
            && |r.threads| == |s.threads| && !r.threads[t].pc.Issue?
            && (i < |schedule| && schedule[i].t == t ==>
                  Enabled(r, schedule[i]) && OperationsPosted(Next(r, schedule[i])) <= OperationsPosted(r)
                  && (Next(r, schedule[i]).m.recvPaused ==> r.m.recvPaused))
    decreases |schedule|
  {
    if schedule != [] {
      LateComerStaysOut(s, schedule[0], t);
    }
    if i > 0 {
      LateComersNeverPost(Next(s, schedule[0]), schedule[1..], t, i - 1);
      assert schedule[1..][..i - 1] == schedule[..i][1..];
    }
  }

  function OperationsPosted(s: State): nat { s.k.recv + s.k.send }

  lemma LateComerStaysOut(s: State, a: Action, t: nat)
    requires s.m.cancelIo && Enabled(s, a) && t < |s.threads| && !s.threads[t].pc.Issue?
    ensures var r := Next(s, a);
            && |r.threads| == |s.threads| && !r.threads[t].pc.Issue?
            && (a.t == t ==> OperationsPosted(r) <= OperationsPosted(s) && (r.m.recvPaused ==> s.m.recvPaused))
  {
    hide StepEffect, CallEffect;
    if a.t == t {
      match a {
        case Start(_, call) => LateCallStaysOut(s, s.threads[t], call);
        case Step(_, choice) =>
          if s.threads[t].pc.Gate? {
            GateRefusesLateComers(s, t, choice);
          } else {
            StepPostsNothing(s, s.threads[t], choice);
          }
      }
    }
  }

  lemma LateCallStaysOut(s: State, th: Thread, call: Call)
    requires MayStart(s, th, call)
    ensures var e := CallEffect(s, th, call);
            !e.th.pc.Issue? && e.k.recv + e.k.send <= s.k.recv + s.k.send && (e.m.recvPaused ==> s.m.recvPaused)
  {
  }
}
