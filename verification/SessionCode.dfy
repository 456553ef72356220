/**
 The session's release path as the code runs it: every method is a sequence of single reads, stores
 and exchanges, between which every other thread may do anything the protocol allows.  Each of them
 is shown to be a step of the protocol, so the theorems about its runs hold of these methods.
 */
module SessionCode {
  import opened SessionProtocol
  import opened SessionAccounting

  // The steps of one CancelPendingIO in the run: the look at the socket, the exchange of m_cancelIo, the
  // exchange of m_recvPaused and the drop of the pause's unit.
  datatype CancelSteps = CancelSteps(find: nat, arm: nat, drop: nat, decrement: nat)

  class ClientSession {
    // BaseSession, ClientSession and SessionNode
    var ioCount: int
    var cancelIo: bool
    var releasePending: bool
    var recvPaused: bool
    var socket: bool
    var connected: bool
    var notified: bool
    var poolState: PoolState
    // the kernel's overlapped operations, where every thread stands, and the bookkeeping of the lease
    var kernel: Kernel
    var threads: seq<Thread>
    var ledger: Ledger
    // the run that led here, and the states it went through
    ghost var origin: State
    ghost var schedule: seq<Action>
    ghost var states: seq<State>

    function Here(): State
      reads this
    {
      State(Memory(ioCount, cancelIo, releasePending, recvPaused, socket, connected, notified, poolState), kernel, threads, ledger)
    }

    ghost predicate Valid()
      reads this
    {
      Initial(origin) && Runs(origin, schedule) && After(origin, schedule) == Here() && Passes(states, schedule, Here())
    }

    // One state before every step, and the last one here.
    static ghost predicate Passes(states: seq<State>, schedule: seq<Action>, here: State)
    {
      && |states| == |schedule| + 1 && states[|schedule|] == here
      && forall n :: 0 <= n < |schedule| ==> Enabled(states[n], schedule[n]) && states[n + 1] == Next(states[n], schedule[n])
    }

    // Step n of the run is one of thread me, from this program counter.
    static ghost predicate At(schedule: seq<Action>, states: seq<State>, n: nat, me: nat, pc: Pc)
    {
      && n < |schedule| && n + 1 < |states| && schedule[n].Step? && schedule[n].t == me
      && me < |states[n].threads| && states[n].threads[me].pc == pc
    }

    // At step `drop` the pause mark goes down for good, and where it was up the thread's next step drops
    // its unit.
    static ghost predicate Dropped(schedule: seq<Action>, states: seq<State>, me: nat, ret: Return, drop: nat, decrement: nat)
    {
      && At(schedule, states, drop, me, DropPause(ret)) && !states[drop + 1].m.recvPaused
      && (states[drop].m.recvPaused ==>
            drop < decrement && At(schedule, states, decrement, me, Decrement(ret)) && Pauses(schedule, states, me, drop, decrement))
    }

    // m_cancelIo is up if there is a socket, and the pause is dropped unless this thread raised m_cancelIo
    // and CancelIoEx found nothing to cancel, or failed.
    static ghost predicate Cancelled(schedule: seq<Action>, states: seq<State>, me: nat, ret: Return, nothing: bool, from: nat, c: CancelSteps)
    {
      && from <= c.find && At(schedule, states, c.find, me, FindSocket(ret))
      && (states[c.find].m.socket ==> c.find < c.arm && At(schedule, states, c.arm, me, Arm(ret)) && states[c.arm + 1].m.cancelIo)
      && (!states[c.find].m.socket || states[c.arm].m.cancelIo || !nothing ==>
            c.find < c.drop && Dropped(schedule, states, me, ret, c.drop, c.decrement))
    }

    // Thread me takes no step between these two.
    static ghost predicate Pauses(schedule: seq<Action>, states: seq<State>, me: nat, after: nat, until: nat)
    {
      forall n :: after < n < until && n < |schedule| ==> schedule[n].t != me
    }

    // The run goes on from where it was.
    twostate predicate GoesOn()
      reads this
    {
      && origin == old(origin) && |threads| == |old(threads)|
      && old(schedule) <= schedule && old(states) <= states
    }

    // From `skip` steps on, what thread me does is this call alone, and where it asks CancelIoEx it goes on
    // as it was answered.
    twostate predicate Acts(me: nat, skip: nat, nothing: bool)
      reads this
    {
      forall n :: |old(schedule)| + skip <= n < |schedule| && schedule[n].t == me ==>
        n < |states| && me < |states[n].threads| && schedule[n] == Step(me, Answer(states[n].threads[me].pc, nothing))
    }

    // It asks nothing of the system.
    twostate predicate Plain(me: nat)
      reads this
    {
      forall n :: |old(schedule)| <= n < |schedule| && schedule[n].t == me ==>
        n < |states| && me < |states[n].threads| && schedule[n] == Step(me, true) && !states[n].threads[me].pc.Sweep?
    }

    static function Answer(pc: Pc, nothing: bool): bool { if pc.Sweep? then !nothing else true }

    // The operation's own first step comes first.
    twostate predicate Begins(a: Action)
      reads this
    {
      |old(schedule)| < |schedule| && schedule[|old(schedule)|] == a
    }

    constructor (count: nat)
      ensures Valid() && |threads| == count && schedule == [] && poolState == Free
    {
      ioCount, cancelIo, releasePending, recvPaused := 0, false, false, false;
      socket, connected, notified, poolState := false, false, false, Free;
      kernel, threads, ledger := Kernel(0, 0), seq(count, _ => Thread(0, false, NotConnecting, Rest)), Ledger(0, false, 0, 0, 0, 0);
      new;
      origin, schedule, states := Here(), [], [Here()];
    }

    // The step of thread me that the statement just executed was: its effect on the shared fields is
    // there already, the thread moves on.
    method Moved(me: nat, choice: bool, before: State)
      requires Initial(origin) && Runs(origin, schedule) && After(origin, schedule) == before && Passes(states, schedule, before)
      requires me < |before.threads| && !before.threads[me].pc.Rest? && Here().m == Next(before, Step(me, choice)).m
      requires kernel == before.k && threads == before.threads && ledger == before.ledger
      modifies this`kernel, this`threads, this`ledger, this`schedule, this`states
      ensures Valid() && GoesOn() && threads[me] == Next(before, Step(me, choice)).threads[me]
      ensures schedule == old(schedule) + [Step(me, choice)]
      ensures |old(states)| == |old(schedule)| + 1 && states == old(states) + [Here()] && old(states)[|old(schedule)|] == before
    {
      hide Runs, After, Next, Initial, Passes;
      SameCount(before, Step(me, choice));
      var s := Next(before, Step(me, choice));
      kernel, threads, ledger := s.k, s.threads, s.ledger;
      RunsExtend(origin, schedule, Step(me, choice));
      PassesOn(states, schedule, before, Step(me, choice));
      schedule, states := schedule + [Step(me, choice)], states + [s];
    }

    static lemma PassesOn(states: seq<State>, schedule: seq<Action>, s: State, a: Action)
      requires Passes(states, schedule, s) && Enabled(s, a)
      ensures |states| == |schedule| + 1 && states[|schedule|] == s && Passes(states + [Next(s, a)], schedule + [a], Next(s, a))
    {
      hide Enabled, Next;
    }

    method Load(s: State)
      modifies this
      ensures Here() == s && origin == old(origin) && schedule == old(schedule) && states == old(states)
    {
      ioCount, cancelIo, releasePending, recvPaused := s.m.ioCount, s.m.cancelIo, s.m.releasePending, s.m.recvPaused;
      socket, connected, notified, poolState := s.m.socket, s.m.connected, s.m.notified, s.m.pool;
      kernel, threads, ledger := s.k, s.threads, s.ledger;
    }

    // Between two statements of thread me the others run as they like.
    method Others(me: nat)
      requires Valid() && me < |threads|
      modifies this
      ensures Valid() && GoesOn() && threads[me] == old(threads[me])
      ensures forall n :: |old(schedule)| <= n < |schedule| ==> schedule[n].t != me
    {
      hide Runs, After, Next, Enabled, Initial, Passes;
      var steps: nat := *;
      while steps > 0
        invariant Valid() && GoesOn() && me < |threads| && threads[me] == old(threads[me])
        invariant forall n :: |old(schedule)| <= n < |schedule| ==> schedule[n].t != me
      {
        var a: Action := *;
        if a.t != me && Enabled(Here(), a) {
          OnlyItsRow(Here(), a, me);
          RunsExtend(origin, schedule, a);
          PassesOn(states, schedule, Here(), a);
          Load(Next(Here(), a));
          schedule, states := schedule + [a], states + [Here()];
        }
        steps := steps - 1;
      }
    }

    static lemma OnlyItsRow(s: State, a: Action, me: nat)
      requires Enabled(s, a) && a.t != me && me < |s.threads|
      ensures |Next(s, a).threads| == |s.threads| && Next(s, a).threads[me] == s.threads[me]
    {
    }

    static lemma SameCount(s: State, a: Action)
      requires Enabled(s, a)
      ensures |Next(s, a).threads| == |s.threads|
    {
    }

    lemma Sound()
      requires Valid()
      ensures Kept(Here())
    {
      InitialKept(origin);
      RunKeeps(origin, schedule);
    }

    // DecrementIO, and the release it may have to finish.
    method DecrementIO(me: nat, ret: Return)
      requires Valid() && me < |threads| && threads[me].pc == Decrement(ret)
      modifies this
      ensures Valid() && GoesOn() && (threads[me].pc == Back(ret) || (ret.ToCaller? && threads[me].pc.Rest?))
      ensures Plain(me) && At(schedule, states, |old(schedule)|, me, Decrement(ret))
    {
      hide Runs, After, Next, Initial, Enabled, Kept, Passes;
      Sound();
      var before := Here();
      Decrements(before, me, ret);
      ioCount := ioCount - 1;
      var count := ioCount;
      Moved(me, true, before);
      if count != 0 {
        return;
      }
      FinishPending(me, ret);
    }

    // The rest of DecrementIO for the thread that dropped the last unit: the completion event, which is
    // not part of this model, then the exchange of the pending mark.
    method FinishPending(me: nat, ret: Return)
      requires Valid() && me < |threads| && threads[me].pc == Signal(ret)
      modifies this
      ensures Valid() && GoesOn() && (threads[me].pc == Back(ret) || (ret.ToCaller? && threads[me].pc.Rest?))
      ensures Plain(me)
    {
      hide Runs, After, Next, Initial, Enabled, Kept, Passes;
      Others(me);
      var before := Here();
      Signals(before, me, ret);
      Moved(me, true, before);
      var pending := TakeMark(me, ret);
      if pending {
        CompleteRelease(me);
      }
    }

    method TakeMark(me: nat, ret: Return) returns (pending: bool)
      requires Valid() && me < |threads| && threads[me].pc == TakePending(ret)
      modifies this
      ensures Valid() && GoesOn() && threads[me].pc == (if pending then Finish(0) else Back(ret)) && (pending ==> ret.ToCaller?)
      ensures Plain(me)
    {
      hide Runs, After, Next, Initial, Enabled, Kept, Passes;
      Others(me);
      var before := Here();
      Sound();
      Takes(before, me, ret);
      pending := releasePending;
      releasePending := false;
      Moved(me, true, before);
    }

    static lemma Decrements(s: State, me: nat, ret: Return)
      requires me < |s.threads| && s.threads[me].pc == Decrement(ret) && Kept(s)
      ensures var r := Next(s, Step(me, true));
              && r.m == s.m.(ioCount := s.m.ioCount - 1) && |r.threads| == |s.threads| && r.m.ioCount >= 0
              && r.threads[me].pc == if r.m.ioCount == 0 then Signal(ret) else Back(ret)
    {
      hide Kept;
      NextKeeps(s, Step(me, true));
      CountIsNatural(Next(s, Step(me, true)));
    }

    static lemma CountIsNatural(s: State)
      requires Kept(s)
      ensures s.m.ioCount >= 0
    {
    }

    static lemma Signals(s: State, me: nat, ret: Return)
      requires me < |s.threads| && s.threads[me].pc == Signal(ret)
      ensures var r := Next(s, Step(me, true)); r.m == s.m && |r.threads| == |s.threads| && r.threads[me].pc == TakePending(ret)
    {
    }

    // Inside CancelPendingIO called from Release the pending mark is never up yet.
    static lemma Takes(s: State, me: nat, ret: Return)
      requires me < |s.threads| && s.threads[me].pc == TakePending(ret) && Kept(s)
      ensures var r := Next(s, Step(me, true));
              && r.m == s.m.(releasePending := false) && |r.threads| == |s.threads|
              && r.threads[me].pc == (if s.m.releasePending then Finish(0) else Back(ret))
              && (s.m.releasePending ==> ret.ToCaller?)
    {
      KeptExpects(s, me);
    }

    // RequestRelease: true for the caller that has to finish the release itself.
    method RequestRelease(me: nat) returns (mine: bool)
      requires Valid() && me < |threads| && threads[me].pc == MarkPending
      modifies this
      ensures Valid() && GoesOn() && threads[me].pc == if mine then Finish(0) else Rest
      ensures Plain(me)
    {
      hide Runs, After, Next, Initial, Enabled, Passes;
      var before := Here();
      Requests(before, me);
      releasePending := true;
      Moved(me, true, before);
      mine := GrabUnlessHeld(me);
    }

    method GrabUnlessHeld(me: nat) returns (mine: bool)
      requires Valid() && me < |threads| && threads[me].pc == ReadCount
      modifies this
      ensures Valid() && GoesOn() && threads[me].pc == if mine then Finish(0) else Rest
      ensures Plain(me)
    {
      hide Runs, After, Next, Initial, Enabled, Passes;
      Others(me);
      var before := Here();
      Requests(before, me);
      var outstanding := ioCount;
      Moved(me, true, before);
      if outstanding != 0 {
        return false;
      }
      mine := GrabMark(me);
    }

    method GrabMark(me: nat) returns (pending: bool)
      requires Valid() && me < |threads| && threads[me].pc == GrabPending
      modifies this
      ensures Valid() && GoesOn() && threads[me].pc == if pending then Finish(0) else Rest
      ensures Plain(me)
    {
      hide Runs, After, Next, Initial, Enabled, Passes;
      Others(me);
      var before := Here();
      Requests(before, me);
      pending := releasePending;
      releasePending := false;
      Moved(me, true, before);
    }

    static lemma Requests(s: State, me: nat)
      requires me < |s.threads|
      ensures s.threads[me].pc == MarkPending ==>
                var r := Next(s, Step(me, true));
                r.m == s.m.(releasePending := true) && |r.threads| == |s.threads| && r.threads[me].pc == ReadCount
      ensures s.threads[me].pc == ReadCount ==>
                var r := Next(s, Step(me, true));
                r.m == s.m && |r.threads| == |s.threads| && r.threads[me].pc == if s.m.ioCount != 0 then Rest else GrabPending
      ensures s.threads[me].pc == GrabPending ==>
                var r := Next(s, Step(me, true));
                r.m == s.m.(releasePending := false) && |r.threads| == |s.threads|
                && r.threads[me].pc == if s.m.releasePending then Finish(0) else Rest
    {
    }

    // CompleteRelease: socket, notification, state, reset; the last section puts the node back.
    method CompleteRelease(me: nat)
      requires Valid() && me < |threads| && threads[me].pc == Finish(0)
      modifies this
      ensures Valid() && GoesOn() && threads[me].pc == Rest
      ensures Plain(me)
    {
      hide Valid, Runs, After, Next, Initial, Enabled, Passes;
      DetachSocket(me);
      ConsumeServiceConnectNotified(me);
      OnDisconnect(me);
      ResetBaseSession(me);
      ResetClientSession(me);
      PutBack(me);
    }

    method DetachSocket(me: nat)
      requires Valid() && me < |threads| && threads[me].pc == Finish(0)
      modifies this
      ensures Valid() && GoesOn() && threads[me].pc == Finish(1)
      ensures Plain(me)
    {
      hide Runs, After, Next, Initial, Enabled, Passes;
      Others(me);
      var before := Here();
      Finishes(before, me);
      socket := false;
      Moved(me, true, before);
    }

    method ConsumeServiceConnectNotified(me: nat)
      requires Valid() && me < |threads| && threads[me].pc == Finish(1)
      modifies this
      ensures Valid() && GoesOn() && threads[me].pc == Finish(2)
      ensures Plain(me)
    {
      hide Runs, After, Next, Initial, Enabled, Passes;
      Others(me);
      var before := Here();
      Finishes(before, me);
      notified := false;
      Moved(me, true, before);
    }

    method OnDisconnect(me: nat)
      requires Valid() && me < |threads| && threads[me].pc == Finish(2)
      modifies this
      ensures Valid() && GoesOn() && threads[me].pc == Finish(3)
      ensures Plain(me)
    {
      hide Runs, After, Next, Initial, Enabled, Passes;
      Others(me);
      var before := Here();
      Finishes(before, me);
      connected := false;
      Moved(me, true, before);
    }

    // BaseSession::ResetSession
    method ResetBaseSession(me: nat)
      requires Valid() && me < |threads| && threads[me].pc == Finish(3)
      modifies this
      ensures Valid() && GoesOn() && threads[me].pc == Finish(5)
      ensures Plain(me)
    {
      hide Runs, After, Next, Initial, Enabled, Passes;
      Others(me);
      var before := Here();
      Finishes(before, me);
      cancelIo := false;
      Moved(me, true, before);
      ClearPending(me);
    }

    method ClearPending(me: nat)
      requires Valid() && me < |threads| && threads[me].pc == Finish(4)
      modifies this
      ensures Valid() && GoesOn() && threads[me].pc == Finish(5)
      ensures Plain(me)
    {
      hide Runs, After, Next, Initial, Enabled, Passes;
      Others(me);
      var before := Here();
      Finishes(before, me);
      releasePending := false;
      Moved(me, true, before);
    }

    // what ClientSession::ResetSession adds
    method ResetClientSession(me: nat)
      requires Valid() && me < |threads| && threads[me].pc == Finish(5)
      modifies this
      ensures Valid() && GoesOn() && threads[me].pc == Finish(7)
      ensures Plain(me)
    {
      hide Runs, After, Next, Initial, Enabled, Passes;
      Others(me);
      var before := Here();
      Finishes(before, me);
      recvPaused := false;
      Moved(me, true, before);
      ClearNotified(me);
    }

    method ClearNotified(me: nat)
      requires Valid() && me < |threads| && threads[me].pc == Finish(6)
      modifies this
      ensures Valid() && GoesOn() && threads[me].pc == Finish(7)
      ensures Plain(me)
    {
      hide Runs, After, Next, Initial, Enabled, Passes;
      Others(me);
      var before := Here();
      Finishes(before, me);
      notified := false;
      Moved(me, true, before);
    }

    // on the free list and FREE, under the pool lock
    method PutBack(me: nat)
      requires Valid() && me < |threads| && threads[me].pc == Finish(7)
      modifies this
      ensures Valid() && GoesOn() && threads[me].pc == Rest
      ensures Plain(me)
    {
      hide Runs, After, Next, Initial, Enabled, Passes;
      Others(me);
      var before := Here();
      Finishes(before, me);
      poolState := Free;
      Moved(me, true, before);
    }

    static lemma Finishes(s: State, me: nat)
      requires me < |s.threads| && s.threads[me].pc.Finish? && s.threads[me].pc.stage < FINISH_STAGES
      ensures var r, stage := Next(s, Step(me, true)), s.threads[me].pc.stage;
              && |r.threads| == |s.threads| && r.threads[me].pc == (if stage == 7 then Rest else Finish(stage + 1))
              && (stage == 0 ==> r.m == s.m.(socket := false))
              && (stage == 1 ==> r.m == s.m.(notified := false))
              && (stage == 2 ==> r.m == s.m.(connected := false))
              && (stage == 3 ==> r.m == s.m.(cancelIo := false))
              && (stage == 4 ==> r.m == s.m.(releasePending := false))
              && (stage == 5 ==> r.m == s.m.(recvPaused := false))
              && (stage == 6 ==> r.m == s.m.(notified := false))
              && (stage == 7 ==> r.m == s.m.(pool := Free))
    {
    }

    // ReleaseUnpostedIO: drops a pause that nobody will resume any more.
    method ReleaseUnpostedIO(me: nat, ret: Return) returns (ghost decrement: nat)
      requires Valid() && me < |threads| && threads[me].pc == DropPause(ret)
      modifies this
      ensures Valid() && GoesOn() && (threads[me].pc == Back(ret) || (ret.ToCaller? && threads[me].pc.Rest?))
      ensures Plain(me) && Dropped(schedule, states, me, ret, |old(schedule)|, decrement)
    {
      hide Runs, After, Next, Initial, Enabled, Passes;
      decrement := 0;
      var before := Here();
      Cancels(before, me, true);
      var paused := recvPaused;
      recvPaused := false;
      Moved(me, true, before);
      if !paused {
        return;
      }
      Others(me);
      decrement := |schedule|;
      DecrementIO(me, ret);
    }

    // nothing: CancelIoEx finds nothing to cancel, or fails, and the function returns at once.
    method CancelPendingIO(me: nat, ret: Return, nothing: bool) returns (ghost c: CancelSteps)
      requires Valid() && me < |threads| && threads[me].pc == FindSocket(ret)
      modifies this
      ensures Valid() && GoesOn() && (threads[me].pc == Back(ret) || (ret.ToCaller? && threads[me].pc.Rest?))
      ensures Acts(me, 0, nothing) && Cancelled(schedule, states, me, ret, nothing, |old(schedule)|, c)
    {
      hide Dropped, Valid, Runs, After, Next, Initial, Enabled, Passes;
      c := CancelSteps(|schedule|, 0, 0, 0);
      var attached := FindAttached(me, ret);
      if attached {
        var done;
        ghost var arm;
        done, arm := RaiseCancel(me, ret, nothing);
        c := c.(arm := arm);
        if done {
          return;
        }
      }
      ghost var drop, decrement := ReleaseUnpostedNext(me, ret);
      c := c.(drop := drop, decrement := decrement);
    }

    method ReleaseUnpostedNext(me: nat, ret: Return) returns (ghost drop: nat, ghost decrement: nat)
      requires Valid() && me < |threads| && threads[me].pc == DropPause(ret)
      modifies this
      ensures Valid() && GoesOn() && (threads[me].pc == Back(ret) || (ret.ToCaller? && threads[me].pc.Rest?))
      ensures Plain(me) && |old(schedule)| <= drop && Dropped(schedule, states, me, ret, drop, decrement)
    {
      hide Valid, Dropped;
      Others(me);
      drop := |schedule|;
      decrement := ReleaseUnpostedIO(me, ret);
    }

    method FindAttached(me: nat, ret: Return) returns (attached: bool)
      requires Valid() && me < |threads| && threads[me].pc == FindSocket(ret)
      modifies this
      ensures Valid() && GoesOn() && threads[me].pc == (if attached then Arm(ret) else DropPause(ret)) && Plain(me)
      ensures At(schedule, states, |old(schedule)|, me, FindSocket(ret)) && attached == states[|old(schedule)|].m.socket
    {
      hide Runs, After, Next, Initial, Enabled, Passes;
      var before := Here();
      Cancels(before, me, true);
      attached := socket;
      Moved(me, true, before);
    }

    // The exchange of m_cancelIo, and CancelIoEx by the one thread that raised it.
    method RaiseCancel(me: nat, ret: Return, nothing: bool) returns (done: bool, ghost arm: nat)
      requires Valid() && me < |threads| && threads[me].pc == Arm(ret)
      modifies this
      ensures Valid() && GoesOn() && threads[me].pc == if done then Back(ret) else DropPause(ret)
      ensures Acts(me, 0, nothing) && |old(schedule)| <= arm && At(schedule, states, arm, me, Arm(ret)) && states[arm + 1].m.cancelIo
      ensures done == (nothing && !states[arm].m.cancelIo)
    {
      hide Valid, Runs, After, Next, Initial, Enabled, Passes;
      var armed;
      armed, arm := RaiseGate(me, ret);
      if armed {
        return false, arm;
      }
      AskCancelIoEx(me, ret, nothing);
      return nothing, arm;
    }

    method RaiseGate(me: nat, ret: Return) returns (armed: bool, ghost arm: nat)
      requires Valid() && me < |threads| && threads[me].pc == Arm(ret)
      modifies this
      ensures Valid() && GoesOn() && threads[me].pc == (if armed then DropPause(ret) else Sweep(ret)) && Plain(me)
      ensures |old(schedule)| <= arm && At(schedule, states, arm, me, Arm(ret))
      ensures armed == states[arm].m.cancelIo && states[arm + 1].m.cancelIo
    {
      hide Runs, After, Next, Initial, Enabled, Passes;
      Others(me);
      arm := |schedule|;
      var before := Here();
      Cancels(before, me, true);
      armed := cancelIo;
      cancelIo := true;
      Moved(me, true, before);
    }

    method AskCancelIoEx(me: nat, ret: Return, nothing: bool)
      requires Valid() && me < |threads| && threads[me].pc == Sweep(ret)
      modifies this
      ensures Valid() && GoesOn() && threads[me].pc == (if nothing then Back(ret) else DropPause(ret)) && Acts(me, 0, nothing)
    {
      hide Runs, After, Next, Initial, Enabled, Passes;
      Others(me);
      var before := Here();
      Cancels(before, me, !nothing);
      Moved(me, !nothing, before);
    }

    static lemma Cancels(s: State, me: nat, choice: bool)
      requires me < |s.threads|
      ensures s.threads[me].pc.FindSocket? ==>
                var r, ret := Next(s, Step(me, choice)), s.threads[me].pc.ret;
                r.m == s.m && |r.threads| == |s.threads| && r.threads[me].pc == if s.m.socket then Arm(ret) else DropPause(ret)
      ensures s.threads[me].pc.Arm? ==>
                var r, ret := Next(s, Step(me, choice)), s.threads[me].pc.ret;
                r.m == s.m.(cancelIo := true) && |r.threads| == |s.threads|
                && r.threads[me].pc == if s.m.cancelIo then DropPause(ret) else Sweep(ret)
      ensures s.threads[me].pc.Sweep? ==>
                var r, ret := Next(s, Step(me, choice)), s.threads[me].pc.ret;
                r.m == s.m && |r.threads| == |s.threads| && r.threads[me].pc == if choice then DropPause(ret) else Back(ret)
      ensures s.threads[me].pc.DropPause? ==>
                var r, ret := Next(s, Step(me, choice)), s.threads[me].pc.ret;
                r.m == s.m.(recvPaused := false) && |r.threads| == |s.threads|
                && r.threads[me].pc == if s.m.recvPaused then Decrement(ret) else Back(ret)
    {
    }

    // ClientSessionPool::Release, called by a thread that holds a unit, or without one by a thread that
    // decided to while it saw the session connected: the IN_USE -> RELEASING exchange, the look whether it
    // is connected, the cancel, and the request; whoever has to finish does so.
    method Release(me: nat, nothing: bool) returns (ghost look: nat, ghost c: CancelSteps)
      requires Valid() && me < |threads|
      requires threads[me].pc == Decided || MayStart(Here(), threads[me], Call.Release)
      modifies this
      ensures Valid() && GoesOn() && threads[me].pc == Rest
      ensures Begins(if old(threads)[me].pc.Decided? then Step(me, true) else Start(me, Call.Release)) && Acts(me, 1, nothing)
      ensures if old(poolState) == InUse then
                At(schedule, states, look, me, Won) && (states[look].m.connected ==> Cancelled(schedule, states, me, ToRelease, nothing, look, c))
              else schedule == old(schedule) + [schedule[|old(schedule)|]]
    {
      hide Valid, Runs, After, Next, Initial, Enabled, Passes, Cancelled;
      look, c := 0, CancelSteps(0, 0, 0, 0);
      var won := WinRelease(me);
      if !won {
        return;
      }
      look, c := CancelIfConnected(me, nothing);
      ghost var so, st := schedule, states;
      Others(me);
      RequestAndFinish(me);
      if states[look].m.connected { StaysCancelled(so, st, me, ToRelease, nothing, look, c, schedule, states, look); }
    }

    // The IN_USE -> RELEASING exchange.
    method WinRelease(me: nat) returns (won: bool)
      requires Valid() && me < |threads|
      requires threads[me].pc == Decided || MayStart(Here(), threads[me], Call.Release)
      modifies this
      ensures Valid() && GoesOn() && won == (old(poolState) == InUse) && threads[me].pc == if won then Won else Rest
      ensures schedule == old(schedule) + [if old(threads)[me].pc.Decided? then Step(me, true) else Start(me, Call.Release)]
    {
      hide Runs, After, Next, Initial, Enabled, Passes;
      var before := Here();
      Wins(before, me);
      won := poolState == InUse;
      if won {
        poolState := Releasing;
      }
      if threads[me].pc.Decided? {
        Moved(me, true, before);
      } else {
        Began(me, Call.Release, before);
      }
    }

    static lemma StaysCancelled(schedule: seq<Action>, states: seq<State>, me: nat, ret: Return, nothing: bool, from: nat,
                                c: CancelSteps, longer: seq<Action>, more: seq<State>, earlier: nat)
      requires Cancelled(schedule, states, me, ret, nothing, from, c) && schedule <= longer && states <= more && earlier <= from
      ensures Cancelled(longer, more, me, ret, nothing, earlier, c)
    {
    }

    // The winner of the exchange looks whether the session is connected, and only then cancels.
    method CancelIfConnected(me: nat, nothing: bool) returns (ghost look: nat, ghost c: CancelSteps)
      requires Valid() && me < |threads| && threads[me].pc == Won
      modifies this
      ensures Valid() && GoesOn() && threads[me].pc == MarkPending && Acts(me, 0, nothing)
      ensures |old(schedule)| <= look && At(schedule, states, look, me, Won)
      ensures states[look].m.connected ==> Cancelled(schedule, states, me, ToRelease, nothing, look, c)
    {
      hide Cancelled, Valid, Runs, After, Next, Initial, Enabled, Passes;
      c := CancelSteps(0, 0, 0, 0);
      var isConnected;
      isConnected, look := LookConnected(me);
      if isConnected {
        Others(me);
        ghost var from := |schedule|;
        c := CancelPendingIO(me, ToRelease, nothing);
        StaysCancelled(schedule, states, me, ToRelease, nothing, from, c, schedule, states, look);
      }
    }

    method LookConnected(me: nat) returns (isConnected: bool, ghost look: nat)
      requires Valid() && me < |threads| && threads[me].pc == Won
      modifies this
      ensures Valid() && GoesOn() && threads[me].pc == (if isConnected then FindSocket(ToRelease) else MarkPending) && Plain(me)
      ensures |old(schedule)| <= look && At(schedule, states, look, me, Won) && isConnected == states[look].m.connected
    {
      hide Runs, After, Next, Initial, Enabled, Passes;
      Others(me);
      look := |schedule|;
      var before := Here();
      Wins(before, me);
      isConnected := connected;
      Moved(me, true, before);
    }

    method RequestAndFinish(me: nat)
      requires Valid() && me < |threads| && threads[me].pc == MarkPending
      modifies this
      ensures Valid() && GoesOn() && threads[me].pc == Rest
      ensures Plain(me)
    {
      hide Valid, Runs, After, Next, Initial, Enabled, Passes;
      var mine := RequestRelease(me);
      if !mine {
        return;
      }
      Others(me);
      CompleteRelease(me);
    }

    // A service thread without a unit may decide to release a session it sees connected.
    method Decide(me: nat)
      requires Valid() && me < |threads| && MayStart(Here(), threads[me], Call.Decide)
      modifies this
      ensures Valid() && GoesOn() && schedule == old(schedule) + [Start(me, Call.Decide)] && threads[me].pc == Decided
    {
      var before := Here();
      Began(me, Call.Decide, before);
    }

    static lemma Wins(s: State, me: nat)
      requires me < |s.threads|
      ensures s.threads[me].pc == Decided || MayStart(s, s.threads[me], Call.Release) ==>
                var r := Next(s, if s.threads[me].pc.Decided? then Step(me, true) else Start(me, Call.Release));
                && |r.threads| == |s.threads|
                && r.m == (if s.m.pool == InUse then s.m.(pool := Releasing) else s.m)
                && r.threads[me].pc == (if s.m.pool != InUse then Rest else Won)
      ensures s.threads[me].pc == Won ==>
                var r := Next(s, Step(me, true));
                && r.m == s.m && |r.threads| == |s.threads|
                && r.threads[me].pc == (if s.m.connected then FindSocket(ToRelease) else MarkPending)
    {
    }

    // BeginIO, from the increment on, also by a service thread that sends without holding a unit; true:
    // past the gate with the unit, to post or to mark a pause.
    method BeginIO(me: nat, purpose: Purpose) returns (ok: bool)
      requires Valid() && me < |threads| && MayStart(Here(), threads[me], CallFor(threads[me], purpose))
      modifies this
      ensures Valid() && GoesOn() && (if ok then threads[me].pc == Issue(purpose) else threads[me].pc.Rest?)
      ensures Begins(Start(me, CallFor(old(threads)[me], purpose))) && forall nothing :: Acts(me, 1, nothing)
    {
      hide Runs, After, Next, Initial, Enabled, Passes;
      var before := Here();
      Counts(before, me, purpose);
      ioCount := ioCount + 1;
      Began(me, CallFor(threads[me], purpose), before);
      var cancelled := LookAtGate(me, purpose);
      if !cancelled {
        return true;
      }
      Others(me);
      DecrementIO(me, ToCaller);
      return false;
    }

    method LookAtGate(me: nat, purpose: Purpose) returns (cancelled: bool)
      requires Valid() && me < |threads| && threads[me].pc == Gate(purpose)
      modifies this
      ensures Valid() && GoesOn() && threads[me].pc == (if cancelled then Decrement(ToCaller) else Issue(purpose)) && Plain(me)
    {
      hide Runs, After, Next, Initial, Enabled, Passes;
      Others(me);
      var before := Here();
      Looks(before, me, purpose);
      cancelled := cancelIo;
      Moved(me, true, before);
    }

    // The first step of a call, as Moved is of the later ones.
    method Began(me: nat, call: Call, before: State)
      requires Initial(origin) && Runs(origin, schedule) && After(origin, schedule) == before && Passes(states, schedule, before)
      requires me < |before.threads| && MayStart(before, before.threads[me], call) && Here().m == Next(before, Start(me, call)).m
      requires kernel == before.k && threads == before.threads && ledger == before.ledger
      modifies this`kernel, this`threads, this`ledger, this`schedule, this`states
      ensures Valid() && GoesOn() && threads[me] == Next(before, Start(me, call)).threads[me]
      ensures schedule == old(schedule) + [Start(me, call)]
    {
      hide Runs, After, Next, Initial, Passes;
      SameCount(before, Start(me, call));
      var s := Next(before, Start(me, call));
      kernel, threads, ledger := s.k, s.threads, s.ledger;
      RunsExtend(origin, schedule, Start(me, call));
      PassesOn(states, schedule, before, Start(me, call));
      schedule, states := schedule + [Start(me, call)], states + [s];
    }

    static function CallFor(th: Thread, purpose: Purpose): Call
    {
      if th.held == 0 && purpose.Send? then BeginIOUnheld else Call.BeginIO(purpose)
    }

    static lemma Counts(s: State, me: nat, purpose: Purpose)
      requires me < |s.threads| && MayStart(s, s.threads[me], CallFor(s.threads[me], purpose))
      ensures var r := Next(s, Start(me, CallFor(s.threads[me], purpose)));
              && r.m == s.m.(ioCount := s.m.ioCount + 1) && |r.threads| == |s.threads|
              && r.threads[me].pc == Gate(purpose) && r.threads[me].held == s.threads[me].held + 1
    {
    }

    static lemma Looks(s: State, me: nat, purpose: Purpose)
      requires me < |s.threads| && s.threads[me].pc == Gate(purpose)
      ensures var r := Next(s, Step(me, true));
              && r.m == s.m && |r.threads| == |s.threads|
              && r.threads[me].pc == (if s.m.cancelIo then Decrement(ToCaller) else Issue(purpose))
    {
    }
  }
}
