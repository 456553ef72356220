/**
 Accepting as the code runs it, statement by statement between the steps of all other threads; each
 statement is a step of the accept slot protocol.
 */
module AcceptCode {
  import opened AcceptSlots

  class IOCPServer {
    // the AcceptSession objects, m_postedAcceptCount, m_serverShutdownRequested
    var slots: seq<Slot>
    var postedCount: int
    var shutdown: bool
    // where every thread stands, and how often ReleaseSlot found nothing to release
    var threads: seq<Pc>
    var violations: nat
    // the run that led here, and the states it went through
    ghost var origin: State
    ghost var schedule: seq<Action>
    ghost var states: seq<State>

    function Here(): State
      reads this
    {
      State(slots, postedCount, shutdown, threads, violations)
    }

    ghost predicate Valid()
      reads this
    {
      && Initial(origin) && Runs(origin, schedule) && After(origin, schedule) == Here() && Passes(states, schedule, Here())
      && forall t :: 0 <= t < |threads| ==> Names(threads[t], |slots|)
    }

    twostate predicate GoesOn()
      reads this
    {
      && origin == old(origin) && |threads| == |old(threads)| && |slots| == |old(slots)|
      && old(schedule) <= schedule && old(states) <= states && (old(shutdown) ==> shutdown)
    }

    // One state before every step, and the last one here.
    static ghost predicate Passes(states: seq<State>, schedule: seq<Action>, here: State)
    {
      && |states| == |schedule| + 1 && states[|schedule|] == here
      && forall n :: 0 <= n < |schedule| ==> Enabled(states[n], schedule[n]) && states[n + 1] == Next(states[n], schedule[n])
    }

    static lemma PassesOn(states: seq<State>, schedule: seq<Action>, s: State, a: Action)
      requires Passes(states, schedule, s) && Enabled(s, a)
      ensures |states| == |schedule| + 1 && states[|schedule|] == s && Passes(states + [Next(s, a)], schedule + [a], Next(s, a))
    {
      hide Enabled, Next;
    }

    // Step n of the run is one of thread me, from this program counter.
    static ghost predicate At(schedule: seq<Action>, states: seq<State>, n: nat, me: nat, pc: Pc)
    {
      && n < |schedule| && n + 1 < |states| && schedule[n].Step? && schedule[n].t == me
      && me < |states[n].threads| && states[n].threads[me] == pc
    }

    // From `skip` steps on, what thread me does is this call on this slot alone, and WSASocket and AcceptEx
    // answer it as told.
    twostate predicate Acts(me: nat, skip: nat, k: nat, madeSocket: bool, accepted: bool)
      reads this
    {
      forall n :: |old(schedule)| + skip <= n < |schedule| && !ByOther(schedule[n], me) ==>
        && n < |states| && me < |states[n].threads| && !states[n].threads[me].Idle? && states[n].threads[me].slot == k
        && schedule[n] == Step(me, Answer(states[n].threads[me], madeSocket, accepted))
    }

    // The same of a statement that asks the system nothing.
    twostate predicate OnItsOwn(me: nat, skip: nat, k: nat)
      reads this
    {
      forall n :: |old(schedule)| + skip <= n < |schedule| && !ByOther(schedule[n], me) ==>
        && n < |states| && me < |states[n].threads| && !states[n].threads[me].Idle? && states[n].threads[me].slot == k
        && !states[n].threads[me].Socket? && !states[n].threads[me].Issue? && schedule[n] == Step(me, true)
    }

    static function Answer(pc: Pc, madeSocket: bool, accepted: bool): bool
    {
      if pc.Socket? then madeSocket else if pc.Issue? then accepted else true
    }

    // At step n of the run thread me calls AcceptEx on the slot, and it goes through.
    static ghost predicate PostedAt(schedule: seq<Action>, states: seq<State>, me: nat, k: nat, c: Caller, from: nat, n: nat)
    {
      && from <= n && At(schedule, states, n, me, Issue(k, c)) && schedule[n] == Step(me, true)
      && k < |states[n].slots| && k < |states[n + 1].slots| && states[n + 1].slots[k].posted == states[n].slots[k].posted + 1
    }

    // The slot is posted on exactly when WSASocket and AcceptEx go through; it is not only if one of them
    // does not, or in shutdown.
    ghost predicate Answered(me: nat, k: nat, c: Caller, isPosted: bool, madeSocket: bool, accepted: bool, from: nat, issue: nat)
      reads this
    {
      if isPosted then madeSocket && accepted && PostedAt(schedule, states, me, k, c, from, issue)
      else !madeSocket || !accepted || shutdown
    }

    // The operation's own first step comes first.
    twostate predicate Begins(a: Action)
      reads this
    {
      |old(schedule)| < |schedule| && schedule[|old(schedule)|] == a
    }

    constructor (slotCount: nat, threadCount: nat)
      ensures Valid() && |slots| == slotCount && |threads| == threadCount
    {
      slots, postedCount, shutdown := seq(slotCount, _ => Slot(false, 0, 0)), 0, false;
      threads, violations := seq(threadCount, _ => Idle), 0;
      new;
      origin, schedule, states := Here(), [], [Here()];
    }

    method Load(s: State)
      modifies this
      ensures Here() == s && origin == old(origin) && schedule == old(schedule) && states == old(states)
    {
      slots, postedCount, shutdown, threads, violations := s.slots, s.postedCount, s.shutdown, s.threads, s.violations;
    }

    // Whatever step is taken, the run that led here stays one of the protocol's.
    static lemma StaysNamed(origin: State, schedule: seq<Action>, s: State, a: Action)
      requires Initial(origin) && Runs(origin, schedule) && After(origin, schedule) == s && Enabled(s, a)
      ensures Runs(origin, schedule + [a]) && After(origin, schedule + [a]) == Next(s, a)
      ensures forall t :: 0 <= t < |Next(s, a).threads| ==> Names(Next(s, a).threads[t], |Next(s, a).slots|)
    {
      hide Enabled, Next, Initial, Runs, After;
      InitialIsSound(origin);
      RunIsSound(origin, schedule);
      NextIsSound(s, a);
      RunsExtend(origin, schedule, a);
    }

    // The step the statement just executed was: the shared fields have changed already, the thread moves on.
    method Moved(a: Action, before: State)
      requires Initial(origin) && Runs(origin, schedule) && After(origin, schedule) == before && Passes(states, schedule, before)
      requires Enabled(before, a) && threads == before.threads && violations == before.violations
      requires var s := Next(before, a); slots == s.slots && postedCount == s.postedCount && shutdown == s.shutdown
      modifies this`threads, this`violations, this`schedule, this`states
      ensures Valid() && origin == old(origin) && |threads| == |old(threads)|
      ensures threads == Next(before, a).threads && violations == Next(before, a).violations
      ensures schedule == old(schedule) + [a]
      ensures |old(states)| == |old(schedule)| + 1 && states == old(states) + [Here()] && old(states)[|old(schedule)|] == before
    {
      hide Runs, After, Next, Initial, Enabled, Names, Passes;
      StaysNamed(origin, schedule, before, a);
      PassesOn(states, schedule, before, a);
      var s := Next(before, a);
      threads, violations := s.threads, s.violations;
      schedule, states := schedule + [a], states + [s];
    }

    static predicate ByOther(a: Action, me: nat)
    {
      a.Shutdown? || a.t != me
    }

    // Between two statements the others run as they like, and shutdown may be requested.
    method Others(me: nat)
      requires Valid() && me < |threads|
      modifies this
      ensures Valid() && GoesOn() && threads[me] == old(threads)[me]
      ensures forall n :: |old(schedule)| <= n < |schedule| ==> ByOther(schedule[n], me)
    {
      hide Runs, After, Next, Enabled, Initial, ByOther, Names, Passes;
      var steps: nat := *;
      while steps > 0
        invariant Valid() && GoesOn() && me < |threads| && threads[me] == old(threads)[me]
        invariant forall n :: |old(schedule)| <= n < |schedule| ==> ByOther(schedule[n], me)
      {
        var a: Action := *;
        if ByOther(a, me) && Enabled(Here(), a) {
          OnlyItsRow(Here(), a, me);
          StaysNamed(origin, schedule, Here(), a);
          PassesOn(states, schedule, Here(), a);
          Load(Next(Here(), a));
          schedule, states := schedule + [a], states + [Here()];
        }
        steps := steps - 1;
      }
    }

    static lemma OnlyItsRow(s: State, a: Action, me: nat)
      requires Enabled(s, a) && ByOther(a, me) && me < |s.threads|
      ensures Next(s, a).threads[me] == s.threads[me] && (s.shutdown ==> Next(s, a).shutdown)
    {
    }

    // What the protocol's invariants say of the slot of a thread that is about to give it up.
    lemma Owned(me: nat)
      requires Valid() && me < |threads| && !threads[me].Idle? && HoldsSlot(threads[me]) == 1
      ensures slots[threads[me].slot].owned
    {
      hide Runs, After, Initial;
      InitialIsSound(origin);
      RunIsSound(origin, schedule);
      var k := threads[me].slot;
      assert SlotSound(Here(), k);
      RowMoves(Here(), me, Idle, k);
    }

    // --- AcceptSession ------------------------------------------------------------------------------

    // TryAcquireSlot: the 0 -> 1 exchange.
    method TryAcquireSlot(me: nat) returns (won: bool)
      requires Valid() && me < |threads| && threads[me].Scan?
      modifies this
      ensures Valid() && GoesOn()
      ensures var k := old(threads)[me].slot; threads[me] == if won then Top(k, Refill) else Onward(k, |slots|)
      ensures won == !old(slots)[old(threads)[me].slot].owned
      ensures schedule == old(schedule) + [Step(me, true)] && At(schedule, states, |old(schedule)|, me, old(threads)[me])
      ensures states[|old(schedule)|].slots == old(slots)
    {
      hide Runs, After, Initial, Passes;
      var before, k := Here(), threads[me].slot;
      won := !slots[k].owned;
      slots := slots[k := slots[k].(owned := true)];
      Moved(Step(me, true), before);
    }

    // ReleaseSlot; the slot is owned whenever a thread comes here.
    method ReleaseSlot(me: nat)
      requires Valid() && me < |threads| && (threads[me].Failed? || threads[me].Leave?)
      modifies this
      ensures Valid() && GoesOn() && violations == old(violations)
      ensures var pc := old(threads)[me]; threads[me] == if pc == Failed(pc.slot, Handler) then Drop(pc.slot) else Idle
      ensures !slots[old(threads)[me].slot].owned
      ensures schedule == old(schedule) + [Step(me, true)] && At(schedule, states, |old(schedule)|, me, old(threads)[me])
    {
      Owned(me);
      hide Runs, After, Initial, Passes;
      var before, k := Here(), threads[me].slot;
      slots := slots[k := slots[k].(owned := false)];
      Moved(Step(me, true), before);
    }

    // --- PostAccept ---------------------------------------------------------------------------------

    // madeSocket and accepted: what WSASocket and AcceptEx answer.
    method PostAccept(me: nat, k: nat, c: Caller, madeSocket: bool, accepted: bool) returns (isPosted: bool, ghost issue: nat)
      requires Valid() && me < |threads| && threads[me] == Top(k, c)
      modifies this
      ensures Valid() && GoesOn() && Acts(me, 0, k, madeSocket, accepted)
      ensures threads[me] == if !isPosted then Failed(k, c) else if c.Refill? then Onward(k, |slots|) else Drop(k)
      ensures Answered(me, k, c, isPosted, madeSocket, accepted, |old(schedule)|, issue)
    {
      hide Valid;
      issue := 0;
      var refused := LookFirst(me, k, c);
      if refused {
        return false, 0;
      }
      Others(me);
      MakeSocket(me, k, c, madeSocket);
      if !madeSocket {
        return false, 0;
      }
      Others(me);
      isPosted, issue := CountAndPost(me, k, c, accepted);
    }

    method LookFirst(me: nat, k: nat, c: Caller) returns (refused: bool)
      requires Valid() && me < |threads| && threads[me] == Top(k, c)
      modifies this
      ensures Valid() && GoesOn() && threads[me] == (if refused then Failed(k, c) else Socket(k, c)) && (refused ==> shutdown)
      ensures OnItsOwn(me, 0, k)
    {
      hide Runs, After, Initial, Passes;
      var before := Here();
      refused := shutdown;
      Moved(Step(me, true), before);
    }

    method MakeSocket(me: nat, k: nat, c: Caller, madeSocket: bool)
      requires Valid() && me < |threads| && threads[me] == Socket(k, c)
      modifies this
      ensures Valid() && GoesOn() && threads[me] == if madeSocket then Count(k, c) else Failed(k, c)
      ensures schedule == old(schedule) + [Step(me, madeSocket)] && At(schedule, states, |old(schedule)|, me, Socket(k, c))
    {
      hide Runs, After, Initial, Passes;
      var before := Here();
      Moved(Step(me, madeSocket), before);         // WSASocket
    }

    // The count goes up before the second look at the flag: it is the barrier of the shutdown.
    method CountAndPost(me: nat, k: nat, c: Caller, accepted: bool) returns (isPosted: bool, ghost issue: nat)
      requires Valid() && me < |threads| && threads[me] == Count(k, c)
      modifies this
      ensures Valid() && GoesOn() && Acts(me, 0, k, true, accepted)
      ensures threads[me] == if !isPosted then Failed(k, c) else if c.Refill? then Onward(k, |slots|) else Drop(k)
      ensures Answered(me, k, c, isPosted, true, accepted, |old(schedule)|, issue)
    {
      hide Valid;
      issue := 0;
      CountUp(me, k, c);
      Others(me);
      var refused := LookAgain(me, k, c);
      Others(me);
      if refused {
        Uncounted(me, k, c);
        return false, 0;
      }
      isPosted, issue := CallAcceptEx(me, k, c, accepted);
    }

    method CountUp(me: nat, k: nat, c: Caller)
      requires Valid() && me < |threads| && threads[me] == Count(k, c)
      modifies this
      ensures Valid() && GoesOn() && threads[me] == Look(k, c)
      ensures OnItsOwn(me, 0, k)
    {
      hide Runs, After, Initial, Passes;
      var before := Here();
      slots := slots[k := slots[k].(ioCount := slots[k].ioCount + 1)];
      Moved(Step(me, true), before);
    }

    method LookAgain(me: nat, k: nat, c: Caller) returns (refused: bool)
      requires Valid() && me < |threads| && threads[me] == Look(k, c)
      modifies this
      ensures Valid() && GoesOn() && threads[me] == (if refused then Uncount(k, c) else Issue(k, c)) && (refused ==> shutdown)
      ensures OnItsOwn(me, 0, k)
    {
      hide Runs, After, Initial, Passes;
      var before := Here();
      refused := shutdown;
      Moved(Step(me, true), before);
    }

    method CallAcceptEx(me: nat, k: nat, c: Caller, accepted: bool) returns (isPosted: bool, ghost issue: nat)
      requires Valid() && me < |threads| && threads[me] == Issue(k, c)
      modifies this
      ensures Valid() && GoesOn() && isPosted == accepted && Acts(me, 0, k, true, accepted)
      ensures threads[me] == if !isPosted then Failed(k, c) else if c.Refill? then Onward(k, |slots|) else Drop(k)
      ensures Answered(me, k, c, isPosted, true, accepted, |old(schedule)|, issue)
    {
      hide Valid;
      isPosted, issue := accepted, |schedule|;
      IssueAcceptEx(me, k, c, accepted);
      Others(me);
      if accepted {
        NotePosted(me, k, c);
      } else {
        Uncounted(me, k, c);
      }
    }

    method IssueAcceptEx(me: nat, k: nat, c: Caller, accepted: bool)
      requires Valid() && me < |threads| && threads[me] == Issue(k, c)
      modifies this
      ensures Valid() && GoesOn() && threads[me] == (if accepted then Note(k, c) else Uncount(k, c)) && Acts(me, 0, k, true, accepted)
      ensures accepted ==> Answered(me, k, c, true, true, true, |old(schedule)|, |old(schedule)|)
    {
      hide Runs, After, Initial, Passes;
      var before := Here();
      if accepted {
        slots := slots[k := slots[k].(posted := slots[k].posted + 1)];
      }
      Moved(Step(me, accepted), before);
    }

    method NotePosted(me: nat, k: nat, c: Caller)
      requires Valid() && me < |threads| && threads[me] == Note(k, c)
      modifies this
      ensures Valid() && GoesOn() && threads[me] == if c.Refill? then Onward(k, |slots|) else Drop(k)
      ensures OnItsOwn(me, 0, k)
    {
      hide Runs, After, Initial, Passes;
      var before := Here();
      postedCount := postedCount + 1;
      Moved(Step(me, true), before);
    }

    method Uncounted(me: nat, k: nat, c: Caller)
      requires Valid() && me < |threads| && threads[me] == Uncount(k, c)
      modifies this
      ensures Valid() && GoesOn() && threads[me] == Failed(k, c)
      ensures OnItsOwn(me, 0, k)
    {
      hide Runs, After, Initial, Passes;
      var before := Here();
      slots := slots[k := slots[k].(ioCount := slots[k].ioCount - 1)];
      Moved(Step(me, true), before);
    }

    // --- HandleAccept, HandleAcceptIOCancelled, RefillAcceptSlots -------------------------------------

    method DecrementIO(me: nat)
      requires Valid() && me < |threads| && (threads[me].Drop? || threads[me].Quit?)
      modifies this
      ensures Valid() && GoesOn()
      ensures threads[me] == if old(threads)[me].Drop? then Idle else Leave(old(threads)[me].slot)
      ensures OnItsOwn(me, 0, old(threads)[me].slot)
    {
      hide Runs, After, Initial, Passes;
      var before, k := Here(), threads[me].slot;
      slots := slots[k := slots[k].(ioCount := slots[k].ioCount - 1)];
      Moved(Step(me, true), before);
    }

    // A completed or an aborted AcceptEx leaves the kernel and is no longer counted as posted.
    method Unpost(me: nat, k: nat, aborted: bool)
      requires Valid() && me < |threads| && threads[me].Idle? && k < |slots| && slots[k].posted > 0
      modifies this
      ensures Valid() && GoesOn() && threads[me] == if aborted then Quit(k) else Handle(k)
      ensures Begins(if aborted then Abort(me, k) else Complete(me, k))
      ensures OnItsOwn(me, 1, k)
    {
      hide Valid;
      LeaveKernel(me, k, aborted);
      Others(me);
      TakeOff(me);
    }

    method LeaveKernel(me: nat, k: nat, aborted: bool)
      requires Valid() && me < |threads| && threads[me].Idle? && k < |slots| && slots[k].posted > 0
      modifies this
      ensures Valid() && GoesOn() && threads[me] == if aborted then Aborted(k) else Completed(k)
      ensures schedule == old(schedule) + [if aborted then Abort(me, k) else Complete(me, k)]
    {
      hide Runs, After, Initial, Passes;
      var before := Here();
      slots := slots[k := slots[k].(posted := slots[k].posted - 1)];
      Moved(if aborted then Abort(me, k) else Complete(me, k), before);
    }

    method TakeOff(me: nat)
      requires Valid() && me < |threads| && (threads[me].Completed? || threads[me].Aborted?)
      modifies this
      ensures Valid() && GoesOn()
      ensures var pc := old(threads)[me]; threads[me] == if pc.Aborted? then Quit(pc.slot) else Handle(pc.slot)
      ensures OnItsOwn(me, 0, old(threads)[me].slot)
    {
      hide Runs, After, Initial, Passes;
      var before := Here();
      postedCount := postedCount - 1;
      Moved(Step(me, true), before);
    }

    // HandleAccept up to its DecrementIO on the accept session; what becomes of the accepted socket does
    // not matter to the slot.  quit: in shutdown the slot is given up; else it is posted on again.
    method HandleAccept(me: nat, k: nat, madeSocket: bool, accepted: bool) returns (quit: bool, isPosted: bool, ghost issue: nat)
      requires Valid() && me < |threads| && threads[me].Idle? && k < |slots| && slots[k].posted > 0
      modifies this
      ensures Valid() && GoesOn() && Begins(Complete(me, k)) && threads[me].Idle? && Acts(me, 1, k, madeSocket, accepted)
      ensures if quit then shutdown else Answered(me, k, Handler, isPosted, madeSocket, accepted, |old(schedule)|, issue)
    {
      hide Valid, Answered;
      Unpost(me, k, false);
      Others(me);
      ghost var from := |schedule|;
      quit, isPosted, issue := Handled(me, k, madeSocket, accepted);
      if !quit {
        Sooner(me, k, Handler, isPosted, madeSocket, accepted, from, issue, |old(schedule)|);
      }
    }

    method Handled(me: nat, k: nat, madeSocket: bool, accepted: bool) returns (quit: bool, isPosted: bool, ghost issue: nat)
      requires Valid() && me < |threads| && threads[me] == Handle(k)
      modifies this
      ensures Valid() && GoesOn() && threads[me].Idle? && Acts(me, 0, k, madeSocket, accepted)
      ensures if quit then shutdown else Answered(me, k, Handler, isPosted, madeSocket, accepted, |old(schedule)|, issue)
    {
      hide Valid, Answered;
      isPosted, issue := false, 0;
      quit := LookAtHandling(me, k);
      Others(me);
      if quit {
        GiveUpSlot(me, k);
        return;
      }
      ghost var from := |schedule|;
      isPosted, issue := PostAgain(me, k, madeSocket, accepted);
      Sooner(me, k, Handler, isPosted, madeSocket, accepted, from, issue, |old(schedule)|);
    }

    lemma Sooner(me: nat, k: nat, c: Caller, isPosted: bool, madeSocket: bool, accepted: bool, from: nat, issue: nat, earlier: nat)
      requires Answered(me, k, c, isPosted, madeSocket, accepted, from, issue) && earlier <= from
      ensures Answered(me, k, c, isPosted, madeSocket, accepted, earlier, issue)
    {
    }

    method LookAtHandling(me: nat, k: nat) returns (quit: bool)
      requires Valid() && me < |threads| && threads[me] == Handle(k)
      modifies this
      ensures Valid() && GoesOn() && threads[me] == (if quit then Quit(k) else Top(k, Handler)) && (quit ==> shutdown)
      ensures OnItsOwn(me, 0, k)
    {
      hide Runs, After, Initial, Passes;
      var before := Here();
      quit := shutdown;
      Moved(Step(me, true), before);
    }

    // In shutdown, and for an aborted accept: the unit is dropped, then the slot.
    method GiveUpSlot(me: nat, k: nat)
      requires Valid() && me < |threads| && threads[me] == Quit(k)
      modifies this
      ensures Valid() && GoesOn() && threads[me].Idle?
      ensures OnItsOwn(me, 0, k)
    {
      hide Valid;
      DecrementIO(me);
      Others(me);
      ReleaseSlot(me);
    }

    method PostAgain(me: nat, k: nat, madeSocket: bool, accepted: bool) returns (isPosted: bool, ghost issue: nat)
      requires Valid() && me < |threads| && threads[me] == Top(k, Handler)
      modifies this
      ensures Valid() && GoesOn() && threads[me].Idle? && Acts(me, 0, k, madeSocket, accepted)
      ensures Answered(me, k, Handler, isPosted, madeSocket, accepted, |old(schedule)|, issue)
    {
      hide Valid;
      isPosted, issue := PostAccept(me, k, Handler, madeSocket, accepted);
      Others(me);
      if !isPosted {
        ReleaseSlot(me);
        Others(me);
      }
      DecrementIO(me);
    }

    method HandleAcceptIOCancelled(me: nat, k: nat)
      requires Valid() && me < |threads| && threads[me].Idle? && k < |slots| && slots[k].posted > 0
      modifies this
      ensures Valid() && GoesOn() && Begins(Abort(me, k)) && threads[me].Idle?
      ensures OnItsOwn(me, 1, k)
    {
      hide Valid;
      Unpost(me, k, true);
      Others(me);
      GiveUpSlot(me, k);
    }

    // What the refill has done so far: slot i is tried at step looks[i] of the run, and where nobody held
    // it, it is posted on at step issues[i], the last one only if the scan has not stopped there.
    static ghost predicate Tried(schedule: seq<Action>, states: seq<State>, me: nat, looks: seq<nat>, issues: seq<nat>, from: nat,
                                 stopped: bool)
    {
      |looks| == |issues| &&
      forall i :: 0 <= i < |looks| ==>
        && from <= looks[i] && At(schedule, states, looks[i], me, Scan(i)) && i < |states[looks[i]].slots|
        && (states[looks[i]].slots[i].owned || (stopped && i == |looks| - 1)
            || PostedAt(schedule, states, me, i, Refill, looks[i], issues[i]))
    }

    // What thread me does in a refill is the refill alone, each slot answered as told.
    twostate predicate ActsEach(me: nat, skip: nat, madeSocket: seq<bool>, accepted: seq<bool>)
      reads this
    {
      forall n :: |old(schedule)| + skip <= n < |schedule| && !ByOther(schedule[n], me) ==>
        && n < |states| && me < |states[n].threads| && !states[n].threads[me].Idle?
        && states[n].threads[me].slot < |madeSocket| && states[n].threads[me].slot < |accepted|
        && schedule[n] == Step(me, Answer(states[n].threads[me], madeSocket[states[n].threads[me].slot],
                                          accepted[states[n].threads[me].slot]))
    }

    // The periodic refill: the slots are tried one after the other; one nobody holds is posted on.  All
    // are tried unless a post fails: then the scan ends at that slot, whose release is step stop of the run.
    method RefillAcceptSlots(me: nat, madeSocket: seq<bool>, accepted: seq<bool>)
      returns (ghost looks: seq<nat>, ghost issues: seq<nat>, ghost stop: nat)
      requires Valid() && me < |threads| && threads[me].Idle?
      requires |madeSocket| == |accepted| == |slots|
      modifies this
      ensures Valid() && GoesOn() && threads[me].Idle?
      ensures if old(shutdown) || |slots| == 0 then schedule == old(schedule) && looks == []
              else Begins(StartRefill(me)) && 0 < |looks| <= |slots| && ActsEach(me, 1, madeSocket, accepted)
      ensures Tried(schedule, states, me, looks, issues, |old(schedule)|, stop > 0)
      ensures stop == 0 && looks != [] ==> |looks| == |slots|
      ensures stop > 0 ==> looks != [] && At(schedule, states, stop, me, Failed(|looks| - 1, Refill))
                           && (!madeSocket[|looks| - 1] || !accepted[|looks| - 1] || shutdown)
      // so with every answer good and no shutdown all slots are tried, and every one won is posted on
      ensures !shutdown && (forall k :: 0 <= k < |slots| ==> madeSocket[k] && accepted[k]) && |slots| > 0 ==>
                |looks| == |slots| && Tried(schedule, states, me, looks, issues, |old(schedule)|, false)
    {
      hide Valid, PostedAt, At;
      looks, issues, stop := [], [], 0;
      if shutdown || |slots| == 0 {
        return;
      }
      Begin(me);
      var i, stopped := 0, false;
      while i < |slots| && !stopped
        invariant 0 <= i <= |slots| && Valid() && GoesOn() && Begins(StartRefill(me)) && ActsEach(me, 1, madeSocket, accepted)
        invariant threads[me] == (if i < |slots| && !stopped then Scan(i) else Idle) && (stopped <==> stop > 0)
        invariant |looks| == |issues| == i && (stop == 0 || i > 0) && Tried(schedule, states, me, looks, issues, |old(schedule)|, stop > 0)
        invariant stop > 0 ==> At(schedule, states, stop, me, Failed(i - 1, Refill))
                               && (!madeSocket[i - 1] || !accepted[i - 1] || shutdown)
        decreases |slots| - i
      {
        looks, issues, stopped, stop := TryAndPost(me, i, madeSocket, accepted, looks, issues, |old(schedule)|);
        i := i + 1;
      }
    }

    method Begin(me: nat)
      requires Valid() && me < |threads| && threads[me].Idle? && !shutdown && |slots| > 0
      modifies this
      ensures Valid() && GoesOn() && threads[me] == Scan(0) && schedule == old(schedule) + [StartRefill(me)]
    {
      hide Runs, After, Initial, Passes;
      var before := Here();
      Moved(StartRefill(me), before);
    }

    // One slot of the scan; stop: the step of its release if it could not be posted on, else 0.
    method TryAndPost(me: nat, i: nat, madeSocket: seq<bool>, accepted: seq<bool>, ghost looks: seq<nat>, ghost issues: seq<nat>,
                      ghost from: nat)
      returns (ghost looks': seq<nat>, ghost issues': seq<nat>, stopped: bool, ghost stop: nat)
      requires Valid() && me < |threads| && i < |slots| == |madeSocket| == |accepted| && threads[me] == Scan(i)
      requires |looks| == |issues| == i && from <= |schedule| && Tried(schedule, states, me, looks, issues, from, false)
      modifies this
      ensures Valid() && GoesOn() && threads[me] == (if stopped then Idle else Onward(i, |slots|)) && |looks'| == |issues'| == i + 1
      ensures ActsEach(me, 0, madeSocket, accepted) && Tried(schedule, states, me, looks', issues', from, stopped)
      ensures (stopped <==> stop > 0) && (stopped ==> At(schedule, states, stop, me, Failed(i, Refill)))
      ensures stopped ==> !madeSocket[i] || !accepted[i] || shutdown
    {
      hide Valid, Tried, PostedAt;
      ghost var so, st := schedule, states;
      Others(me);
      ghost var look, issue := |schedule|, 0;
      stopped, stop := false, 0;
      var won := TryAcquireSlot(me);
      ghost var seen := states[look];
      if won {
        stopped, issue, stop := PostWon(me, i, madeSocket[i], accepted[i], look);
        assert states[look] == seen;
      }
      looks', issues' := looks + [look], issues + [issue];
      OneMoreTried(so, st, schedule, states, me, looks, issues, from, look, issue, stopped);
    }

    // The slot is won: it is posted on or released.
    method PostWon(me: nat, i: nat, madeSocket: bool, accepted: bool, ghost look: nat)
      returns (stopped: bool, ghost issue: nat, ghost stop: nat)
      requires Valid() && me < |threads| && threads[me] == Top(i, Refill) && look < |schedule|
      modifies this
      ensures Valid() && GoesOn() && threads[me] == (if stopped then Idle else Onward(i, |slots|)) && Acts(me, 0, i, madeSocket, accepted)
      ensures if stopped then stop > 0 && At(schedule, states, stop, me, Failed(i, Refill)) && (!madeSocket || !accepted || shutdown)
              else stop == 0 && PostedAt(schedule, states, me, i, Refill, look, issue)
    {
      hide Valid;
      stopped, stop := false, 0;
      Others(me);
      var isPosted;
      isPosted, issue := PostAccept(me, i, Refill, madeSocket, accepted);
      if !isPosted {
        Others(me);
        stopped, stop := true, |schedule|;
        ReleaseSlot(me);
      }
    }

    static lemma OneMoreTried(so: seq<Action>, st: seq<State>, schedule: seq<Action>, states: seq<State>, me: nat, looks: seq<nat>,
                              issues: seq<nat>, from: nat, look: nat, issue: nat, stopped: bool)
      requires so <= schedule && st <= states && from <= look && At(schedule, states, look, me, Scan(|looks|))
      requires |looks| == |issues| && |looks| < |states[look].slots|
      requires states[look].slots[|looks|].owned || stopped || PostedAt(schedule, states, me, |looks|, Refill, look, issue)
      requires Tried(so, st, me, looks, issues, from, false)
      ensures Tried(schedule, states, me, looks + [look], issues + [issue], from, stopped)
    {
    }
  }
}
