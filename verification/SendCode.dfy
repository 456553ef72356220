/**
 The send path as the code runs it, statement by statement between the steps of all other threads;
 each statement is a step of the send path protocol.
 */
module SendCode {
  import opened Tally
  import opened Wire
  import opened SendPathProtocol
  import opened SendPathInvariants

  class ClientSession {
    const limits: Limits
    // SendPacketQueue, m_sending, m_currentSendPacket, m_sendOffset, m_sendOverlapped, m_cancelIo
    var queue: seq<Packet>
    var sending: bool
    var current: Option<Packet>
    var offset: nat
    var overlapped: seq<Byte>
    var cancelIo: bool
    // sends the kernel has, rights to send nobody will give back, and where every thread stands
    var posted: nat
    var stuck: nat
    var threads: seq<Pc>
    var log: Log
    // the run that led here, and the states it went through
    ghost var origin: State
    ghost var schedule: seq<Action>
    ghost var states: seq<State>

    function Fields(): Shared
      reads this
    {
      Shared(queue, sending, current, offset, overlapped, posted, stuck, cancelIo)
    }

    function Here(): State
      reads this
    {
      State(Fields(), threads, log)
    }

    ghost predicate Valid()
      reads this
    {
      && Initial(origin) && Runs(limits, origin, schedule) && After(limits, origin, schedule) == Here()
      && Passes(limits, states, schedule, Here())
    }

    // One state before every step, and the last one here.
    static ghost predicate Passes(c: Limits, states: seq<State>, schedule: seq<Action>, here: State)
    {
      && |states| == |schedule| + 1 && states[|schedule|] == here
      && forall n :: 0 <= n < |schedule| ==> Enabled(states[n], schedule[n]) && states[n + 1] == Next(c, states[n], schedule[n])
    }

    static lemma PassesOn(c: Limits, states: seq<State>, schedule: seq<Action>, s: State, a: Action)
      requires Passes(c, states, schedule, s) && Enabled(s, a)
      ensures |states| == |schedule| + 1 && states[|schedule|] == s && Passes(c, states + [Next(c, s, a)], schedule + [a], Next(c, s, a))
    {
      hide Enabled, Next;
    }

    // Step n of the run is one of thread me, from this program counter.
    static ghost predicate At(schedule: seq<Action>, states: seq<State>, n: nat, me: nat, pc: Pc)
    {
      && n < |schedule| && n + 1 < |states| && schedule[n].Step? && schedule[n].t == me
      && me < |states[n].threads| && states[n].threads[me] == pc
    }

    twostate predicate GoesOn()
      reads this
    {
      && origin == old(origin) && |threads| == |old(threads)| && old(schedule) <= schedule
      && old(states) <= states && old(log.accepted) <= log.accepted && (old(cancelIo) ==> cancelIo)
    }

    // From `skip` steps on, what thread me does is this call alone, and WSASend answers it as told.
    twostate predicate Acts(me: nat, skip: nat, accepted: bool)
      reads this
    {
      forall n :: |old(schedule)| + skip <= n < |schedule| && !ByOther(schedule[n], me) ==>
        n < |states| && me < |states[n].threads| && schedule[n] == Step(me, if states[n].threads[me].Post? then accepted else true)
    }

    // It asks nothing of the system.
    twostate predicate Plain(me: nat)
      reads this
    {
      forall n :: |old(schedule)| <= n < |schedule| && !ByOther(schedule[n], me) ==>
        n < |states| && me < |states[n].threads| && schedule[n] == Step(me, true) && !states[n].threads[me].Post?
    }

    // The packet taken is posted, at this step of the run, exactly when WSASend takes it; it is given back
    // only if WSASend does not, or under a cancel.
    ghost predicate Answered(me: nat, posts: bool, accepted: bool, from: nat, post: nat)
      reads this
    {
      if posts then
        accepted && from <= post && At(schedule, states, post, me, Post) && schedule[post] == Step(me, true)
        && states[post + 1].m.posted == states[post].m.posted + 1
      else cancelIo || !accepted
    }

    // The operation's own first step comes first.
    twostate predicate Begins(a: Action)
      reads this
    {
      |old(schedule)| < |schedule| && schedule[|old(schedule)|] == a
    }

    constructor (limits: Limits, count: nat)
      ensures Valid() && this.limits == limits && |threads| == count
    {
      this.limits := limits;
      queue, sending, current, offset, overlapped, cancelIo := [], false, None, 0, [], false;
      posted, stuck, threads, log := 0, 0, seq(count, _ => Idle), Log([], [], [], 0, false);
      new;
      origin, schedule, states := Here(), [], [Here()];
    }

    method Load(s: State)
      modifies this
      ensures Here() == s && origin == old(origin) && schedule == old(schedule) && states == old(states)
    {
      queue, sending, current, offset := s.m.queue, s.m.sending, s.m.current, s.m.offset;
      overlapped, posted, stuck, cancelIo := s.m.overlapped, s.m.posted, s.m.stuck, s.m.cancelIo;
      threads, log := s.threads, s.log;
    }

    static lemma SameCount(c: Limits, s: State, a: Action)
      requires Enabled(s, a)
      ensures |Next(c, s, a).threads| == |s.threads|
      ensures s.log.accepted <= Next(c, s, a).log.accepted && (s.m.cancelIo ==> Next(c, s, a).m.cancelIo)
    {
    }

    // The step the statement just executed was; stuck and the log are bookkeeping it brings up to date.
    method Moved(a: Action, before: State)
      requires Initial(origin) && Runs(limits, origin, schedule) && After(limits, origin, schedule) == before
      requires Passes(limits, states, schedule, before)
      requires Enabled(before, a) && Fields().(stuck := 0) == Next(limits, before, a).m.(stuck := 0)
      requires threads == before.threads && log == before.log
      modifies this`stuck, this`threads, this`log, this`schedule, this`states
      ensures Valid() && GoesOn() && threads == Next(limits, before, a).threads
      ensures log == Next(limits, before, a).log && schedule == old(schedule) + [a]
      ensures |old(states)| == |old(schedule)| + 1 && states == old(states) + [Here()] && old(states)[|old(schedule)|] == before
    {
      hide Runs, After, Next, Initial, Passes;
      SameCount(limits, before, a);
      var s := Next(limits, before, a);
      stuck, threads, log := s.m.stuck, s.threads, s.log;
      RunsExtend(limits, origin, schedule, a);
      PassesOn(limits, states, schedule, before, a);
      schedule, states := schedule + [a], states + [s];
    }

    static predicate ByOther(a: Action, me: nat)
    {
      match a
      case Enqueue(t, _, _) => t != me
      case Complete(t, _) => t != me
      case CompleteFailed(t) => t != me
      case CancelIO => true
      case Step(t, _) => t != me
    }

    method Others(me: nat)
      requires Valid() && me < |threads|
      modifies this
      ensures Valid() && GoesOn() && threads[me] == old(threads)[me]
      ensures forall n :: |old(schedule)| <= n < |schedule| ==> ByOther(schedule[n], me)
      // only the owner of the right to send touches the packet in hand
      ensures Owns(threads[me]) == 1 ==> current == old(current) && offset == old(offset)
    {
      hide Runs, After, Next, Enabled, Initial, ByOther, Passes, SendPathInvariants.Sound;
      var steps: nat := *;
      while steps > 0
        invariant Valid() && GoesOn() && me < |threads| && threads[me] == old(threads)[me]
        invariant forall n :: |old(schedule)| <= n < |schedule| ==> ByOther(schedule[n], me)
        invariant Owns(threads[me]) == 1 ==> current == old(current) && offset == old(offset)
      {
        var a: Action := *;
        if ByOther(a, me) && Enabled(Here(), a) {
          OnlyItsRow(limits, Here(), a, me);
          SameCount(limits, Here(), a);
          Facts(me);
          if Owns(threads[me]) == 1 { OwnerAlone(limits, Here(), a, me); }
          RunsExtend(limits, origin, schedule, a);
          PassesOn(limits, states, schedule, Here(), a);
          Load(Next(limits, Here(), a));
          schedule, states := schedule + [a], states + [Here()];
        }
        steps := steps - 1;
      }
    }

    static lemma OnlyItsRow(c: Limits, s: State, a: Action, me: nat)
      requires Enabled(s, a) && ByOther(a, me) && me < |s.threads|
      ensures |Next(c, s, a).threads| == |s.threads| && Next(c, s, a).threads[me] == s.threads[me]
    {
    }

    static lemma OwnerAlone(c: Limits, s: State, a: Action, me: nat)
      requires SendPathInvariants.Sound(s) && Enabled(s, a) && ByOther(a, me) && me < |s.threads| && Owns(s.threads[me]) == 1
      ensures Next(c, s, a).m.current == s.m.current && Next(c, s, a).m.offset == s.m.offset
    {
      AtLeast(s.threads, me, Owns);
      if !a.CancelIO? && a.t < |s.threads| {
        if a.t < me { AtLeastTwo(s.threads, a.t, me, Owns); } else { AtLeastTwo(s.threads, me, a.t, Owns); }
      }
    }

    // What the protocol's invariants say of the thread that is about to move.
    lemma Facts(me: nat)
      requires Valid() && me < |threads|
      ensures Fits(Fields(), log, threads[me]) && SendPathInvariants.Sound(Here())
    {
      InitialIsSound(origin);
      RunIsSound(limits, origin, schedule);
    }

    // EnqueueSendPacket: into the queue unless refused, then try to send.  canSend: what CanSendPacket
    // answers; given: whether the pool has an entry; accepted: what WSASend answers if this call takes a
    // packet, and posts whether it posts it.
    method EnqueueSendPacket(me: nat, packet: Packet, canSend: bool, given: bool, retries: nat, accepted: bool)
      returns (ok: bool, taken: bool, posts: bool, ghost post: nat)
      requires Valid() && me < |threads| && threads[me].Idle?
      modifies this
      ensures Valid() && GoesOn() && Begins(Enqueue(me, packet, canSend && given)) && Acts(me, 1, accepted)
      ensures ok == (Framed(packet, limits.maxPacketSize) && canSend && given && |old(queue)| < limits.depth)
      ensures if ok then old(log.accepted) + [packet] <= log.accepted
              else queue == old(queue) && threads[me].Idle? && schedule == old(schedule) + [schedule[|old(schedule)|]]
      ensures taken ==> ok && threads[me].Idle? && Answered(me, posts, accepted, |old(schedule)|, post)
    {
      hide Runs, After, Initial, Passes;
      taken, posts, post := false, false, 0;
      var before := Here();
      ok := Framed(packet, limits.maxPacketSize) && canSend && given && |queue| < limits.depth;
      if ok {
        queue := queue + [packet];                 // PushBack
      }
      Moved(Enqueue(me, packet, canSend && given), before);
      if !ok {
        return;
      }
      Others(me);
      var finished;
      ghost var last;
      finished, taken, posts, post, last := TrySendNext(me, retries, accepted);
    }

    // How a call that took no packet ends: somebody else had the right, or the queue was seen empty after
    // the right was given back.
    ghost predicate NothingToDo(me: nat, from: nat, last: nat)
      reads this
    {
      from <= last && ((At(schedule, states, last, me, Claim) && states[last].m.sending)
                       || (At(schedule, states, last, me, Recheck) && states[last].m.queue == []))
    }

    // TrySendNext.  Whoever finds the queue empty gives the right back and looks once more; retries is
    // how often this call gets to start over; one that has not finished has gone round that often.
    method TrySendNext(me: nat, retries: nat, accepted: bool)
      returns (finished: bool, taken: bool, posts: bool, ghost post: nat, ghost last: nat)
      requires Valid() && me < |threads| && threads[me].Claim?
      modifies this
      ensures Valid() && GoesOn() && (finished ==> threads[me].Idle?) && Acts(me, 0, accepted)
      ensures taken ==> finished && Answered(me, posts, accepted, |old(schedule)|, post)
      ensures finished && !taken ==> NothingToDo(me, |old(schedule)|, last)
      ensures !finished ==> threads[me].Claim? && |schedule| >= |old(schedule)| + 4 * (retries + 1)
    {
      hide Valid, Answered, NothingToDo;
      finished, taken, posts, post, last := false, false, false, 0, 0;
      var n := 0;
      while n <= retries && !finished
        invariant n <= retries + 1 && Valid() && GoesOn() && me < |threads| && Acts(me, 0, accepted)
        invariant threads[me] == (if finished then Idle else Claim) && (taken ==> finished)
        invariant finished ==> if taken then Answered(me, posts, accepted, |old(schedule)|, post) else NothingToDo(me, |old(schedule)|, last)
        invariant !finished ==> |schedule| >= |old(schedule)| + 4 * n
        decreases retries + 1 - n, !finished
      {
        Others(me);
        ghost var from := |schedule|;
        finished, taken, posts, post, last := SendRound(me, accepted);
        if taken {
          Sooner(me, posts, accepted, from, post, |old(schedule)|);
        } else if finished {
          SoonerNothing(me, from, last, |old(schedule)|);
        }
        n := n + 1;
      }
    }

    lemma Sooner(me: nat, posts: bool, accepted: bool, from: nat, post: nat, earlier: nat)
      requires Answered(me, posts, accepted, from, post) && earlier <= from
      ensures Answered(me, posts, accepted, earlier, post)
    {
    }

    lemma SoonerNothing(me: nat, from: nat, last: nat, earlier: nat)
      requires NothingToDo(me, from, last) && earlier <= from
      ensures NothingToDo(me, earlier, last)
    {
    }

    // One round of it, from the exchange to the packet taken or the second look at the queue.
    method SendRound(me: nat, accepted: bool)
      returns (finished: bool, taken: bool, posts: bool, ghost post: nat, ghost last: nat)
      requires Valid() && me < |threads| && threads[me].Claim?
      modifies this
      ensures Valid() && GoesOn() && threads[me] == (if finished then Idle else Claim) && Acts(me, 0, accepted)
      ensures taken ==> finished && Answered(me, posts, accepted, |old(schedule)|, post)
      ensures finished && !taken ==> NothingToDo(me, |old(schedule)|, last)
      ensures !finished ==> |schedule| >= |old(schedule)| + 4
    {
      hide Valid;
      taken, posts, post, last := false, false, 0, |schedule|;
      var won := ClaimRight(me);
      if !won {
        return true, false, false, 0, last;
      }
      Others(me);
      taken := TakePacket(me);
      Others(me);
      if taken {
        posts, post := PostCurrentSend(me, accepted);
        return true, true, posts, post, last;
      }
      last := |schedule|;
      var again := LookAgain(me);
      finished := !again;
    }

    // The exchange of m_sending.
    method ClaimRight(me: nat) returns (won: bool)
      requires Valid() && me < |threads| && threads[me].Claim?
      modifies this
      ensures Valid() && GoesOn() && threads[me] == (if won then Take else Idle) && |schedule| > |old(schedule)| && Plain(me)
      ensures At(schedule, states, |old(schedule)|, me, Claim) && won == !states[|old(schedule)|].m.sending
    {
      hide Runs, After, Initial, Passes;
      var before := Here();
      won := !sending;
      sending := true;
      Moved(Step(me, true), before);
    }

    // Dequeue into m_currentSendPacket; with an empty queue the right goes back.
    method TakePacket(me: nat) returns (taken: bool)
      requires Valid() && me < |threads| && threads[me].Take?
      modifies this
      ensures Valid() && GoesOn() && threads[me] == (if taken then Prepare else Recheck) && Plain(me)
      ensures |schedule| >= |old(schedule)| + if taken then 1 else 2
      ensures taken == (old(queue) != [])
    {
      hide Valid;
      taken := DequeueCurrent(me);
      if !taken {
        Others(me);
        HandBack(me);
      }
    }

    method DequeueCurrent(me: nat) returns (taken: bool)
      requires Valid() && me < |threads| && threads[me].Take?
      modifies this
      ensures Valid() && GoesOn() && threads[me] == (if taken then Prepare else Give) && Plain(me)
      ensures |schedule| > |old(schedule)| && taken == (old(queue) != [])
    {
      hide Runs, After, Initial, Passes;
      NothingInHand(me);                           // so m_currentSendPacket is always null here
      var before := Here();
      taken := queue != [];
      if taken {
        current, queue, offset := Some(queue[0]), queue[1..], 0;
      }
      Moved(Step(me, true), before);
    }

    lemma NothingInHand(me: nat)
      requires Valid() && me < |threads| && threads[me].Take?
      ensures current.None?
    {
      hide Runs, After, Initial, Passes;
      Facts(me);
    }

    method HandBack(me: nat)
      requires Valid() && me < |threads| && threads[me].Give?
      modifies this
      ensures Valid() && GoesOn() && threads[me].Recheck? && |schedule| > |old(schedule)| && Plain(me)
    {
      hide Runs, After, Initial, Passes;
      var before := Here();
      sending := false;
      Moved(Step(me, true), before);
    }

    method LookAgain(me: nat) returns (again: bool)
      requires Valid() && me < |threads| && threads[me].Recheck?
      modifies this
      ensures Valid() && GoesOn() && threads[me] == (if again then Claim else Idle) && |schedule| > |old(schedule)| && Plain(me)
      ensures At(schedule, states, |old(schedule)|, me, Recheck) && again == (states[|old(schedule)|].m.queue != [])
    {
      hide Runs, After, Initial, Passes;
      var before := Here();
      again := queue != [];                        // IsEmpty
      Moved(Step(me, true), before);
    }

    // PostCurrentSend: refused under a cancel, before or at the gate; a send that fails at once gives
    // the packet and the right back.  accepted: what WSASend answers.
    method PostCurrentSend(me: nat, accepted: bool) returns (posts: bool, ghost post: nat)
      requires Valid() && me < |threads| && threads[me].Prepare?
      modifies this
      ensures Valid() && GoesOn() && threads[me].Idle? && Acts(me, 0, accepted)
      ensures Answered(me, posts, accepted, |old(schedule)|, post)
    {
      hide Runs, After, Initial, Passes, Valid;
      var cancelled := PrepareSend(me);
      Others(me);
      if cancelled {
        GiveBack(me);
        return false, 0;
      }
      posts, post := PassGate(me, accepted);
    }

    // The bytes that are left, unless the cancel gate is up: then the packet is released.
    method PrepareSend(me: nat) returns (cancelled: bool)
      requires Valid() && me < |threads| && threads[me].Prepare?
      modifies this
      ensures Valid() && GoesOn() && threads[me] == (if cancelled then LetGo(false) else Begin) && Plain(me)
      ensures cancelled == old(cancelIo)
    {
      hide Runs, After, Initial, Passes;
      PacketInHand(me);                            // so there always are remaining bytes
      var before := Here();
      var p := current.value;
      overlapped := p[offset..];                   // ResetForNextIO
      cancelled := cancelIo;
      if cancelled {
        current, offset := None, 0;                // ReleaseEntry
      }
      Moved(Step(me, true), before);
    }

    method PassGate(me: nat, accepted: bool) returns (posts: bool, ghost post: nat)
      requires Valid() && me < |threads| && threads[me].Begin?
      modifies this
      ensures Valid() && GoesOn() && threads[me].Idle? && Acts(me, 0, accepted)
      ensures Answered(me, posts, accepted, |old(schedule)|, post)
    {
      hide Runs, After, Initial, Passes;
      var before := Here();
      var cancelled := cancelIo;                   // BeginIO
      Moved(Step(me, true), before);
      if cancelled {
        return false, 0;
      }
      Others(me);
      posts, post := SendOrFail(me, accepted);
    }

    method SendOrFail(me: nat, accepted: bool) returns (posts: bool, ghost post: nat)
      requires Valid() && me < |threads| && threads[me].Post?
      modifies this
      ensures Valid() && GoesOn() && threads[me].Idle? && Acts(me, 0, accepted)
      ensures posts == accepted && Answered(me, posts, accepted, |old(schedule)|, post)
    {
      hide Valid;
      posts, post := accepted, |schedule|;
      CallWSASend(me, accepted);
      if !accepted {
        Others(me);
        GiveBack(me);
      }
    }

    method CallWSASend(me: nat, accepted: bool)
      requires Valid() && me < |threads| && threads[me].Post?
      modifies this
      ensures Valid() && GoesOn() && threads[me] == (if accepted then Idle else LetGo(false)) && Acts(me, 0, accepted)
      ensures accepted ==> Answered(me, true, true, |old(schedule)|, |old(schedule)|)
    {
      hide Runs, After, Initial, Passes;
      PacketInHand(me);
      var before := Here();
      if accepted {
        posted := posted + 1;                      // WSASend
      } else {
        current, offset := None, 0;                // HandleSocketError
      }
      Moved(Step(me, accepted), before);
    }

    lemma PacketInHand(me: nat)
      requires Valid() && me < |threads| && (threads[me].Post? || threads[me].Prepare? || threads[me].Completed?)
      ensures current.Some? && offset < |current.value|
      ensures threads[me].Completed? ==> offset + threads[me].n <= |current.value|
    {
      hide Runs, After, Initial, Passes;
      Facts(me);
    }

    // m_sending = 0 after a packet was dropped.
    method GiveBack(me: nat)
      requires Valid() && me < |threads| && threads[me] == LetGo(false)
      modifies this
      ensures Valid() && GoesOn() && threads[me].Idle? && Plain(me)
    {
      hide Runs, After, Initial, Passes;
      var before := Here();
      sending := false;
      Moved(Step(me, true), before);
    }

    // OnSendCompleted for a completion of n bytes: the rest of the packet, or the next one.
    method OnSendCompleted(me: nat, n: nat, retries: nat, accepted: bool)
      returns (finished: bool, taken: bool, posts: bool, ghost post: nat)
      requires Valid() && me < |threads| && threads[me].Idle? && posted > 0 && 1 <= n <= |overlapped|
      modifies this
      ensures Valid() && GoesOn() && Begins(Complete(me, n)) && threads[me] == (if finished then Idle else Claim)
      ensures Acts(me, 1, accepted)
      // the rest of a partial send is this call's to post
      ensures n < |old(overlapped)| ==> taken
      ensures taken ==> finished && Answered(me, posts, accepted, |old(schedule)|, post)
    {
      hide Valid, Answered;
      RestIsOverlapped(me);
      Dequeued(me, n);
      Others(me);
      var more := CountBytes(me, n);
      Others(me);
      ghost var from := |schedule|;
      if more {
        finished, taken := true, true;
        posts, post := PostCurrentSend(me, accepted);
      } else {
        finished, taken, posts, post := SendNext(me, retries, accepted);
      }
      if taken { Sooner(me, posts, accepted, from, post, |old(schedule)|); }
    }

    // The completion packet leaves the port.
    method Dequeued(me: nat, n: nat)
      requires Valid() && me < |threads| && threads[me].Idle? && posted > 0 && 1 <= n <= |overlapped|
      modifies this
      ensures Valid() && GoesOn() && threads[me] == Completed(n) && schedule == old(schedule) + [Complete(me, n)]
      ensures current == old(current) && offset == old(offset)
    {
      hide Runs, After, Initial, Passes;
      var before := Here();
      posted := posted - 1;
      Moved(Complete(me, n), before);
    }

    lemma RestIsOverlapped(me: nat)
      requires Valid() && me < |threads| && posted > 0
      ensures current.Some? && offset < |current.value| && overlapped == current.value[offset..]
    {
      hide Runs, After, Initial, Passes;
      Facts(me);
    }

    method SendNext(me: nat, retries: nat, accepted: bool) returns (finished: bool, taken: bool, posts: bool, ghost post: nat)
      requires Valid() && me < |threads| && threads[me] == LetGo(true)
      modifies this
      ensures Valid() && GoesOn() && threads[me] == (if finished then Idle else Claim) && Acts(me, 0, accepted)
      ensures taken ==> finished && Answered(me, posts, accepted, |old(schedule)|, post)
    {
      hide Runs, After, Initial, Passes, Valid;
      GiveRight(me);
      Others(me);
      ghost var last;
      finished, taken, posts, post, last := TrySendNext(me, retries, accepted);
    }

    // m_sending = 0 after a whole packet has gone out.
    method GiveRight(me: nat)
      requires Valid() && me < |threads| && threads[me] == LetGo(true)
      modifies this
      ensures Valid() && GoesOn() && threads[me].Claim? && Plain(me)
    {
      hide Runs, After, Initial, Passes;
      var before := Here();
      sending := false;
      Moved(Step(me, true), before);
    }

    method CountBytes(me: nat, n: nat) returns (more: bool)
      requires Valid() && me < |threads| && threads[me] == Completed(n)
      modifies this
      ensures Valid() && GoesOn() && threads[me] == (if more then Prepare else LetGo(true)) && Plain(me)
      ensures old(current).Some? && more == (old(offset) + n < |old(current).value|)
    {
      hide Runs, After, Initial, Passes;
      PacketInHand(me);
      var before := Here();
      offset := offset + n;
      more := offset < |current.value|;
      if !more {
        current, offset := None, 0;                // ReleaseEntry
      }
      Moved(Step(me, true), before);
    }
  }
}
