/**
 Accept slots: the right to post AcceptEx on a slot travels from whoever posts to the thread that
 handles the completion, while a periodic refill takes slots that have fallen empty.  Every completion,
 cancellation and refill may interleave, and shutdown may be requested at any moment.
 */
module AcceptSlots {
  import opened Tally

  // Who called PostAccept: the refill scan, or the handler of a completed accept, which still holds
  // the completed operation's unit of m_ioCount.
  datatype Caller = Refill | Handler

  datatype Pc =
    | Idle
    | Scan(slot: nat)                          // RefillAcceptSlots, before TryAcquireSlot
      // PostAccept
    | Top(slot: nat, caller: Caller)           // before the first look at the shutdown flag
    | Socket(slot: nat, caller: Caller)        // before WSASocket
    | Count(slot: nat, caller: Caller)         // before IncrementIO
    | Look(slot: nat, caller: Caller)          // counted, before the second look
    | Issue(slot: nat, caller: Caller)         // before AcceptEx
    | Uncount(slot: nat, caller: Caller)       // declined or failed, before DecrementIO
    | Failed(slot: nat, caller: Caller)        // PostAccept returned false, before ReleaseSlot
    | Note(slot: nat, caller: Caller)          // AcceptEx is posted, before ++m_postedAcceptCount
      // HandleAccept
    | Completed(slot: nat)                     // before --m_postedAcceptCount
    | Handle(slot: nat)                        // before it looks at the shutdown flag
    | Drop(slot: nat)                          // the last DecrementIO of a handler that posted again or failed to
    | Quit(slot: nat)                          // shutting down, before DecrementIO
    | Leave(slot: nat)                         // before ReleaseSlot
      // HandleAcceptIOCancelled
    | Aborted(slot: nat)                       // before --m_postedAcceptCount

  // AcceptSession fields, and how many AcceptEx the kernel holds for it.
  datatype Slot = Slot(owned: bool, ioCount: int, posted: nat)

  // violations: ReleaseSlot calls that found the slot unowned.
  datatype State = State(slots: seq<Slot>, postedCount: int, shutdown: bool, threads: seq<Pc>, violations: nat)

  datatype Action =
    | StartRefill(t: nat)
    | Complete(t: nat, slot: nat)
    | Abort(t: nat, slot: nat)
    | Shutdown
    | Step(t: nat, choice: bool)

  predicate Names(pc: Pc, slots: nat)
  {
    pc.Idle? || pc.slot < slots
  }

  predicate Enabled(s: State, a: Action)
  {
    match a
    case StartRefill(t) => t < |s.threads| && s.threads[t].Idle? && |s.slots| > 0
    case Complete(t, k) => t < |s.threads| && s.threads[t].Idle? && k < |s.slots| && s.slots[k].posted > 0
    case Abort(t, k) => t < |s.threads| && s.threads[t].Idle? && k < |s.slots| && s.slots[k].posted > 0
    case Shutdown => true
    case Step(t, _) => t < |s.threads| && !s.threads[t].Idle? && Names(s.threads[t], |s.slots|)
  }

  // What a step does to its slot, to the counter of posted accepts, and where the thread goes.
  datatype Effect = Effect(slot: Slot, noted: int, pc: Pc, unowned: bool)

  function Plain(slot: Slot, pc: Pc): Effect { Effect(slot, 0, pc, false) }

  function ReleaseSlot(slot: Slot, pc: Pc): Effect
  {
    Effect(slot.(owned := false), 0, pc, !slot.owned)
  }

  function Onward(k: nat, slots: nat): Pc
  {
    if k + 1 < slots then Scan(k + 1) else Idle
  }

  function PostStep(slot: Slot, pc: Pc, slots: nat, shutdown: bool, choice: bool): Effect
    requires pc.Top? || pc.Socket? || pc.Count? || pc.Look? || pc.Issue? || pc.Uncount? || pc.Failed? || pc.Note?
  {
    match pc
    case Top(k, c) => Plain(slot, if shutdown then Failed(k, c) else Socket(k, c))
    case Socket(k, c) => Plain(slot, if choice then Count(k, c) else Failed(k, c))
    case Count(k, c) => Plain(slot.(ioCount := slot.ioCount + 1), Look(k, c))
    case Look(k, c) => Plain(slot, if shutdown then Uncount(k, c) else Issue(k, c))
    case Issue(k, c) =>
      if choice then Plain(slot.(posted := slot.posted + 1), Note(k, c)) else Plain(slot, Uncount(k, c))
    case Uncount(k, c) => Plain(slot.(ioCount := slot.ioCount - 1), Failed(k, c))
    // the refill stops at the first slot it cannot post
    case Failed(k, c) => ReleaseSlot(slot, if c.Refill? then Idle else Drop(k))
    case Note(k, c) => Effect(slot, 1, if c.Refill? then Onward(k, slots) else Drop(k), false)
  }

  function HandlerStep(slot: Slot, pc: Pc, slots: nat, shutdown: bool): Effect
    requires pc.Scan? || pc.Completed? || pc.Handle? || pc.Drop? || pc.Quit? || pc.Leave? || pc.Aborted?
  {
    match pc
    case Scan(k) =>
      if slot.owned then Plain(slot, Onward(k, slots)) else Plain(slot.(owned := true), Top(k, Refill))
    case Completed(k) => Effect(slot, -1, Handle(k), false)
    case Handle(k) => Plain(slot, if shutdown then Quit(k) else Top(k, Handler))
    case Drop(k) => Plain(slot.(ioCount := slot.ioCount - 1), Idle)
    case Quit(k) => Plain(slot.(ioCount := slot.ioCount - 1), Leave(k))
    case Leave(k) => ReleaseSlot(slot, Idle)
    case Aborted(k) => Effect(slot, -1, Quit(k), false)
  }

  function StepEffect(slot: Slot, pc: Pc, slots: nat, shutdown: bool, choice: bool): Effect
    requires !pc.Idle?
  {
    if pc.Scan? || pc.Completed? || pc.Handle? || pc.Drop? || pc.Quit? || pc.Leave? || pc.Aborted? then
      HandlerStep(slot, pc, slots, shutdown)
    else
      PostStep(slot, pc, slots, shutdown, choice)
  }

  function Next(s: State, a: Action): (r: State)
    requires Enabled(s, a)
    ensures |r.slots| == |s.slots| && |r.threads| == |s.threads|
  {
    match a
    case StartRefill(t) =>
      // the scan is not begun during shutdown
      if s.shutdown then s else s.(threads := s.threads[t := Scan(0)])
    case Complete(t, k) => Arrive(s, t, k, Completed(k))
    case Abort(t, k) => Arrive(s, t, k, Aborted(k))
    case Shutdown => s.(shutdown := true)
    case Step(t, choice) =>
      var k := s.threads[t].slot;
      var e := StepEffect(s.slots[k], s.threads[t], |s.slots|, s.shutdown, choice);
      State(s.slots[k := e.slot], s.postedCount + e.noted, s.shutdown, s.threads[t := e.pc],
            s.violations + if e.unowned then 1 else 0)
  }

  function Arrive(s: State, t: nat, k: nat, pc: Pc): State
    requires t < |s.threads| && k < |s.slots| && s.slots[k].posted > 0
  {
    s.(slots := s.slots[k := s.slots[k].(posted := s.slots[k].posted - 1)], threads := s.threads[t := pc])
  }

  ghost predicate Initial(s: State)
  {
    && (forall k :: 0 <= k < |s.slots| ==> s.slots[k] == Slot(false, 0, 0))
    && (forall t :: 0 <= t < |s.threads| ==> s.threads[t].Idle?)
    && s.postedCount == 0 && s.violations == 0
  }

  ghost predicate Runs(s: State, schedule: seq<Action>)
    decreases |schedule|
  {
    schedule == [] || (Enabled(s, schedule[0]) && Runs(Next(s, schedule[0]), schedule[1..]))
  }

  ghost function After(s: State, schedule: seq<Action>): (r: State)
    requires Runs(s, schedule)
    ensures |r.slots| == |s.slots| && |r.threads| == |s.threads|
    decreases |schedule|
  {
    if schedule == [] then s else After(Next(s, schedule[0]), schedule[1..])
  }

  lemma {:induction false} RunsExtend(s: State, schedule: seq<Action>, a: Action)
    requires Runs(s, schedule) && Enabled(After(s, schedule), a)
    ensures Runs(s, schedule + [a])
    ensures After(s, schedule + [a]) == Next(After(s, schedule), a)
    decreases |schedule|
  {
    if schedule == [] {
      assert [a][1..] == [];
    } else {
      RunsExtend(Next(s, schedule[0]), schedule[1..], a);
      assert (schedule + [a])[1..] == schedule[1..] + [a];
    }
  }

  // --- Who holds what ---------------------------------------------------------------------------

  predicate Posting(pc: Pc)
  {
    pc.Top? || pc.Socket? || pc.Count? || pc.Look? || pc.Issue? || pc.Uncount? || pc.Failed?
  }

  // Holding the slot: posting on it, or handling what completed on it.
  function HoldsSlot(pc: Pc): nat
  {
    One(Posting(pc) || pc.Completed? || pc.Handle? || pc.Quit? || pc.Leave? || pc.Aborted?)
  }

  // Units of m_ioCount: the completed operation's, and the one of a post in the making.
  function Units(pc: Pc): nat
  {
    One(pc.Completed? || pc.Handle? || pc.Drop? || pc.Quit? || pc.Aborted? || ((Posting(pc) || pc.Note?) && pc.caller.Handler?))
    + One(pc.Look? || pc.Issue? || pc.Uncount?)
  }

  function Owns(k: nat): Pc -> nat { (pc: Pc) => if !pc.Idle? && pc.slot == k then HoldsSlot(pc) else 0 }
  function Counts(k: nat): Pc -> nat { (pc: Pc) => if !pc.Idle? && pc.slot == k then Units(pc) else 0 }
  function ToNote(pc: Pc): nat { One(pc.Note?) }
  function ToUnnote(pc: Pc): nat { One(pc.Completed? || pc.Aborted?) }
  function PostedOn(slot: Slot): nat { slot.posted }

  // m_slotOwned is 1 exactly while an AcceptEx is posted or one thread posts or handles; m_ioCount is
  // the posted operation and the units of the threads.
  ghost predicate SlotSound(s: State, k: nat)
    requires k < |s.slots|
  {
    && One(s.slots[k].owned) == s.slots[k].posted + Total(s.threads, Owns(k))
    && s.slots[k].ioCount == s.slots[k].posted + Total(s.threads, Counts(k))
  }

  ghost predicate Sound(s: State)
  {
    && (forall k :: 0 <= k < |s.slots| ==> SlotSound(s, k))
    && (forall t :: 0 <= t < |s.threads| ==> Names(s.threads[t], |s.slots|))
    && s.postedCount + Total(s.threads, ToNote) == Total(s.slots, PostedOn) + Total(s.threads, ToUnnote)
    && s.violations == 0
  }

  // One thread's row and one slot change.
  lemma RowMoves(s: State, t: nat, pc: Pc, k: nat)
    requires t < |s.threads|
    ensures Total(s.threads[t := pc], Owns(k)) + Owns(k)(s.threads[t]) == Total(s.threads, Owns(k)) + Owns(k)(pc)
    ensures Total(s.threads[t := pc], Counts(k)) + Counts(k)(s.threads[t]) == Total(s.threads, Counts(k)) + Counts(k)(pc)
    ensures Total(s.threads, Owns(k)) >= Owns(k)(s.threads[t])
  {
    Update(s.threads, t, pc, Owns(k));
    Update(s.threads, t, pc, Counts(k));
    AtLeast(s.threads, t, Owns(k));
  }

  lemma NotesMove(s: State, t: nat, pc: Pc, k: nat, slot: Slot)
    requires t < |s.threads| && k < |s.slots|
    ensures Total(s.threads[t := pc], ToNote) + ToNote(s.threads[t]) == Total(s.threads, ToNote) + ToNote(pc)
    ensures Total(s.threads[t := pc], ToUnnote) + ToUnnote(s.threads[t]) == Total(s.threads, ToUnnote) + ToUnnote(pc)
    ensures Total(s.slots[k := slot], PostedOn) + s.slots[k].posted == Total(s.slots, PostedOn) + slot.posted
  {
    Update(s.threads, t, pc, ToNote);
    Update(s.threads, t, pc, ToUnnote);
    Update(s.slots, k, slot, PostedOn);
  }

  // A step of the slot's holder, and of a thread that holds nothing.
  lemma EffectBalances(slot: Slot, pc: Pc, slots: nat, shutdown: bool, choice: bool, others: nat)
    requires !pc.Idle? && pc.slot < slots
    requires One(slot.owned) == slot.posted + others + HoldsSlot(pc)
    ensures var e := StepEffect(slot, pc, slots, shutdown, choice);
            && One(e.slot.owned) == e.slot.posted + others + Owns(pc.slot)(e.pc)
            && e.slot.ioCount - slot.ioCount == e.slot.posted - slot.posted + Counts(pc.slot)(e.pc) - Units(pc)
            && e.noted + ToNote(e.pc) - ToNote(pc) == e.slot.posted - slot.posted + ToUnnote(e.pc) - ToUnnote(pc)
            && !e.unowned && Names(e.pc, slots)
            && (!e.pc.Idle? && e.pc.slot != pc.slot ==> e.pc.Scan?)
  {
  }

  lemma StepIsSound(s: State, t: nat, choice: bool)
    requires Sound(s) && Enabled(s, Step(t, choice))
    ensures Sound(Next(s, Step(t, choice)))
  {
    hide StepEffect, SlotSound;
    var pc := s.threads[t];
    var k := pc.slot;
    var e := StepEffect(s.slots[k], pc, |s.slots|, s.shutdown, choice);
    var r := Next(s, Step(t, choice));
    RowMoves(s, t, e.pc, k);
    assert SlotSound(s, k);
    StepBalances(s, t, choice);
    NotesMove(s, t, e.pc, k, e.slot);
    forall j | 0 <= j < |r.slots| ensures SlotSound(r, j) {
      if j != k {
        assert SlotSound(s, j);
        OtherSlot(s, t, choice, j);
      }
    }
  }

  lemma StepBalances(s: State, t: nat, choice: bool)
    requires Enabled(s, Step(t, choice)) && SlotSound(s, s.threads[t].slot)
    ensures var pc, k := s.threads[t], s.threads[t].slot;
            var e := StepEffect(s.slots[k], pc, |s.slots|, s.shutdown, choice);
            && SlotSound(Next(s, Step(t, choice)), k)
            && e.noted + ToNote(e.pc) - ToNote(pc) == e.slot.posted - s.slots[k].posted + ToUnnote(e.pc) - ToUnnote(pc)
            && !e.unowned && Names(e.pc, |s.slots|)
  {
    hide StepEffect, HoldsSlot, Units, Total;
    var pc := s.threads[t];
    var k := pc.slot;
    var e := StepEffect(s.slots[k], pc, |s.slots|, s.shutdown, choice);
    RowMoves(s, t, e.pc, k);
    EffectBalances(s.slots[k], pc, |s.slots|, s.shutdown, choice, Total(s.threads, Owns(k)) - HoldsSlot(pc));
  }

  // Other slots do not notice.
  lemma OtherSlot(s: State, t: nat, choice: bool, j: nat)
    requires Enabled(s, Step(t, choice)) && j < |s.slots| && j != s.threads[t].slot && SlotSound(s, j)
    requires SlotSound(s, s.threads[t].slot)
    ensures SlotSound(Next(s, Step(t, choice)), j)
  {
    hide StepEffect, Total;
    var pc := s.threads[t];
    var k := pc.slot;
    var e := StepEffect(s.slots[k], pc, |s.slots|, s.shutdown, choice);
    RowMoves(s, t, e.pc, j);
    RowMoves(s, t, e.pc, k);
    EffectBalances(s.slots[k], pc, |s.slots|, s.shutdown, choice, Total(s.threads, Owns(k)) - HoldsSlot(pc));
  }

  lemma ArriveIsSound(s: State, t: nat, k: nat, pc: Pc)
    requires Sound(s) && t < |s.threads| && k < |s.slots| && s.slots[k].posted > 0 && s.threads[t].Idle?
    requires pc == Completed(k) || pc == Aborted(k)
    ensures Sound(Arrive(s, t, k, pc))
  {
    hide Total;
    var r := Arrive(s, t, k, pc);
    NotesMove(s, t, pc, k, r.slots[k]);
    forall j | 0 <= j < |r.slots| ensures SlotSound(r, j) {
      assert SlotSound(s, j);
      RowMoves(s, t, pc, j);
    }
  }

  lemma NextIsSound(s: State, a: Action)
    requires Sound(s) && Enabled(s, a)
    ensures Sound(Next(s, a))
  {
    match a {
      case Complete(t, k) => ArriveIsSound(s, t, k, Completed(k));
      case Abort(t, k) => ArriveIsSound(s, t, k, Aborted(k));
      case Step(t, choice) => StepIsSound(s, t, choice);
      case Shutdown =>
        forall j | 0 <= j < |s.slots| ensures SlotSound(Next(s, a), j) { assert SlotSound(s, j); }
      case StartRefill(t) => RefillIsSound(s, t);
    }
  }

  lemma RefillIsSound(s: State, t: nat)
    requires Sound(s) && Enabled(s, StartRefill(t))
    ensures Sound(Next(s, StartRefill(t)))
  {
    hide Total;
    NotesMove(s, t, Scan(0), 0, s.slots[0]);
    var r := Next(s, StartRefill(t));
    assert s.slots[0 := s.slots[0]] == s.slots;
    forall j | 0 <= j < |s.slots| ensures SlotSound(r, j) {
      assert SlotSound(s, j);
      RowMoves(s, t, Scan(0), j);
    }
  }

  lemma InitialIsSound(s: State)
    requires Initial(s)
    ensures Sound(s)
  {
    Zero(s.threads, ToNote);
    Zero(s.threads, ToUnnote);
    Zero(s.slots, PostedOn);
    forall k | 0 <= k < |s.slots| ensures SlotSound(s, k) {
      Zero(s.threads, Owns(k));
      Zero(s.threads, Counts(k));
    }
  }

  lemma {:induction false} RunIsSound(s: State, schedule: seq<Action>)
    requires Sound(s) && Runs(s, schedule)
    ensures Sound(After(s, schedule))
    decreases |schedule|
  {
    hide Sound, Enabled;
    if schedule != [] {
      NextIsSound(s, schedule[0]);
      RunIsSound(Next(s, schedule[0]), schedule[1..]);
    }
  }

  // --- Theorems ---------------------------------------------------------------------------------

  // In every reachable state and for every slot: at most one AcceptEx is posted; the slot is owned
  // exactly while one is posted or a thread is posting or handling, and never by two of these; the
  // I/O count is never negative; and no ReleaseSlot ever ran on an unowned slot.
  lemma OneAcceptPerSlot(s0: State, schedule: seq<Action>, k: nat)
    requires Initial(s0) && Runs(s0, schedule) && k < |s0.slots|
    ensures var s := After(s0, schedule);
            && s.slots[k].posted <= 1
            && (s.slots[k].owned <==> s.slots[k].posted == 1 || exists t :: 0 <= t < |s.threads| && Owns(k)(s.threads[t]) == 1)
            && (forall t :: 0 <= t < |s.threads| && Owns(k)(s.threads[t]) == 1 ==> s.slots[k].posted == 0)
            && (forall t, u :: 0 <= t < u < |s.threads| ==> !(Owns(k)(s.threads[t]) == 1 && Owns(k)(s.threads[u]) == 1))
            && s.slots[k].ioCount >= 0
            && s.violations == 0
  {
    var s := After(s0, schedule);
    InitialIsSound(s0);
    RunIsSound(s0, schedule);
    assert SlotSound(s, k);
    if Total(s.threads, Owns(k)) > 0 {
      var t := Witness(s.threads, Owns(k));
      assert Owns(k)(s.threads[t]) == 1;
    }
    forall t | 0 <= t < |s.threads| && Owns(k)(s.threads[t]) == 1
      ensures s.slots[k].posted == 0 && s.slots[k].owned
    {
      AtLeast(s.threads, t, Owns(k));
    }
    forall t, u | 0 <= t < u < |s.threads|
      ensures !(Owns(k)(s.threads[t]) == 1 && Owns(k)(s.threads[u]) == 1)
    {
      AtLeastTwo(s.threads, t, u, Owns(k));
    }
  }

  // No slot is lost and no accept miscounted: at rest a slot is owned exactly when its AcceptEx is
  // posted, so the refill can take every other one, and m_postedAcceptCount is the number posted.
  lemma RestingSlotsAreKnown(s0: State, schedule: seq<Action>)
    requires Initial(s0) && Runs(s0, schedule)
    requires forall t :: 0 <= t < |After(s0, schedule).threads| ==> After(s0, schedule).threads[t].Idle?
    ensures var s := After(s0, schedule);
            && s.postedCount == Total(s.slots, PostedOn)
            && forall k :: 0 <= k < |s.slots| ==>
                 s.slots[k].owned == (s.slots[k].posted == 1) && s.slots[k].ioCount == s.slots[k].posted <= 1
  {
    var s := After(s0, schedule);
    InitialIsSound(s0);
    RunIsSound(s0, schedule);
    Zero(s.threads, ToNote);
    Zero(s.threads, ToUnnote);
    forall k | 0 <= k < |s.slots|
      ensures s.slots[k].owned == (s.slots[k].posted == 1) && s.slots[k].ioCount == s.slots[k].posted <= 1
    {
      assert SlotSound(s, k);
      Zero(s.threads, Owns(k));
      Zero(s.threads, Counts(k));
    }
  }

  // m_postedAcceptCount over all runs: what it lacks are the posts not noted yet, what it has too much
  // are the completions not taken off yet; so it is exact exactly when these are equally many.
  lemma PostedCountIsExactIff(s0: State, schedule: seq<Action>)
    requires Initial(s0) && Runs(s0, schedule)
    ensures var s := After(s0, schedule);
            && s.postedCount == Total(s.slots, PostedOn) + Total(s.threads, ToUnnote) - Total(s.threads, ToNote)
            && (s.postedCount == Total(s.slots, PostedOn) <==> Total(s.threads, ToNote) == Total(s.threads, ToUnnote))
  {
    InitialIsSound(s0);
    RunIsSound(s0, schedule);
  }

  // And it can be off either way, even below zero: an accept is posted but not noted yet, and then its
  // completion is taken off by another thread before the poster notes it.
  const ONE_SLOT := State([Slot(false, 0, 0)], 0, false, [Idle, Idle], 0)

  lemma Further(schedule: seq<Action>, a: Action) returns (longer: seq<Action>)
    requires Runs(ONE_SLOT, schedule) && Enabled(After(ONE_SLOT, schedule), a)
    ensures Runs(ONE_SLOT, longer) && After(ONE_SLOT, longer) == Next(After(ONE_SLOT, schedule), a)
  {
    RunsExtend(ONE_SLOT, schedule, a);
    longer := schedule + [a];
  }

  lemma AboutToPost() returns (schedule: seq<Action>)
    ensures Runs(ONE_SLOT, schedule)
    ensures After(ONE_SLOT, schedule) == State([Slot(true, 0, 0)], 0, false, [Count(0, Refill), Idle], 0)
  {
    schedule := [];
    assert After(ONE_SLOT, schedule) == ONE_SLOT;
    hide Runs, After;
    schedule := Further(schedule, StartRefill(0));
    schedule := Further(schedule, Step(0, true));
    schedule := Further(schedule, Step(0, true));
    schedule := Further(schedule, Step(0, true));
  }

  lemma PostedNotNoted() returns (schedule: seq<Action>)
    ensures Initial(ONE_SLOT) && Runs(ONE_SLOT, schedule)
    ensures After(ONE_SLOT, schedule) == State([Slot(true, 1, 1)], 0, false, [Note(0, Refill), Idle], 0)
  {
    hide Runs, After;
    schedule := AboutToPost();
    schedule := Further(schedule, Step(0, true));
    schedule := Further(schedule, Step(0, true));
    schedule := Further(schedule, Step(0, true));
  }

  lemma CountBelowZero() returns (schedule: seq<Action>)
    ensures Initial(ONE_SLOT) && Runs(ONE_SLOT, schedule)
    ensures After(ONE_SLOT, schedule).postedCount == -1 && Total(After(ONE_SLOT, schedule).slots, PostedOn) == 0
  {
    schedule := PostedNotNoted();
    hide Runs, After;
    schedule := Further(schedule, Complete(1, 0));
    schedule := Further(schedule, Step(1, true));
    Single(After(ONE_SLOT, schedule).slots[0], PostedOn);
  }

  // The shutdown barrier of one slot: nothing posted and nobody between the second look and AcceptEx.
  ghost predicate Shut(s: State, k: nat)
    requires k < |s.slots|
  {
    && s.shutdown && s.slots[k].posted == 0
    && forall t :: 0 <= t < |s.threads| && s.threads[t].Issue? ==> s.threads[t].slot != k
  }

  // Because PostAccept counts before it looks, a count of zero seen after the shutdown flag is up
  // means the barrier holds, and no step can break it.
  lemma ZeroMeansShut(s: State, k: nat)
    requires Sound(s) && k < |s.slots| && s.shutdown && s.slots[k].ioCount == 0
    ensures Shut(s, k)
  {
    assert SlotSound(s, k);
    forall t | 0 <= t < |s.threads| && s.threads[t].Issue?
      ensures s.threads[t].slot != k
    {
      AtLeast(s.threads, t, Counts(k));
    }
  }

  lemma StaysShut(s: State, a: Action, k: nat)
    requires k < |s.slots| && Shut(s, k) && Enabled(s, a)
    ensures Shut(Next(s, a), k)
  {
  }

  lemma {:induction false} NothingPostedAfterZero(s: State, schedule: seq<Action>, k: nat)
    requires k < |s.slots| && Shut(s, k) && Runs(s, schedule)
    ensures Shut(After(s, schedule), k)
    decreases |schedule|
  {
    hide Shut, Enabled;
    if schedule != [] {
      StaysShut(s, schedule[0], k);
      NothingPostedAfterZero(Next(s, schedule[0]), schedule[1..], k);
    }
  }

  lemma ShutdownIsFinal(s0: State, before: seq<Action>, after: seq<Action>, k: nat)
    requires Initial(s0) && Runs(s0, before) && k < |s0.slots|
    requires After(s0, before).shutdown && After(s0, before).slots[k].ioCount == 0
    requires Runs(After(s0, before), after)
    ensures After(After(s0, before), after).slots[k].posted == 0
  {
    InitialIsSound(s0);
    RunIsSound(s0, before);
    ZeroMeansShut(After(s0, before), k);
    NothingPostedAfterZero(After(s0, before), after, k);
  }
}
