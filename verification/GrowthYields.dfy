/**
 A thread inside the grow section has grown the bin: exactly when it is sure to find a chunk at its
 third pop, whatever the other threads do until then.
 */
module GrowthYields {
  import opened Tally
  import opened PoolSteps
  import opened PoolStepsInvariants
  import P = BlockPoolProtocol

  predicate IsThirdPop(s: State, a: Action, t: nat)
  {
    a.Step? && a.t == t && t < |s.threads| && s.threads[t].pc.ThirdPop?
  }

  // A run in which t has not taken its third pop.
  ghost predicate BeforePop(c: P.Spec, s: State, schedule: seq<Action>, t: nat)
    decreases |schedule|
  {
    schedule == []
    || (Enabled(c, s, schedule[0]) && !IsThirdPop(s, schedule[0], t) && BeforePop(c, Next(c, s, schedule[0]), schedule[1..], t))
  }

  predicate AtThirdPop(s: State, t: nat) { t < |s.threads| && s.threads[t].pc.ThirdPop? }

  // Whenever t comes to its third pop there is a chunk to pop.
  ghost predicate FindsChunk(c: P.Spec, s: State, t: nat)
  {
    forall schedule :: Runs(c, s, schedule) && BeforePop(c, s, schedule, t) && AtThirdPop(After(c, s, schedule), t) ==>
      After(c, s, schedule).chunks != []
  }

  // --- All others wait ----------------------------------------------------------------------------------

  ghost predicate OthersWait(s: State, t: nat)
  {
    forall u :: 0 <= u < |s.threads| && u != t ==> s.threads[u].pc.Lock?
  }

  // t carves or is about to pop, and what it has carved or is going to is still there.
  ghost predicate Stocked(s: State, t: nat)
  {
    && t < |s.threads| && s.locked && OthersWait(s, t)
    && (s.threads[t].pc.Carve? || s.threads[t].pc.ThirdPop?)
    && (s.chunks != [] || (s.threads[t].pc.Carve? && s.threads[t].pc.left != []))
  }

  lemma StaysStocked(c: P.Spec, s: State, a: Action, t: nat)
    requires Stocked(s, t) && Enabled(c, s, a) && !IsThirdPop(s, a, t)
    ensures Stocked(Next(c, s, a), t)
  {
    hide Fresh, P.Marked;
    assert a.t == t;
  }

  lemma {:induction false} StockedRun(c: P.Spec, s: State, schedule: seq<Action>, t: nat)
    requires Stocked(s, t) && Runs(c, s, schedule) && BeforePop(c, s, schedule, t)
    ensures Stocked(After(c, s, schedule), t)
    decreases |schedule|
  {
    hide Stocked, Enabled, Next;
    if schedule != [] {
      StaysStocked(c, s, schedule[0], t);
      StockedRun(c, Next(c, s, schedule[0]), schedule[1..], t);
    }
  }

  // --- Somebody does not wait ----------------------------------------------------------------------------

  // One more step of a run under construction.
  lemma {:induction false} More(c: P.Spec, s: State, schedule: seq<Action>, a: Action, t: nat) returns (longer: seq<Action>)
    requires Runs(c, s, schedule) && BeforePop(c, s, schedule, t)
    requires Enabled(c, After(c, s, schedule), a) && !IsThirdPop(After(c, s, schedule), a, t)
    ensures Runs(c, s, longer) && BeforePop(c, s, longer, t) && After(c, s, longer) == Next(c, After(c, s, schedule), a)
  {
    RunsExtend(c, s, schedule, a);
    PopExtends(c, s, schedule, a, t);
    longer := schedule + [a];
  }

  lemma {:induction false} PopExtends(c: P.Spec, s: State, schedule: seq<Action>, a: Action, t: nat)
    requires Runs(c, s, schedule) && BeforePop(c, s, schedule, t)
    requires Enabled(c, After(c, s, schedule), a) && !IsThirdPop(After(c, s, schedule), a, t)
    ensures BeforePop(c, s, schedule + [a], t)
    decreases |schedule|
  {
    hide Enabled, Next, IsThirdPop;
    if schedule == [] {
      assert [a][1..] == [];
    } else {
      PopExtends(c, Next(c, s, schedule[0]), schedule[1..], a, t);
      assert (schedule + [a])[1..] == schedule[1..] + [a];
    }
  }

  // A thread that neither waits for the lock nor is in the section.
  predicate Outside(th: Thread) { !th.pc.Lock? && InSection(th) == 0 }

  ghost predicate Ready(c: P.Spec, r: State, so: seq<Action>, t: nat, u: nat)
  {
    && Runs(c, r, so) && BeforePop(c, r, so, t) && AtThirdPop(After(c, r, so), t)
    && u < |After(c, r, so).threads| && u != t && Outside(After(c, r, so).threads[u])
  }

  // t links and pushes what it has to carve.
  lemma {:induction false} CarvesOut(c: P.Spec, r: State, so: seq<Action>, t: nat, u: nat) returns (schedule: seq<Action>)
    requires Runs(c, r, so) && BeforePop(c, r, so, t)
    requires var e := After(c, r, so);
             && t < |e.threads| && e.threads[t].pc.Carve? && u < |e.threads| && u != t && Outside(e.threads[u])
    ensures Ready(c, r, schedule, t, u)
    decreases |After(c, r, so).threads[t].pc.left|
  {
    hide Runs, After, BeforePop, P.Marked, Fresh;
    var left := After(c, r, so).threads[t].pc.left;
    schedule := More(c, r, so, Step(t, true, []), t);
    if left != [] {
      schedule := CarvesOut(c, r, schedule, t, u);
    }
  }

  // How far the thread is from being out of the pool, as long as there are chunks.
  function ToIdle(th: Thread): nat
  {
    match th.pc
    case Pop => if th.slot.Attached? then 5 else 6
    case FirstPop => 4
    case Adopt(_) => 3
    case Mark(_) => 2
    case Stamp(_) => 1
    case Check(_) => 6
    case Free(_) => 5
    case Put(_) => if th.slot.Attached? then 2 else 3
    case Flush(_) => 1
    case Orphan => 1
    case Leave => 2 * |Blocks(th.slot)| + 1
    case LeaveFlush(_) => 2 * |Blocks(th.slot)| + 2
    case _ => 0
  }

  lemma StepsTowardsIdle(c: P.Spec, s: State, th: Thread)
    requires P.Sensible(c) && Outside(th) && !th.pc.Idle? && s.chunks != []
    ensures var e := StepEffect(c, s, th, true, []); Outside(e.th) && ToIdle(e.th) < ToIdle(th)
  {
    hide PopStep, CarveStep, AdoptStep, MarkStep, ReleaseStep, LeaveStep, StoreStep, ToIdle;
    if th.pc.Leave? || th.pc.LeaveFlush? {
      LeaveTowardsIdle(c, s, th);
    } else if th.pc.Check? || th.pc.Free? || th.pc.Put? || th.pc.Flush? || th.pc.Orphan? {
      ReleaseTowardsIdle(c, s, th);
    } else {
      AcquireTowardsIdle(s, th);
    }
  }

  lemma AcquireTowardsIdle(s: State, th: Thread)
    requires s.chunks != []
    ensures th.pc.Pop? ==> var e := PopStep(s, th, true); Outside(e.th) && ToIdle(e.th) < ToIdle(th)
    ensures th.pc.Adopt? ==> var e := AdoptStep(s, th); Outside(e.th) && ToIdle(e.th) < ToIdle(th)
    ensures th.pc.Mark? || th.pc.Stamp? ==> var e := MarkStep(s, th); Outside(e.th) && ToIdle(e.th) < ToIdle(th)
    ensures th.pc.FirstPop? ==> var e := StoreStep(s, th, true, []); Outside(e.th) && ToIdle(e.th) < ToIdle(th)
  {
  }

  lemma ReleaseTowardsIdle(c: P.Spec, s: State, th: Thread)
    requires th.pc.Check? || th.pc.Free? || th.pc.Put? || th.pc.Flush? || th.pc.Orphan?
    ensures var e := ReleaseStep(c, s, th, true); Outside(e.th) && ToIdle(e.th) < ToIdle(th)
  {
  }

  lemma LeaveTowardsIdle(c: P.Spec, s: State, th: Thread)
    requires P.Sensible(c) && (th.pc.Leave? || th.pc.LeaveFlush?)
    ensures var e := LeaveStep(c, s, th); Outside(e.th) && ToIdle(e.th) < ToIdle(th)
  {
  }

  // It finishes what it is doing, unless the store runs empty before.
  lemma {:induction false} Settles(c: P.Spec, r: State, so: seq<Action>, t: nat, u: nat) returns (schedule: seq<Action>)
    requires P.Sensible(c) && Ready(c, r, so, t, u)
    ensures Ready(c, r, schedule, t, u)
    ensures After(c, r, schedule).chunks == [] || After(c, r, schedule).threads[u].pc.Idle?
    decreases ToIdle(After(c, r, so).threads[u])
  {
    hide Runs, After, BeforePop, StepEffect, ToIdle, Fresh, Outside;
    var e := After(c, r, so);
    schedule := so;
    if e.chunks != [] && !e.threads[u].pc.Idle? {
      OutsideHasNoSection(e.threads[u]);
      StepsTowardsIdle(c, e, e.threads[u]);
      schedule := More(c, r, so, Step(u, true, []), t);
      schedule := Settles(c, r, schedule, t, u);
    }
  }

  lemma OutsideHasNoSection(th: Thread)
    requires Outside(th)
    ensures !th.pc.Lock? && !th.pc.Grow?
  {
  }

  // One acquire: its own list gets shorter, or the store does.
  lemma AcquiresOne(c: P.Spec, r: State, so: seq<Action>, t: nat, u: nat) returns (schedule: seq<Action>)
    requires Ready(c, r, so, t, u) && After(c, r, so).threads[u].pc.Idle? && After(c, r, so).chunks != []
    ensures Ready(c, r, schedule, t, u) && After(c, r, schedule).threads[u].pc.Idle?
    ensures var e, e' := After(c, r, so), After(c, r, schedule);
            |e'.chunks| < |e.chunks| || (|e'.chunks| == |e.chunks| && |Blocks(e'.threads[u].slot)| < |Blocks(e.threads[u].slot)|)
  {
    hide Runs, After, BeforePop, Fresh, P.Marked, StepEffect;
    schedule := ComesToPop(c, r, so, t, u);
    PopsOne(c, After(c, r, schedule), u);
    schedule := More(c, r, schedule, Step(u, true, []), t);
    if After(c, r, schedule).threads[u].pc.FirstPop? {
      PopsOne(c, After(c, r, schedule), u);
      schedule := More(c, r, schedule, Step(u, true, []), t);
      PopsOne(c, After(c, r, schedule), u);
      schedule := More(c, r, schedule, Step(u, true, []), t);
    }
    schedule := HandsOut(c, r, schedule, t, u);
  }

  // What the three steps that take a block do.
  lemma PopsOne(c: P.Spec, s: State, u: nat)
    requires u < |s.threads|
    ensures var th := s.threads[u];
            && (th.pc.Pop? && th.slot.Attached? ==>
                  var e := StepEffect(c, s, th, true, []);
                  e.chunks == s.chunks && if Blocks(th.slot) == [] then e.th == At(th, FirstPop)
                                          else e.th.pc.Mark? && |Blocks(e.th.slot)| < |Blocks(th.slot)|)
            && (th.pc.FirstPop? && s.chunks != [] ==>
                  var e := StepEffect(c, s, th, true, []); |e.chunks| < |s.chunks| && e.th.pc.Adopt?)
    ensures var th := s.threads[u];
            th.pc.Adopt? ==>
              var e := StepEffect(c, s, th, true, []); e.chunks == s.chunks && (e.th.pc.Idle? || e.th.pc.Mark?)
  {
  }

  lemma ComesToPop(c: P.Spec, r: State, so: seq<Action>, t: nat, u: nat) returns (schedule: seq<Action>)
    requires Ready(c, r, so, t, u) && After(c, r, so).threads[u].pc.Idle?
    ensures Ready(c, r, schedule, t, u)
    ensures var e, e' := After(c, r, so), After(c, r, schedule);
            && e'.chunks == e.chunks && e'.threads[u].pc.Pop? && e'.threads[u].slot.Attached?
            && Blocks(e'.threads[u].slot) == Blocks(e.threads[u].slot)
  {
    hide Runs, After, BeforePop, Fresh, P.Marked;
    schedule := More(c, r, so, BeginAcquire(u), t);
    if After(c, r, so).threads[u].slot.Gone? {
      schedule := More(c, r, schedule, Step(u, true, []), t);
    }
  }

  // The block in hand is marked, if there is one.
  lemma HandsOut(c: P.Spec, r: State, so: seq<Action>, t: nat, u: nat) returns (schedule: seq<Action>)
    requires Ready(c, r, so, t, u)
    requires After(c, r, so).threads[u].pc.Idle? || After(c, r, so).threads[u].pc.Mark?
    ensures Ready(c, r, schedule, t, u) && After(c, r, schedule).threads[u].pc.Idle?
    ensures var e, e' := After(c, r, so), After(c, r, schedule);
            e'.chunks == e.chunks && e'.threads[u].slot == e.threads[u].slot
  {
    hide Runs, After, BeforePop, Fresh, P.Marked;
    schedule := so;
    if After(c, r, so).threads[u].pc.Mark? {
      schedule := More(c, r, schedule, Step(u, true, []), t);
      if After(c, r, schedule).threads[u].pc.Stamp? {
        schedule := More(c, r, schedule, Step(u, true, []), t);
      }
    }
  }

  // So it can take everything there is before t gets to it.
  lemma {:induction false} Empties(c: P.Spec, r: State, so: seq<Action>, t: nat, u: nat) returns (schedule: seq<Action>)
    requires Ready(c, r, so, t, u)
    requires After(c, r, so).chunks == [] || After(c, r, so).threads[u].pc.Idle?
    ensures Ready(c, r, schedule, t, u) && After(c, r, schedule).chunks == []
    decreases |After(c, r, so).chunks|, |Blocks(After(c, r, so).threads[u].slot)|
  {
    hide Ready, Runs, After;
    schedule := so;
    ReadyRuns(c, r, so, t, u);
    if After(c, r, so).chunks != [] {
      schedule := AcquiresOne(c, r, so, t, u);
      ReadyRuns(c, r, schedule, t, u);
      schedule := Empties(c, r, schedule, t, u);
    }
    ReadyRuns(c, r, schedule, t, u);
  }

  lemma ReadyRuns(c: P.Spec, r: State, so: seq<Action>, t: nat, u: nat)
    requires Ready(c, r, so, t, u)
    ensures Runs(c, r, so) && u < |After(c, r, so).threads|
  {
  }

  // --- Exactly when --------------------------------------------------------------------------------------

  lemma {:induction false} OneInSection(c: P.Spec, s: State, schedule: seq<Action>)
    requires Runs(c, s, schedule) && Total(s.threads, InSection) == One(s.locked)
    ensures var r := After(c, s, schedule); Total(r.threads, InSection) == One(r.locked)
    decreases |schedule|
  {
    hide Enabled, Next, InSection;
    if schedule != [] {
      SectionMoves(c, s, schedule[0]);
      OneInSection(c, Next(c, s, schedule[0]), schedule[1..]);
    }
  }

  lemma NobodyElseInSection(s: State, t: nat, u: nat)
    requires Total(s.threads, InSection) == One(s.locked) && t < |s.threads| && u < |s.threads| && u != t
    requires InSection(s.threads[t]) == 1
    ensures s.locked && InSection(s.threads[u]) == 0
  {
    AtLeast(s.threads, t, InSection);
    if t < u { AtLeastTwo(s.threads, t, u, InSection); } else { AtLeastTwo(s.threads, u, t, InSection); }
  }

  // The growth has been granted, and one thread neither waits nor is in the section.
  lemma OutsiderTakesAll(c: P.Spec, s: State, t: nat, u: nat, grown: seq<seq<Addr>>)
    requires P.Sensible(c) && Total(s.threads, InSection) == One(s.locked)
    requires t < |s.threads| && u < |s.threads| && u != t && s.threads[t].pc.Grow? && !s.threads[u].pc.Lock?
    requires Enabled(c, s, Step(t, true, grown))
    ensures !FindsChunk(c, Next(c, s, Step(t, true, grown)), t)
  {
    var r := Next(c, s, Step(t, true, grown));
    NobodyElseInSection(s, t, u);
    assert Runs(c, r, []) && BeforePop(c, r, [], t) && After(c, r, []) == r;
    hide Runs, After, BeforePop, Enabled, Next;
    var schedule := CarvesOut(c, r, [], t, u);
    schedule := Settles(c, r, schedule, t, u);
    schedule := Empties(c, r, schedule, t, u);
  }

  // After every run: a thread under the lock has its growth granted.  It finds a chunk at its third pop in
  // every continuation exactly when every other thread is waiting for that lock.
  lemma GrowthYieldsIff(c: P.Spec, s0: State, schedule: seq<Action>, t: nat, grown: seq<seq<Addr>>)
    requires P.Sensible(c) && Initial(c, s0) && Runs(c, s0, schedule)
    requires t < |After(c, s0, schedule).threads| && After(c, s0, schedule).threads[t].pc.Grow?
    requires Fresh(c, After(c, s0, schedule).magic, grown) && grown != []
    ensures var s := After(c, s0, schedule);
            && Enabled(c, s, Step(t, true, grown))
            && (FindsChunk(c, Next(c, s, Step(t, true, grown)), t) <==> OthersWait(s, t))
  {
    hide Initial, Runs, After, BeforePop, Fresh, FindsChunk;
    var s := After(c, s0, schedule);
    InitialSection(c, s0);
    OneInSection(c, s0, schedule);
    AtLeast(s.threads, t, InSection);
    if OthersWait(s, t) {
      AllFind(c, s, t, grown);
    } else {
      var u :| 0 <= u < |s.threads| && u != t && !s.threads[u].pc.Lock?;
      OutsiderTakesAll(c, s, t, u, grown);
    }
  }

  lemma AllFind(c: P.Spec, s: State, t: nat, grown: seq<seq<Addr>>)
    requires t < |s.threads| && s.threads[t].pc.Grow? && s.locked && OthersWait(s, t) && grown != []
    requires Enabled(c, s, Step(t, true, grown))
    ensures FindsChunk(c, Next(c, s, Step(t, true, grown)), t)
  {
    var r := Next(c, s, Step(t, true, grown));
    forall more | Runs(c, r, more) && BeforePop(c, r, more, t) && AtThirdPop(After(c, r, more), t)
      ensures After(c, r, more).chunks != []
    {
      StockedRun(c, r, more, t);
    }
  }

  lemma InitialSection(c: P.Spec, s: State)
    requires Initial(c, s)
    ensures Total(s.threads, InSection) == One(s.locked)
  {
    Zero(s.threads, InSection);
  }
}
