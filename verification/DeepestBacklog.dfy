/**
 The backlog bound is exact: a run in which every worker and all but one completion thread hold a
 stale depth read drives the queue to that very depth.
 */
module DeepestBacklog {
  import opened Tally
  import opened BackpressureProtocol
  import opened BackpressureBound

  // Some run from s0 gets the session to these shared fields and program counters.
  ghost predicate Reaches(c: Config, s0: State, m: Shared, io: seq<IoPc>, wk: seq<WkPc>)
  {
    exists schedule :: Runs(c, s0, schedule) && Shows(After(c, s0, schedule), m, io, wk)
  }

  ghost predicate Shows(s: State, m: Shared, io: seq<IoPc>, wk: seq<WkPc>)
  {
    s.m == m && s.io == io && s.wk == wk
  }

  // The packets of the run: four bytes each, so that a full ring holds a batch of them.
  const SMALLEST: Job := [0, 0, 4, 0]

  function Copies(n: nat): (jobs: seq<Job>)
    ensures |jobs| == n
  {
    seq(n, _ => SMALLEST)
  }

  // Nobody is draining: the session is scheduled exactly when it has jobs.
  function Waiting(n: nat, paused: bool, posted: bool): Shared
  {
    Shared(Copies(n), n > 0, One(n > 0), paused, posted)
  }

  lemma Go(c: Config, s0: State, m: Shared, io: seq<IoPc>, wk: seq<WkPc>, a: Action)
    requires Reaches(c, s0, m, io, wk)
    requires forall log :: Enabled(c, State(m, io, wk, log), a) && !PushFails(State(m, io, wk, log), a)
    ensures var r := Next(c, State(m, io, wk, Log([], [])), a); Reaches(c, s0, r.m, r.io, r.wk)
  {
    var schedule :| Runs(c, s0, schedule) && Shows(After(c, s0, schedule), m, io, wk);
    var s := After(c, s0, schedule);
    assert s == State(m, io, wk, s.log);
    RunsExtend(c, s0, schedule, a);
    var r := Next(c, State(m, io, wk, Log([], [])), a);
    assert Shows(After(c, s0, schedule + [a]), r.m, r.io, r.wk);
  }

  lemma IoGo(c: Config, s0: State, m: Shared, io: seq<IoPc>, wk: seq<WkPc>, t: nat, pc: IoPc)
    requires t < |io| && Reaches(c, s0, m, io[t := pc], wk) && !pc.IoIdle? && !pc.Parse?
    ensures var e := IoStep(c, m, pc, false); Reaches(c, s0, e.0, io[t := e.1], wk)
  {
    hide Reaches, IoStep;
    Go(c, s0, m, io[t := pc], wk, Io(t, false));
    var next := IoStep(c, m, pc, false).1;
    assert io[t := pc][t := next] == io[t := next];
  }

  lemma WkGo(c: Config, s0: State, m: Shared, io: seq<IoPc>, wk: seq<WkPc>, t: nat, pc: WkPc)
    requires t < |wk| && Reaches(c, s0, m, io, wk[t := pc]) && !pc.WkIdle?
    ensures var e := WkStep(c, m, pc, false); Reaches(c, s0, e.0, io, wk[t := e.1])
  {
    hide Reaches, WkStep;
    Go(c, s0, m, io, wk[t := pc], Wk(t, false));
    var next := WkStep(c, m, pc, false).1;
    assert wk[t := pc][t := next] == wk[t := next];
  }

  lemma SubmitGo(c: Config, s0: State, m: Shared, io: seq<IoPc>, wk: seq<WkPc>, t: nat, left: nat)
    requires t < |io| && Reaches(c, s0, m, io[t := Parse(left)], wk) && left > 0
    ensures Reaches(c, s0, m.(jobs := m.jobs + [SMALLEST]), io[t := Schedule(left - 1)], wk)
  {
    hide Reaches;
    Go(c, s0, m, io[t := Parse(left)], wk, Submit(t, SMALLEST));
    assert io[t := Parse(left)][t := Schedule(left - 1)] == io[t := Schedule(left - 1)];
  }

  // Parsing k packets one after the other, of which the first schedules the session.
  lemma {:induction false} Deliver(c: Config, s0: State, n: nat, k: nat, left: nat, io: seq<IoPc>, wk: seq<WkPc>, t: nat)
    requires t < |io| && k <= left
    requires Reaches(c, s0, Waiting(n, false, false), io[t := Parse(left)], wk)
    ensures Reaches(c, s0, Waiting(n + k, false, false), io[t := Parse(left - k)], wk)
    decreases k
  {
    hide Reaches;
    if k > 0 {
      SubmitGo(c, s0, Waiting(n, false, false), io, wk, t, left);
      assert Copies(n) + [SMALLEST] == Copies(n + 1);
      var m := Shared(Copies(n + 1), n > 0, One(n > 0), false, false);
      IoGo(c, s0, m, io, wk, t, Schedule(left - 1));
      if n == 0 {
        IoGo(c, s0, m.(processing := true), io, wk, t, Announce(left - 1));
      }
      Deliver(c, s0, n + 1, k - 1, left - 1, io, wk, t);
    }
  }

  // One completion that carries k packets, up to the depth read.
  lemma Receive(c: Config, s0: State, n: nat, k: nat, io: seq<IoPc>, wk: seq<WkPc>, t: nat)
    requires t < |io| && io[t] == IoIdle && k <= c.batch
    requires Reaches(c, s0, Waiting(n, false, true), io, wk)
    ensures Reaches(c, s0, Waiting(n + k, false, false), io[t := ReadDepth], wk)
  {
    hide Reaches;
    Go(c, s0, Waiting(n, false, true), io, wk, Complete(t));
    Deliver(c, s0, n, k, c.batch, io, wk, t);
    Go(c, s0, Waiting(n + k, false, false), io[t := Parse(c.batch - k)], wk, StopParsing(t));
    assert io[t := Parse(c.batch - k)][t := ReadDepth] == io[t := ReadDepth];
  }

  // Below the pause level the handler posts the next receive and leaves.
  lemma ReceiveOn(c: Config, s0: State, n: nat, k: nat, io: seq<IoPc>, wk: seq<WkPc>, t: nat)
    requires t < |io| && io[t] == IoIdle && k <= c.batch && n + k < c.pause
    requires Reaches(c, s0, Waiting(n, false, true), io, wk)
    ensures Reaches(c, s0, Waiting(n + k, false, true), io, wk)
  {
    hide Reaches;
    Receive(c, s0, n, k, io, wk, t);
    IoGo(c, s0, Waiting(n + k, false, false), io, wk, t, ReadDepth);
    IoGo(c, s0, Waiting(n + k, false, false), io, wk, t, Post);
    assert io[t := IoIdle] == io;
  }

  // At the pause level it marks the session paused and is about to look again.
  lemma ReceiveAndMark(c: Config, s0: State, n: nat, k: nat, io: seq<IoPc>, wk: seq<WkPc>, t: nat)
    requires t < |io| && io[t] == IoIdle && k <= c.batch && n + k >= c.pause > 0
    requires Reaches(c, s0, Waiting(n, false, true), io, wk)
    ensures Reaches(c, s0, Waiting(n + k, true, false), io[t := RecheckDepth], wk)
  {
    hide Reaches;
    Receive(c, s0, n, k, io, wk, t);
    IoGo(c, s0, Waiting(n + k, false, false), io, wk, t, ReadDepth);
    IoGo(c, s0, Waiting(n + k, false, false), io, wk, t, MarkPaused);
  }

  lemma {:induction false} FillBelowPause(c: Config, s0: State, n: nat, io: seq<IoPc>, wk: seq<WkPc>, t: nat)
    requires t < |io| && io[t] == IoIdle && c.batch > 0 && n < c.pause
    requires Reaches(c, s0, Waiting(n, false, true), io, wk)
    ensures Reaches(c, s0, Waiting(c.pause - 1, false, true), io, wk)
    decreases c.pause - n
  {
    hide Reaches;
    if n + 1 < c.pause {
      ReceiveOn(c, s0, n, 1, io, wk, t);
      FillBelowPause(c, s0, n + 1, io, wk, t);
    }
  }

  lemma {:induction false} DrainAll(c: Config, s0: State, n: nat, io: seq<IoPc>, wk: seq<WkPc>, t: nat)
    requires t < |wk| && Reaches(c, s0, Shared(Copies(n), true, 0, true, false), io, wk[t := Drain])
    ensures Reaches(c, s0, Shared(Copies(0), true, 0, true, false), io, wk[t := Drain])
    decreases n
  {
    hide Reaches;
    if n > 0 {
      WkGo(c, s0, Shared(Copies(n), true, 0, true, false), io, wk, t, Drain);
      assert Copies(n)[1..] == Copies(n - 1);
      WkGo(c, s0, Shared(Copies(n - 1), true, 0, true, false), io, wk, t, Run(SMALLEST));
      DrainAll(c, s0, n - 1, io, wk, t);
    }
  }

  // A worker takes the paused session, drains it and decides to resume it.
  lemma DrainAndDecide(c: Config, s0: State, n: nat, io: seq<IoPc>, wk: seq<WkPc>, t: nat)
    requires t < |wk| && wk[t] == WkIdle && n > 0
    requires Reaches(c, s0, Waiting(n, true, false), io, wk)
    ensures Reaches(c, s0, Waiting(0, true, false), io, wk[t := WkClaim])
  {
    hide Reaches;
    Go(c, s0, Waiting(n, true, false), io, wk, Pop(t));
    DrainAll(c, s0, n, io, wk, t);
    WkGo(c, s0, Shared(Copies(0), true, 0, true, false), io, wk, t, Drain);
    WkGo(c, s0, Shared(Copies(0), true, 0, true, false), io, wk, t, Clear);
    WkGo(c, s0, Waiting(0, true, false), io, wk, t, Look);
    WkGo(c, s0, Waiting(0, true, false), io, wk, t, Peek);
    WkGo(c, s0, Waiting(0, true, false), io, wk, t, WkDepth);
  }

  // Completion thread x and worker y both read the drained queue of the paused session.
  lemma BothDecide(c: Config, s0: State, io: seq<IoPc>, wk: seq<WkPc>, x: nat, y: nat)
    requires x < |io| && y < |wk| && io[x] == IoIdle && wk[y] == WkIdle && Pausing(c) && c.batch > 0
    requires Reaches(c, s0, Waiting(0, false, true), io, wk)
    ensures Reaches(c, s0, Waiting(0, true, false), io[x := IoClaim], wk[y := WkClaim])
  {
    hide Reaches;
    FillBelowPause(c, s0, 0, io, wk, x);
    ReceiveAndMark(c, s0, c.pause - 1, 1, io, wk, x);
    DrainAndDecide(c, s0, c.pause, io[x := RecheckDepth], wk, y);
    IoGo(c, s0, Waiting(0, true, false), io, wk[y := WkClaim], x, RecheckDepth);
  }

  // The worker resumes; the completion thread keeps its stale read.
  lemma ParkCompleter(c: Config, s0: State, io: seq<IoPc>, wk: seq<WkPc>, x: nat, y: nat)
    requires x < |io| && y < |wk| && io[x] == IoIdle && wk[y] == WkIdle && Pausing(c) && c.batch > 0
    requires Reaches(c, s0, Waiting(0, false, true), io, wk)
    ensures Reaches(c, s0, Waiting(0, false, true), io[x := IoClaim], wk)
  {
    hide Reaches;
    BothDecide(c, s0, io, wk, x, y);
    WkGo(c, s0, Waiting(0, true, false), io[x := IoClaim], wk, y, WkClaim);
    WkGo(c, s0, Waiting(0, false, false), io[x := IoClaim], wk, y, WkResume);
    assert wk[y := WkIdle] == wk;
  }

  // The completion thread resumes; the worker keeps its stale read.
  lemma ParkWorker(c: Config, s0: State, io: seq<IoPc>, wk: seq<WkPc>, x: nat, y: nat)
    requires x < |io| && y < |wk| && io[x] == IoIdle && wk[y] == WkIdle && Pausing(c) && c.batch > 0
    requires Reaches(c, s0, Waiting(0, false, true), io, wk)
    ensures Reaches(c, s0, Waiting(0, false, true), io, wk[y := WkClaim])
  {
    hide Reaches;
    BothDecide(c, s0, io, wk, x, y);
    IoGo(c, s0, Waiting(0, true, false), io, wk[y := WkClaim], x, IoClaim);
    IoGo(c, s0, Waiting(0, false, false), io, wk[y := WkClaim], x, IoResume);
    assert io[x := IoIdle] == io;
  }

  // The first `free` threads idle, the others each holding a stale read.
  function Completers(threads: nat, free: nat): (io: seq<IoPc>)
    ensures |io| == threads
  {
    seq(threads, t => if t < free then IoIdle else IoClaim)
  }

  function Workers(threads: nat, free: nat): (wk: seq<WkPc>)
    ensures |wk| == threads
  {
    seq(threads, t => if t < free then WkIdle else WkClaim)
  }

  lemma {:induction false} ParkCompleters(c: Config, s0: State, threads: nat, free: nat, wk: seq<WkPc>)
    requires 0 < free <= threads && |wk| > 0 && wk[0] == WkIdle && Pausing(c) && c.batch > 0
    requires Reaches(c, s0, Waiting(0, false, true), Completers(threads, free), wk)
    ensures Reaches(c, s0, Waiting(0, false, true), Completers(threads, 1), wk)
    decreases free
  {
    hide Reaches;
    if free > 1 {
      ParkCompleter(c, s0, Completers(threads, free), wk, free - 1, 0);
      assert Completers(threads, free)[free - 1 := IoClaim] == Completers(threads, free - 1);
      ParkCompleters(c, s0, threads, free - 1, wk);
    }
  }

  lemma {:induction false} ParkWorkers(c: Config, s0: State, io: seq<IoPc>, threads: nat, free: nat)
    requires free <= threads && |io| > 0 && io[0] == IoIdle && Pausing(c) && c.batch > 0
    requires Reaches(c, s0, Waiting(0, false, true), io, Workers(threads, free))
    ensures Reaches(c, s0, Waiting(0, false, true), io, Workers(threads, 0))
    decreases free
  {
    hide Reaches;
    if free > 0 {
      ParkWorker(c, s0, io, Workers(threads, free), 0, free - 1);
      assert Workers(threads, free)[free - 1 := WkClaim] == Workers(threads, free - 1);
      ParkWorkers(c, s0, io, threads, free - 1);
    }
  }

  // A full batch on a queue that then stays above the resume level: paused, and nobody looks again.
  lemma Overfill(c: Config, s0: State, n: nat, io: seq<IoPc>, wk: seq<WkPc>, t: nat)
    requires t < |io| && io[t] == IoIdle && Pausing(c) && c.batch > 0 && n + 1 >= c.pause
    requires Reaches(c, s0, Waiting(n, false, true), io, wk)
    ensures Reaches(c, s0, Waiting(n + c.batch, true, false), io, wk)
  {
    hide Reaches;
    ReceiveAndMark(c, s0, n, c.batch, io, wk, t);
    IoGo(c, s0, Waiting(n + c.batch, true, false), io, wk, t, RecheckDepth);
    assert io[t := IoIdle] == io;
  }

  // A stale completion thread resumes the paused session, and one more batch arrives.
  lemma {:induction false} SpendCompleters(c: Config, s0: State, n: nat, threads: nat, free: nat, wk: seq<WkPc>)
    requires 0 < free <= threads && Pausing(c) && c.batch > 0 && n + 1 >= c.pause
    requires Reaches(c, s0, Waiting(n, true, false), Completers(threads, free), wk)
    ensures Reaches(c, s0, Waiting(n + c.batch * (threads - free), true, false), Completers(threads, threads), wk)
    decreases threads - free
  {
    hide Reaches;
    if free < threads {
      var io := Completers(threads, free);
      assert io[free := IoClaim] == io;
      IoGo(c, s0, Waiting(n, true, false), io, wk, free, IoClaim);
      IoGo(c, s0, Waiting(n, false, false), io, wk, free, IoResume);
      assert io[free := IoIdle] == Completers(threads, free + 1);
      Overfill(c, s0, n, Completers(threads, free + 1), wk, 0);
      SpendCompleters(c, s0, n + c.batch, threads, free + 1, wk);
      Distribute(c.batch, threads - free - 1, 1);
    }
  }

  lemma {:induction false} SpendWorkers(c: Config, s0: State, n: nat, io: seq<IoPc>, threads: nat, free: nat)
    requires free <= threads && |io| > 0 && io[0] == IoIdle && Pausing(c) && c.batch > 0 && n + 1 >= c.pause
    requires Reaches(c, s0, Waiting(n, true, false), io, Workers(threads, free))
    ensures Reaches(c, s0, Waiting(n + c.batch * (threads - free), true, false), io, Workers(threads, threads))
    decreases threads - free
  {
    hide Reaches;
    if free < threads {
      var wk := Workers(threads, free);
      assert wk[free := WkClaim] == wk;
      WkGo(c, s0, Waiting(n, true, false), io, wk, free, WkClaim);
      WkGo(c, s0, Waiting(n, false, false), io, wk, free, WkResume);
      assert wk[free := WkIdle] == Workers(threads, free + 1);
      Overfill(c, s0, n, io, Workers(threads, free + 1), 0);
      SpendWorkers(c, s0, n + c.batch, io, threads, free + 1);
      Distribute(c.batch, threads - free - 1, 1);
    }
  }

  lemma StartsWaiting(c: Config, s0: State)
    requires Initial(s0)
    ensures Reaches(c, s0, Waiting(0, false, true), Completers(|s0.io|, |s0.io|), Workers(|s0.wk|, |s0.wk|))
  {
    assert s0.io == Completers(|s0.io|, |s0.io|);
    assert s0.wk == Workers(|s0.wk|, |s0.wk|);
    assert Shows(After(c, s0, []), Waiting(0, false, true), s0.io, s0.wk);
  }

  // From the first receive of a lease, with any number of threads on either side.
  lemma DeepestState(c: Config, s0: State)
    requires Pausing(c) && c.batch > 0 && Initial(s0) && |s0.io| > 0 && |s0.wk| > 0
    ensures Reaches(c, s0, Waiting(Deepest(c, |s0.io|, |s0.wk|), true, false),
                    Completers(|s0.io|, |s0.io|), Workers(|s0.wk|, |s0.wk|))
  {
    hide Reaches, Initial, Waiting;
    var k, w := |s0.io|, |s0.wk|;
    var n := c.pause - 1 + c.batch;
    StartsWaiting(c, s0);
    ParkCompleters(c, s0, k, k, Workers(w, w));
    ParkWorkers(c, s0, Completers(k, 1), w, w);
    FillBelowPause(c, s0, 0, Completers(k, 1), Workers(w, 0), 0);
    Overfill(c, s0, c.pause - 1, Completers(k, 1), Workers(w, 0), 0);
    SpendCompleters(c, s0, n, k, 1, Workers(w, 0));
    SpendWorkers(c, s0, n + c.batch * (k - 1), Completers(k, k), w, 0);
    Distribute(c.batch, k - 1, 1);
    Distribute(c.batch, k, w);
  }

  lemma DeepestIsReached(c: Config, s0: State) returns (schedule: seq<Action>)
    requires Pausing(c) && c.batch > 0 && Initial(s0) && |s0.io| > 0 && |s0.wk| > 0
    ensures Runs(c, s0, schedule) && |After(c, s0, schedule).m.jobs| == Deepest(c, |s0.io|, |s0.wk|)
  {
    hide Initial, Runs, After, Deepest;
    DeepestState(c, s0);
    var k, w, n := |s0.io|, |s0.wk|, Deepest(c, |s0.io|, |s0.wk|);
    schedule :| Runs(c, s0, schedule)
      && Shows(After(c, s0, schedule), Waiting(n, true, false), Completers(k, k), Workers(w, w));
  }

  // Counting one resume for each worker besides the handler's own batch is right exactly when a
  // single completion thread serves the sessions.
  ghost predicate WorkersAloneBound(c: Config, s0: State)
  {
    forall schedule :: Runs(c, s0, schedule) ==>
      |After(c, s0, schedule).m.jobs| <= c.pause - 1 + (|s0.wk| + 1) * c.batch
  }

  lemma WorkersAloneBoundIff(c: Config, s0: State)
    requires Pausing(c) && c.batch > 0 && Initial(s0) && |s0.io| > 0 && |s0.wk| > 0
    ensures WorkersAloneBound(c, s0) <==> |s0.io| == 1
  {
    hide Initial, Runs, After;
    if |s0.io| == 1 {
      forall schedule | Runs(c, s0, schedule)
        ensures |After(c, s0, schedule).m.jobs| <= c.pause - 1 + (|s0.wk| + 1) * c.batch
      {
        BacklogIsBounded(c, s0, schedule);
      }
    } else {
      var schedule := DeepestIsReached(c, s0);
      Distribute(c.batch, |s0.wk| + 1, |s0.io| - 1);
      assert c.batch * (|s0.io| - 1) >= c.batch * 1;
    }
  }
}
