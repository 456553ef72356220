/**
 How deep a session's job queue can get.  A thread that read a depth at or below the resume level and
 has not yet exchanged m_recvPaused may resume the session once more, however deep the queue is by
 then: every completion thread and every worker can hold one such stale read.
 */
module BackpressureBound {
  import opened Tally
  import opened BackpressureProtocol
  import opened BackpressureInvariants

  function IoStale(pc: IoPc): nat { One(pc.IoClaim?) }
  function WkStale(pc: WkPc): nat { One(pc.WkClaim?) }

  // Packets a completion thread may still enqueue before it next reads the depth.
  function IoCarries(c: Config, pc: IoPc): nat
  {
    match pc
    case Parse(left) => left
    case Schedule(left) => left
    case Announce(left) => left
    case Withdraw(left) => left
    case Post => c.batch
    case IoResume => c.batch
    case _ => 0
  }

  function WkCarries(c: Config, pc: WkPc): nat { if pc.WkResume? then c.batch else 0 }

  function Stale(io: seq<IoPc>, wk: seq<WkPc>): nat { Total(io, IoStale) + Total(wk, WkStale) }

  function Carried(c: Config, m: Shared, io: seq<IoPc>, wk: seq<WkPc>): nat
  {
    (if m.posted then c.batch else 0) + Total(io, (pc: IoPc) => IoCarries(c, pc)) + Total(wk, (pc: WkPc) => WkCarries(c, pc))
  }

  // The levels that pause a session at all.
  predicate Pausing(c: Config) { c.resume < c.pause }

  // All threads stale: the last of them to look saw a drained queue.  Otherwise every stale read is
  // worth one more batch on top of what is in the queue or on its way to it.
  ghost predicate Bounded(c: Config, jobs: nat, carried: nat, stale: nat, threads: nat)
  {
    && carried <= c.batch && stale <= threads
    && (stale == threads ==> jobs <= c.resume)
    && (stale < threads ==> jobs + carried + c.batch * stale <= c.pause - 1 + c.batch * threads)
  }

  ghost predicate DepthBounded(c: Config, s: State)
  {
    Bounded(c, |s.m.jobs|, Carried(c, s.m, s.io, s.wk), Stale(s.io, s.wk), |s.io| + |s.wk|)
  }

  // A thread has at most batch packets on its way, and none unless it has the right to receive.
  ghost predicate SmallLoads(c: Config, s: State)
  {
    forall t :: 0 <= t < |s.io| ==> IoCarries(c, s.io[t]) <= c.batch
  }

  lemma IoLoadMoves(c: Config, m: Shared, io: seq<IoPc>, wk: seq<WkPc>, t: nat, pc: IoPc)
    requires t < |io|
    ensures Stale(io[t := pc], wk) + IoStale(io[t]) == Stale(io, wk) + IoStale(pc)
    ensures Carried(c, m, io[t := pc], wk) + IoCarries(c, io[t]) == Carried(c, m, io, wk) + IoCarries(c, pc)
    ensures Stale(io, wk) <= |io| + |wk| && Stale(io[t := pc], wk) <= |io| + |wk|
    ensures IoStale(io[t]) == 0 ==> Stale(io, wk) < |io| + |wk|
    ensures IoStale(pc) == 0 ==> Stale(io[t := pc], wk) < |io| + |wk|
  {
    var w := (p: IoPc) => IoCarries(c, p);
    Update(io, t, pc, IoStale);
    Update(io, t, pc, w);
    AtMost(io, IoStale, 1);
    AtMost(wk, WkStale, 1);
    AtMost(io[t := pc], IoStale, 1);
    if IoStale(io[t]) == 0 { OneShort(io, IoStale, t); }
    if IoStale(pc) == 0 { OneShort(io[t := pc], IoStale, t); }
  }

  lemma WkLoadMoves(c: Config, m: Shared, io: seq<IoPc>, wk: seq<WkPc>, t: nat, pc: WkPc)
    requires t < |wk|
    ensures Stale(io, wk[t := pc]) + WkStale(wk[t]) == Stale(io, wk) + WkStale(pc)
    ensures Carried(c, m, io, wk[t := pc]) + WkCarries(c, wk[t]) == Carried(c, m, io, wk) + WkCarries(c, pc)
    ensures Stale(io, wk) <= |io| + |wk| && Stale(io, wk[t := pc]) <= |io| + |wk|
    ensures WkStale(wk[t]) == 0 ==> Stale(io, wk) < |io| + |wk|
    ensures WkStale(pc) == 0 ==> Stale(io, wk[t := pc]) < |io| + |wk|
  {
    var w := (p: WkPc) => WkCarries(c, p);
    Update(wk, t, pc, WkStale);
    Update(wk, t, pc, w);
    AtMost(io, IoStale, 1);
    AtMost(wk, WkStale, 1);
    AtMost(wk[t := pc], WkStale, 1);
    if WkStale(wk[t]) == 0 { OneShort(wk, WkStale, t); }
    if WkStale(pc) == 0 { OneShort(wk[t := pc], WkStale, t); }
  }

  // Loads follow the right to receive, so together they never exceed one batch.
  lemma {:induction false} IoLoads(c: Config, io: seq<IoPc>)
    requires forall t :: 0 <= t < |io| ==> IoCarries(c, io[t]) <= c.batch
    ensures Total(io, (pc: IoPc) => IoCarries(c, pc)) <= c.batch * Total(io, IoReceives)
  {
    var w := (pc: IoPc) => IoCarries(c, pc);
    if io != [] {
      var last := io[|io| - 1];
      IoLoads(c, io[..|io| - 1]);
      assert w(last) <= c.batch * IoReceives(last) by {
        assert io[|io| - 1] == last;
      }
      Distribute(c.batch, Total(io[..|io| - 1], IoReceives), IoReceives(last));
    }
  }

  lemma {:induction false} WkLoads(c: Config, wk: seq<WkPc>)
    ensures Total(wk, (pc: WkPc) => WkCarries(c, pc)) == c.batch * Total(wk, WkReceives)
  {
    if wk != [] {
      var last := wk[|wk| - 1];
      WkLoads(c, wk[..|wk| - 1]);
      Distribute(c.batch, Total(wk[..|wk| - 1], WkReceives), WkReceives(last));
    }
  }

  lemma Distribute(b: nat, x: nat, y: nat)
    ensures b * (x + y) == b * x + b * y
  {
  }

  lemma LoadIsOneBatch(c: Config, s: State)
    requires Serial(s) && SmallLoads(c, s)
    ensures Carried(c, s.m, s.io, s.wk) <= c.batch
  {
    var x, y := Total(s.io, IoReceives), Total(s.wk, WkReceives);
    IoLoads(c, s.io);
    WkLoads(c, s.wk);
    Distribute(c.batch, x, y);
    Distribute(c.batch, One(s.m.posted), x + y);
    assert c.batch * (One(s.m.posted) + (x + y)) <= c.batch by {
      assert One(s.m.posted) + (x + y) <= 1;
    }
  }

  // The four ways a step can change the sums; g is the change in stale reads.
  lemma BoundStep(c: Config, jobs: nat, carried: nat, stale: nat, jobs': nat, carried': nat, stale': nat, threads: nat)
    requires Pausing(c) && Bounded(c, jobs, carried, stale, threads) && carried' <= c.batch && stale' <= threads
    requires
      || (stale' == stale && stale < threads && jobs' + carried' <= jobs + carried)
      || (stale' == stale && stale < threads && jobs' < c.pause)
      || (stale' == stale + 1 && jobs' <= c.resume)
      || (stale == stale' + 1 && jobs' == jobs && carried' == carried)
      || (stale == stale' + 1 && jobs' == jobs && carried' == carried + c.batch)
    ensures Bounded(c, jobs', carried', stale', threads)
  {
    if stale' < threads {
      assert c.batch * stale' + c.batch <= c.batch * threads by {
        Distribute(c.batch, stale', threads - stale');
        assert c.batch * (threads - stale') >= c.batch * 1;
      }
      if stale == stale' + 1 {
        Distribute(c.batch, stale', 1);
      }
    }
  }

  lemma IoKeepsBound(c: Config, s: State, t: nat, full: bool)
    requires Pausing(c) && Serial(s) && SmallLoads(c, s) && DepthBounded(c, s) && Enabled(c, s, Io(t, full))
    ensures SmallLoads(c, Next(c, s, Io(t, full))) && DepthBounded(c, Next(c, s, Io(t, full)))
  {
    hide Serial, Stale, Carried, Bounded;
    var r := Next(c, s, Io(t, full));
    IoLoadMoves(c, s.m, s.io, s.wk, t, r.io[t]);
    assert SmallLoads(c, r);
    IoNextIsSerial(c, s, t, full);
    LoadIsOneBatch(c, r);
    PostedLoad(c, s.m, r.m, r.io, r.wk);
    BoundStep(c, |s.m.jobs|, Carried(c, s.m, s.io, s.wk), Stale(s.io, s.wk),
              |r.m.jobs|, Carried(c, r.m, r.io, r.wk), Stale(r.io, r.wk), |s.io| + |s.wk|);
  }

  // A posted receive stands for one batch.
  lemma PostedLoad(c: Config, m: Shared, m': Shared, io: seq<IoPc>, wk: seq<WkPc>)
    ensures Carried(c, m', io, wk) + c.batch * One(m.posted) == Carried(c, m, io, wk) + c.batch * One(m'.posted)
  {
  }

  lemma WkKeepsBound(c: Config, s: State, t: nat, full: bool)
    requires Pausing(c) && Serial(s) && SmallLoads(c, s) && DepthBounded(c, s) && Enabled(c, s, Wk(t, full))
    ensures SmallLoads(c, Next(c, s, Wk(t, full))) && DepthBounded(c, Next(c, s, Wk(t, full)))
  {
    hide Serial, Stale, Carried, Bounded;
    var r := Next(c, s, Wk(t, full));
    WkLoadMoves(c, s.m, s.io, s.wk, t, r.wk[t]);
    assert SmallLoads(c, r);
    WkNextIsSerial(c, s, t, full);
    LoadIsOneBatch(c, r);
    PostedLoad(c, s.m, r.m, r.io, r.wk);
    BoundStep(c, |s.m.jobs|, Carried(c, s.m, s.io, s.wk), Stale(s.io, s.wk),
              |r.m.jobs|, Carried(c, r.m, r.io, r.wk), Stale(r.io, r.wk), |s.io| + |s.wk|);
  }

  lemma ParseKeepsBound(c: Config, s: State, a: Action)
    requires Pausing(c) && Serial(s) && SmallLoads(c, s) && DepthBounded(c, s) && Enabled(c, s, a)
    requires a.Complete? || a.Submit? || a.StopParsing?
    ensures SmallLoads(c, Next(c, s, a)) && DepthBounded(c, Next(c, s, a))
  {
    hide Serial, Stale, Carried, Bounded;
    var r := Next(c, s, a);
    IoLoadMoves(c, s.m, s.io, s.wk, a.t, r.io[a.t]);
    assert SmallLoads(c, r);
    NextIsSerial(c, s, a);
    LoadIsOneBatch(c, r);
    PostedLoad(c, s.m, r.m, r.io, r.wk);
    BoundStep(c, |s.m.jobs|, Carried(c, s.m, s.io, s.wk), Stale(s.io, s.wk),
              |r.m.jobs|, Carried(c, r.m, r.io, r.wk), Stale(r.io, r.wk), |s.io| + |s.wk|);
  }

  lemma PopKeepsBound(c: Config, s: State, t: nat)
    requires Pausing(c) && Serial(s) && SmallLoads(c, s) && DepthBounded(c, s) && Enabled(c, s, Pop(t))
    ensures SmallLoads(c, Next(c, s, Pop(t))) && DepthBounded(c, Next(c, s, Pop(t)))
  {
    hide Serial;
    WkLoadMoves(c, s.m, s.io, s.wk, t, Drain);
  }

  lemma NextKeepsBound(c: Config, s: State, a: Action)
    requires Pausing(c) && Serial(s) && SmallLoads(c, s) && DepthBounded(c, s) && Enabled(c, s, a)
    ensures SmallLoads(c, Next(c, s, a)) && DepthBounded(c, Next(c, s, a))
  {
    hide Serial, SmallLoads, DepthBounded, Next;
    match a {
      case Io(t, full) => IoKeepsBound(c, s, t, full);
      case Wk(t, full) => WkKeepsBound(c, s, t, full);
      case Pop(t) => PopKeepsBound(c, s, t);
      case Complete(_) => ParseKeepsBound(c, s, a);
      case Submit(_, _) => ParseKeepsBound(c, s, a);
      case StopParsing(_) => ParseKeepsBound(c, s, a);
    }
  }

  lemma {:induction false} RunKeepsBound(c: Config, s: State, schedule: seq<Action>)
    requires Pausing(c) && Serial(s) && SmallLoads(c, s) && DepthBounded(c, s) && Runs(c, s, schedule)
    ensures DepthBounded(c, After(c, s, schedule))
    ensures |After(c, s, schedule).io| == |s.io| && |After(c, s, schedule).wk| == |s.wk|
    decreases |schedule|
  {
    if schedule != [] {
      hide Serial, SmallLoads, DepthBounded;
      NextIsSerial(c, s, schedule[0]);
      NextKeepsBound(c, s, schedule[0]);
      RunKeepsBound(c, Next(c, s, schedule[0]), schedule[1..]);
    }
  }

  lemma InitialIsBounded(c: Config, s: State)
    requires Pausing(c) && Initial(s) && |s.io| > 0
    ensures SmallLoads(c, s) && DepthBounded(c, s)
  {
    Zero(s.io, IoStale);
    Zero(s.wk, WkStale);
    Zero(s.io, (pc: IoPc) => IoCarries(c, pc));
    Zero(s.wk, (pc: WkPc) => WkCarries(c, pc));
    assert c.batch * (|s.io| + |s.wk|) >= c.batch * 1;
  }

  // The deepest the queue can get with the given threads.
  function Deepest(c: Config, completers: nat, workers: nat): int
  {
    c.pause - 1 + c.batch * (completers + workers)
  }

  lemma WithinDeepest(c: Config, s: State)
    requires Pausing(c) && DepthBounded(c, s)
    ensures |s.m.jobs| <= Deepest(c, |s.io|, |s.wk|)
  {
    hide Carried, Stale;
    assert c.batch * (|s.io| + |s.wk|) >= 0;
    assert c.batch * Stale(s.io, s.wk) >= 0;
  }

  // The backlog bound.  With one completion thread it is pause - 1 + (workers + 1) * batch.
  lemma BacklogIsBounded(c: Config, s0: State, schedule: seq<Action>)
    requires Pausing(c) && Initial(s0) && |s0.io| > 0 && Runs(c, s0, schedule)
    ensures |After(c, s0, schedule).m.jobs| <= Deepest(c, |s0.io|, |s0.wk|)
  {
    hide Serial, SmallLoads, Carried, Stale, Initial, Runs, After;
    InitialIsSerial(c, s0);
    InitialIsBounded(c, s0);
    RunKeepsBound(c, s0, schedule);
    WithinDeepest(c, After(c, s0, schedule));
  }
}
