/**
 The receive handler and the job worker as the code runs them, statement by statement, between the
 steps of all other threads; each statement is a step of the receive and job path protocol.
 */
module ReceiveCode {
  import opened Tally
  import opened BackpressureProtocol
  import opened BackpressureInvariants

  class ClientSession {
    const config: Config
    // the job queue and its two flags, the session's entries in the ready queue, the posted receive
    var jobs: seq<Job>
    var processing: bool
    var ready: nat
    var recvPaused: bool
    var posted: bool
    var completers: seq<IoPc>
    var workers: seq<WkPc>
    var log: Log
    ghost var origin: State
    ghost var schedule: seq<Action>

    function Fields(): Shared
      reads this
    {
      Shared(jobs, processing, ready, recvPaused, posted)
    }

    function Here(): State
      reads this
    {
      State(Fields(), completers, workers, log)
    }

    ghost predicate Valid()
      reads this
    {
      Initial(origin) && Runs(config, origin, schedule) && After(config, origin, schedule) == Here()
    }

    twostate predicate GoesOn()
      reads this
    {
      && origin == old(origin) && |completers| == |old(completers)| && |workers| == |old(workers)| && old(schedule) <= schedule
      && old(log.submitted) <= log.submitted && old(log.executed) <= log.executed
    }

    // The operation's own first step comes first.
    twostate predicate Begins(a: Action)
      reads this
    {
      |old(schedule)| < |schedule| && schedule[|old(schedule)|] == a
    }

    // The session has just connected: its first receive is posted.
    constructor (config: Config, completerCount: nat, workerCount: nat)
      ensures Valid() && this.config == config && |completers| == completerCount && |workers| == workerCount
    {
      this.config := config;
      jobs, processing, ready, recvPaused, posted := [], false, 0, false, true;
      completers, workers, log := seq(completerCount, _ => IoIdle), seq(workerCount, _ => WkIdle), Log([], []);
      new;
      origin, schedule := Here(), [];
    }

    method Load(s: State)
      modifies this
      ensures Here() == s && origin == old(origin) && schedule == old(schedule)
    {
      jobs, processing, ready, recvPaused, posted := s.m.jobs, s.m.processing, s.m.ready, s.m.paused, s.m.posted;
      completers, workers, log := s.io, s.wk, s.log;
    }

    // The step the statement just executed was: the shared fields have changed already, the thread moves on.
    method Moved(a: Action, before: State)
      requires Initial(origin) && Runs(config, origin, schedule) && After(config, origin, schedule) == before
      requires Enabled(config, before, a) && !PushFails(before, a) && Fields() == Next(config, before, a).m
      requires completers == before.io && workers == before.wk && log == before.log
      modifies this`completers, this`workers, this`log, this`schedule
      ensures Valid() && GoesOn() && completers == Next(config, before, a).io && workers == Next(config, before, a).wk
      ensures log == Next(config, before, a).log && schedule == old(schedule) + [a]
    {
      hide Runs, After, Next, Initial;
      SameCounts(config, before, a);
      var s := Next(config, before, a);
      completers, workers, log := s.io, s.wk, s.log;
      RunsExtend(config, origin, schedule, a);
      schedule := schedule + [a];
    }

    static lemma SameCounts(c: Config, s: State, a: Action)
      requires Enabled(c, s, a)
      ensures |Next(c, s, a).io| == |s.io| && |Next(c, s, a).wk| == |s.wk|
      ensures s.log.submitted <= Next(c, s, a).log.submitted && s.log.executed <= Next(c, s, a).log.executed
    {
    }

    // Whoever else may act on the session does: completers but `me`, or workers but `me`.
    static predicate ByOther(a: Action, io: bool, me: nat)
    {
      match a
      case Pop(t) => io || t != me
      case Wk(t, _) => io || t != me
      case _ => !io || a.t != me
    }

    method Others(io: bool, me: nat)
      requires Valid()
      modifies this
      ensures Valid() && GoesOn()
      ensures io && me < |completers| ==> completers[me] == old(completers)[me]
      ensures !io && me < |workers| ==> workers[me] == old(workers)[me]
      // only the holder of the right to receive submits
      ensures io && me < |completers| && IoReceives(completers[me]) == 1 ==> log.submitted == old(log.submitted)
    {
      hide Runs, After, Next, Enabled, Initial, ByOther, PushFails, Serial, Lively;
      var steps: nat := *;
      while steps > 0
        invariant Valid() && GoesOn()
        invariant io && me < |completers| ==> completers[me] == old(completers)[me]
        invariant io && me < |completers| && IoReceives(completers[me]) == 1 ==> log.submitted == old(log.submitted)
        invariant !io && me < |workers| ==> workers[me] == old(workers)[me]
      {
        var a: Action := *;
        if ByOther(a, io, me) && Enabled(config, Here(), a) && !PushFails(Here(), a) {
          OnlyItsRow(config, Here(), a, io, me);
          SameCounts(config, Here(), a);
          if io && me < |completers| && IoReceives(completers[me]) == 1 {
            Sound();
            HolderSubmitsAlone(config, Here(), a, me);
          }
          RunsExtend(config, origin, schedule, a);
          Load(Next(config, Here(), a));
          schedule := schedule + [a];
        }
        steps := steps - 1;
      }
    }

    static lemma OnlyItsRow(c: Config, s: State, a: Action, io: bool, me: nat)
      requires Enabled(c, s, a) && ByOther(a, io, me)
      ensures io && me < |s.io| ==> |Next(c, s, a).io| == |s.io| && Next(c, s, a).io[me] == s.io[me]
      ensures !io && me < |s.wk| ==> |Next(c, s, a).wk| == |s.wk| && Next(c, s, a).wk[me] == s.wk[me]
    {
    }

    static lemma HolderSubmitsAlone(c: Config, s: State, a: Action, me: nat)
      requires Serial(s) && Enabled(c, s, a) && ByOther(a, true, me) && me < |s.io| && IoReceives(s.io[me]) == 1
      ensures Next(c, s, a).log.submitted == s.log.submitted
    {
      if a.Submit? {
        if a.t < me { AtLeastTwo(s.io, a.t, me, IoReceives); } else { AtLeastTwo(s.io, me, a.t, IoReceives); }
      }
    }

    // What the theorems say here: jobs run in order, one turn and one right to receive, nobody stranded.
    lemma Sound()
      requires Valid()
      ensures Serial(Here()) && Lively(config, Here())
    {
      InitialIsSerial(config, origin);
      RunIsSerial(config, origin, schedule);
    }

    // --- The receive handler ---------------------------------------------------------------------

    // SubmitPacketJob for one parsed packet; the ready queue has room for every session.
    method SubmitPacketJob(me: nat, job: Job)
      requires Valid() && me < |completers| && completers[me].Parse? && completers[me].left > 0
      modifies this
      ensures Valid() && GoesOn() && completers[me] == Parse(old(completers)[me].left - 1)
      ensures log.submitted == old(log.submitted) + [job]
    {
      hide Runs, After, Initial;
      var before := Here();
      jobs := jobs + [job];                       // EnqueueJob
      Moved(Submit(me, job), before);
      Others(true, me);
      MakeReady(me);
    }

    method MakeReady(me: nat)
      requires Valid() && me < |completers| && completers[me].Schedule?
      modifies this
      ensures Valid() && GoesOn() && completers[me] == Parse(old(completers)[me].left)
      ensures log.submitted == old(log.submitted)
    {
      hide Runs, After, Initial;
      var before := Here();
      var mine := !processing;                    // IsProcessingReady
      processing := true;
      Moved(Io(me, false), before);
      if !mine {
        return;
      }
      Others(true, me);
      before := Here();
      ready := ready + 1;                         // ReadySessionQueue::Push
      Moved(Io(me, false), before);
    }

    // PostReceiveOrPause, once parsing is over.
    method PostReceiveOrPause(me: nat)
      requires Valid() && me < |completers| && completers[me].ReadDepth?
      modifies this
      ensures Valid() && GoesOn() && completers[me] == IoIdle
    {
      hide Runs, After, Initial;
      var before := Here();
      var depth := |jobs|;
      Moved(Io(me, false), before);
      Others(true, me);
      before := Here();
      if config.pause == 0 || depth < config.pause {
        posted := true;                           // WSARecv
        Moved(Io(me, false), before);
        return;
      }
      recvPaused := true;
      Moved(Io(me, false), before);
      RecheckAndResume(me);
    }

    // The depth is read again after the mark; a queue that has drained meanwhile is resumed here.
    method RecheckAndResume(me: nat)
      requires Valid() && me < |completers| && completers[me].RecheckDepth?
      modifies this
      ensures Valid() && GoesOn() && completers[me] == IoIdle
    {
      hide Runs, After, Initial;
      Others(true, me);
      var before := Here();
      var depthAfterMark := |jobs|;
      Moved(Io(me, false), before);
      if depthAfterMark > config.resume {
        return;
      }
      ResumeOwn(me);
    }

    method ResumeOwn(me: nat)
      requires Valid() && me < |completers| && completers[me].IoClaim?
      modifies this
      ensures Valid() && GoesOn() && completers[me] == IoIdle
    {
      hide Runs, After, Initial;
      Others(true, me);
      var before := Here();
      var won := recvPaused;                      // ResumeReceive: the 1 -> 0 exchange
      recvPaused := false;
      Moved(Io(me, false), before);
      if !won {
        return;
      }
      Others(true, me);
      before := Here();
      posted := true;
      Moved(Io(me, false), before);
    }

    // HandleRecv for one completion whose bytes held these packets: they are the next jobs submitted,
    // in order and with none in between.
    method HandleRecv(me: nat, packets: seq<Job>)
      requires Valid() && me < |completers| && completers[me].IoIdle? && posted && |packets| <= config.batch
      modifies this
      ensures Valid() && GoesOn() && Begins(Complete(me)) && completers[me] == IoIdle
      ensures old(log.submitted) + packets <= log.submitted
    {
      hide Runs, After, Initial;
      var before := Here();
      posted := false;                            // the completion packet is dequeued
      Moved(Complete(me), before);
      SubmitAll(me, packets);
      Others(true, me);
      before := Here();
      Moved(StopParsing(me), before);
      Others(true, me);
      PostReceiveOrPause(me);
    }

    method SubmitAll(me: nat, packets: seq<Job>)
      requires Valid() && me < |completers| && completers[me].Parse? && |packets| <= completers[me].left
      modifies this
      ensures Valid() && GoesOn() && completers[me] == Parse(old(completers)[me].left - |packets|)
      ensures log.submitted == old(log.submitted) + packets
    {
      hide Runs, After, Initial;
      var i := 0;
      while i < |packets|
        invariant 0 <= i <= |packets| && Valid() && GoesOn() && completers[me] == Parse(old(completers)[me].left - i)
        invariant log.submitted == old(log.submitted) + packets[..i]
      {
        Others(true, me);
        SubmitPacketJob(me, packets[i]);
        i := i + 1;
      }
      assert packets[..i] == packets;
    }

    // --- The worker ----------------------------------------------------------------------------------

    // DequeueJob and Execute; false once the queue was seen empty.
    method RunOneJob(me: nat) returns (ran: bool)
      requires Valid() && me < |workers| && workers[me].Drain?
      modifies this
      ensures Valid() && GoesOn() && workers[me] == if ran then Drain else Clear
      ensures ran ==> |log.executed| > |old(log.executed)|
    {
      hide Runs, After, Initial;
      var before := Here();
      if jobs == [] {
        Moved(Wk(me, false), before);
        return false;
      }
      jobs := jobs[1..];
      Moved(Wk(me, false), before);
      Others(false, me);
      before := Here();
      Moved(Wk(me, false), before);
      return true;
    }

    // After the drain: give the turn up, look again, and take it back if a job slipped in.
    method GiveUpTurn(me: nat)
      requires Valid() && me < |workers| && workers[me].Clear?
      modifies this
      ensures Valid() && GoesOn() && workers[me] == Peek
    {
      hide Runs, After, Initial;
      var before := Here();
      processing := false;
      Moved(Wk(me, false), before);
      Others(false, me);
      before := Here();
      var empty := jobs == [];
      Moved(Wk(me, false), before);
      if empty {
        return;
      }
      RequeueIfMine(me);
    }

    method RequeueIfMine(me: nat)
      requires Valid() && me < |workers| && workers[me].Again?
      modifies this
      ensures Valid() && GoesOn() && workers[me] == Peek
    {
      hide Runs, After, Initial;
      Others(false, me);
      var before := Here();
      var mine := !processing;
      processing := true;
      Moved(Wk(me, false), before);
      if !mine {
        return;
      }
      Others(false, me);
      before := Here();
      ready := ready + 1;
      Moved(Wk(me, false), before);
    }

    method ResumeReceiveIfDrained(me: nat)
      requires Valid() && me < |workers| && workers[me].Peek?
      modifies this
      ensures Valid() && GoesOn() && workers[me] == WkIdle
    {
      hide Runs, After, Initial;
      var before := Here();
      var paused := recvPaused;
      Moved(Wk(me, false), before);
      if !paused {
        return;
      }
      Others(false, me);
      before := Here();
      var depth := |jobs|;
      Moved(Wk(me, false), before);
      if depth > config.resume {
        return;
      }
      var posts;
      ghost var claim, post;
      posts, claim, post := ResumeReceive(me);
    }

    // At step n of the run, worker me moves on from pc.
    ghost predicate MovesFrom(n: nat, me: nat, pc: WkPc)
      reads this
    {
      && n < |schedule| && schedule[n] == Wk(me, false) && Runs(config, origin, schedule[..n])
      && me < |After(config, origin, schedule[..n]).wk| && After(config, origin, schedule[..n]).wk[me] == pc
    }

    // posts: this worker posts the receive, which it does exactly when its exchange of m_recvPaused, the
    // step it takes at claim, finds the session paused; then it posts at a later step of its own.
    method ResumeReceive(me: nat) returns (posts: bool, ghost claim: nat, ghost post: nat)
      requires Valid() && me < |workers| && workers[me].WkClaim?
      modifies this
      ensures Valid() && GoesOn() && workers[me] == WkIdle
      ensures |old(schedule)| <= claim && MovesFrom(claim, me, WkClaim)
      ensures posts == After(config, origin, schedule[..claim]).m.paused
      ensures posts ==> claim < post && MovesFrom(post, me, WkResume)
    {
      hide Runs, After, Initial;
      Others(false, me);
      var before := Here();
      claim, post := |schedule|, 0;
      posts := recvPaused;
      recvPaused := false;
      assert schedule[..claim] == schedule;
      ghost var upTo := schedule;
      Moved(Wk(me, false), before);
      assert schedule[..claim] == upTo;
      if !posts {
        return;
      }
      Others(false, me);
      before := Here();
      post := |schedule|;
      posted := true;
      ghost var upToPost := schedule;
      Moved(Wk(me, false), before);
      assert schedule[..post] == upToPost && schedule[..claim] == upTo;
    }

    // One turn of WorkerThreadLoop: pop the session, run jobs until the queue is seen empty, give the
    // turn up, resume.  Jobs may keep coming; limit is how many of them are followed here, and a turn
    // that is not done has run them all.
    method WorkerTurn(me: nat, limit: nat) returns (done: bool)
      requires Valid() && me < |workers| && workers[me].WkIdle? && ready > 0
      modifies this
      ensures Valid() && GoesOn() && Begins(Pop(me)) && workers[me] == if done then WkIdle else Drain
      ensures !done ==> |log.executed| >= |old(log.executed)| + limit
    {
      hide Runs, After, Initial;
      var before := Here();
      ready := ready - 1;                         // ReadySessionQueue::Pop
      Moved(Pop(me), before);
      var ran, n := true, 0;
      while ran && n < limit
        invariant n <= limit && Valid() && GoesOn() && Begins(Pop(me)) && workers[me] == if ran then Drain else Clear
        invariant ran ==> |log.executed| >= |old(log.executed)| + n
        decreases limit - n, ran
      {
        Others(false, me);
        ran := RunOneJob(me);
        n := n + 1;
      }
      if ran {
        return false;
      }
      Others(false, me);
      GiveUpTurn(me);
      Others(false, me);
      ResumeReceiveIfDrained(me);
      return true;
    }
  }
}
