/**
 All sessions of the server over one ready queue.  A push answers "full" exactly when the queue
 holds as many entries as it has room for, which is one per session.
 */
module SchedulerProtocol {
  import opened Tally
  import opened BackpressureProtocol
  import opened BackpressureInvariants

  datatype Server = Server(sessions: seq<State>, ready: seq<nat>)

  predicate Pushes(s: State, a: Action)
  {
    match a
    case Io(t, _) => t < |s.io| && s.io[t].Announce?
    case Wk(t, _) => t < |s.wk| && s.wk[t].Requeue?
    case _ => false
  }

  predicate Full(v: Server)
  {
    |v.ready| >= |v.sessions|
  }

  predicate ServerEnabled(c: Config, v: Server, id: nat, a: Action)
  {
    && id < |v.sessions| && Enabled(c, v.sessions[id], a)
    && (Pushes(v.sessions[id], a) ==> ((a.Io? ==> a.full == Full(v)) && (a.Wk? ==> a.full == Full(v))))
    && (a.Pop? ==> v.ready != [] && v.ready[0] == id)
  }

  function ServerNext(c: Config, v: Server, id: nat, a: Action): Server
    requires ServerEnabled(c, v, id, a)
  {
    var s := v.sessions[id];
    Server(v.sessions[id := Next(c, s, a)],
           if a.Pop? then v.ready[1..] else if Pushes(s, a) && !Full(v) then v.ready + [id] else v.ready)
  }

  // The queue holds each scheduled session once, and its count of scheduled sessions is each one's own.
  ghost predicate QueueIsScheduled(v: Server)
  {
    && Distinct(v.ready)
    && (forall i :: 0 <= i < |v.ready| ==> v.ready[i] < |v.sessions|)
    && (forall id :: 0 <= id < |v.sessions| ==> v.sessions[id].m.ready == One(id in v.ready))
  }

  ghost predicate ServerKept(c: Config, v: Server)
  {
    && QueueIsScheduled(v)
    && forall id :: 0 <= id < |v.sessions| ==> Serial(v.sessions[id]) && Lively(c, v.sessions[id])
  }

  // A list of distinct ids below n that misses one of them is shorter than n.
  lemma {:induction false} Pigeonhole(ids: seq<nat>, n: nat, missing: nat)
    requires Distinct(ids) && missing < n && missing !in ids
    requires forall i :: 0 <= i < |ids| ==> ids[i] < n
    ensures |ids| < n
  {
    if ids != [] {
      var top := n - 1;
      if top in ids {
        var k :| 0 <= k < |ids| && ids[k] == top;
        var rest := ids[..k] + ids[k + 1..];
        forall i | 0 <= i < |rest|
          ensures rest[i] < top
        {
          assert rest[i] == if i < k then ids[i] else ids[i + 1];
        }
        Pigeonhole(rest, top, missing);
      } else if missing == top {
        // every id is below the missing top one
        PigeonholeExact(ids, top);
      } else {
        Pigeonhole(ids, top, missing);
      }
    }
  }

  lemma {:induction false} PigeonholeExact(ids: seq<nat>, n: nat)
    requires Distinct(ids) && forall i :: 0 <= i < |ids| ==> ids[i] < n
    ensures |ids| <= n
    decreases n
  {
    if ids != [] {
      assert ids[0] < n;
      if n - 1 in ids {
        var k :| 0 <= k < |ids| && ids[k] == n - 1;
        var rest := ids[..k] + ids[k + 1..];
        forall i | 0 <= i < |rest|
          ensures rest[i] < n - 1
        {
          assert rest[i] == if i < k then ids[i] else ids[i + 1];
        }
        PigeonholeExact(rest, n - 1);
      } else {
        PigeonholeExact(ids, n - 1);
      }
    }
  }

  // Whoever is about to push holds the session's turn, so the session is not in the queue.
  lemma PusherIsNotQueued(s: State, a: Action)
    requires Serial(s) && Pushes(s, a)
    ensures s.m.ready == 0
  {
    match a {
      case Io(t, _) => AtLeast(s.io, t, IoOwns);
      case Wk(t, _) => AtLeast(s.wk, t, WkOwns);
    }
  }

  // The ready queue never reports full, so both rollback branches are dead code.
  lemma ReadyQueueHasRoom(c: Config, v: Server, id: nat, a: Action)
    requires ServerKept(c, v) && ServerEnabled(c, v, id, a) && Pushes(v.sessions[id], a)
    ensures !Full(v) && !PushFails(v.sessions[id], a)
  {
    PusherIsNotQueued(v.sessions[id], a);
    Pigeonhole(v.ready, |v.sessions|, id);
  }

  lemma ReadyMoves(c: Config, s: State, a: Action)
    requires Enabled(c, s, a) && !PushFails(s, a)
    ensures Next(c, s, a).m.ready == s.m.ready + One(Pushes(s, a)) - One(a.Pop?)
  {
  }

  lemma ServerNextKeeps(c: Config, v: Server, id: nat, a: Action)
    requires ServerKept(c, v) && ServerEnabled(c, v, id, a)
    ensures ServerKept(c, ServerNext(c, v, id, a))
  {
    hide Next, Serial, Lively, Pushes, PushFails;
    var s := v.sessions[id];
    if Pushes(s, a) {
      PusherIsNotQueued(s, a);
      ReadyQueueHasRoom(c, v, id, a);
    } else {
      NotPushing(s, a);
    }
    ReadyMoves(c, s, a);
    NextIsSerial(c, s, a);
    QueueMoves(c, v, id, a);
  }

  lemma NotPushing(s: State, a: Action)
    requires !Pushes(s, a)
    ensures !PushFails(s, a)
  {
  }

  lemma QueueMoves(c: Config, v: Server, id: nat, a: Action)
    requires QueueIsScheduled(v) && ServerEnabled(c, v, id, a)
    requires Pushes(v.sessions[id], a) ==> v.sessions[id].m.ready == 0 && !Full(v) && !a.Pop?
    requires Next(c, v.sessions[id], a).m.ready == v.sessions[id].m.ready + One(Pushes(v.sessions[id], a)) - One(a.Pop?)
    ensures QueueIsScheduled(ServerNext(c, v, id, a))
  {
    hide Next, Pushes, Full;
    var r := ServerNext(c, v, id, a);
    if a.Pop? {
      assert v.ready == [id] + r.ready;
      assert id !in r.ready;
    }
    forall k | 0 <= k < |r.sessions|
      ensures r.sessions[k].m.ready == One(k in r.ready)
    {
      if k != id {
        assert r.sessions[k] == v.sessions[k];
        assert k in r.ready <==> k in v.ready;
      }
    }
  }

  ghost predicate ServerRuns(c: Config, v: Server, schedule: seq<(nat, Action)>)
    decreases |schedule|
  {
    schedule == [] ||
    (ServerEnabled(c, v, schedule[0].0, schedule[0].1)
     && ServerRuns(c, ServerNext(c, v, schedule[0].0, schedule[0].1), schedule[1..]))
  }

  ghost function ServerAfter(c: Config, v: Server, schedule: seq<(nat, Action)>): Server
    requires ServerRuns(c, v, schedule)
    decreases |schedule|
  {
    if schedule == [] then v else ServerAfter(c, ServerNext(c, v, schedule[0].0, schedule[0].1), schedule[1..])
  }

  ghost predicate ServerInitial(v: Server)
  {
    v.ready == [] && forall id :: 0 <= id < |v.sessions| ==> Initial(v.sessions[id])
  }

  lemma {:induction false} ServerRunKeeps(c: Config, v: Server, schedule: seq<(nat, Action)>)
    requires ServerKept(c, v) && ServerRuns(c, v, schedule)
    ensures ServerKept(c, ServerAfter(c, v, schedule))
    decreases |schedule|
  {
    hide ServerKept, ServerNext, ServerEnabled;
    if schedule != [] {
      ServerNextKeeps(c, v, schedule[0].0, schedule[0].1);
      ServerRunKeeps(c, ServerNext(c, v, schedule[0].0, schedule[0].1), schedule[1..]);
    }
  }

  // Over every interleaving of all sessions: no session is queued twice, no push fails, and a server
  // whose queue and threads are at rest has run every job of every session and receives on all of them.
  lemma ServerNeverStrands(c: Config, v0: Server, schedule: seq<(nat, Action)>)
    requires ServerInitial(v0) && ServerRuns(c, v0, schedule)
    ensures var v := ServerAfter(c, v0, schedule);
            && Distinct(v.ready) && |v.ready| <= |v.sessions|
            && (forall id: nat, a: Action :: ServerEnabled(c, v, id, a) && Pushes(v.sessions[id], a) ==> !Full(v))
            && (forall id :: 0 <= id < |v.sessions| && Quiescent(v.sessions[id]) ==>
                  v.sessions[id].m == Shared([], false, 0, false, true)
                  && v.sessions[id].log.executed == v.sessions[id].log.submitted)
  {
    forall id | 0 <= id < |v0.sessions|
      ensures Serial(v0.sessions[id]) && Lively(c, v0.sessions[id]) && v0.sessions[id].m.ready == 0
    {
      InitialIsSerial(c, v0.sessions[id]);
    }
    ServerRunKeeps(c, v0, schedule);
    var v := ServerAfter(c, v0, schedule);
    PigeonholeExact(v.ready, |v.sessions|);
    forall id: nat, a: Action | ServerEnabled(c, v, id, a) && Pushes(v.sessions[id], a)
      ensures !Full(v)
    {
      ReadyQueueHasRoom(c, v, id, a);
    }
    forall id | 0 <= id < |v.sessions| && Quiescent(v.sessions[id])
      ensures v.sessions[id].m == Shared([], false, 0, false, true)
      ensures v.sessions[id].log.executed == v.sessions[id].log.submitted
    {
      QuietMeansDone(c, v.sessions[id]);
    }
  }
}
