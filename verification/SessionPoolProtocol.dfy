/**
 The whole client session pool: every session runs its own protocol, and the free list under the
 pool lock changes only where one of them is leased or finished.
 */
module SessionPoolProtocol {
  import opened Tally
  import opened SessionProtocol
  import opened SessionAccounting

  datatype Pool = Pool(sessions: seq<State>, free: seq<nat>)

  predicate Leases(a: Action) { a.Start? && a.call.Acquire? }

  // The store that puts the node back on the list and makes it FREE, under one lock.
  predicate Frees(s: State, a: Action)
    requires Enabled(s, a)
  {
    a.Step? && s.threads[a.t].pc == Finish(FINISH_STAGES - 1)
  }

  predicate PoolEnabled(p: Pool, id: nat, a: Action)
  {
    id < |p.sessions| && Enabled(p.sessions[id], a) && (Leases(a) ==> p.free != [] && p.free[0] == id)
  }

  function PoolNext(p: Pool, id: nat, a: Action): Pool
    requires PoolEnabled(p, id, a)
  {
    var s := p.sessions[id];
    Pool(p.sessions[id := Next(s, a)],
         if Leases(a) then p.free[1..] else if Frees(s, a) then [id] + p.free else p.free)
  }

  // The list holds every FREE node once and nothing else.
  ghost predicate ListIsFreeNodes(p: Pool)
  {
    && Distinct(p.free)
    && (forall i :: 0 <= i < |p.free| ==> p.free[i] < |p.sessions| && p.sessions[p.free[i]].m.pool.Free?)
    && (forall id :: 0 <= id < |p.sessions| && p.sessions[id].m.pool.Free? ==> id in p.free)
  }

  ghost predicate PoolKept(p: Pool)
  {
    ListIsFreeNodes(p) && forall id :: 0 <= id < |p.sessions| ==> Kept(p.sessions[id])
  }

  lemma NodeMoves(s: State, a: Action)
    requires Kept(s) && Enabled(s, a)
    ensures Next(s, a).m.pool.Free? <==> if Leases(a) then false else if Frees(s, a) then true else s.m.pool.Free?
    ensures Frees(s, a) ==> s.m.pool.Releasing?
  {
    hide StepEffect, CallEffect, Kept, Expects;
    KeptExpects(s, a.t);
    var th := s.threads[a.t];
    match a {
      case Start(_, call) => CallMovesNode(s, th, call);
      case Step(_, choice) => StepMovesNode(s, th, choice);
    }
  }

  lemma CallMovesNode(s: State, th: Thread, call: Call)
    requires MayStart(s, th, call)
    ensures CallEffect(s, th, call).m.pool.Free? <==> !call.Acquire? && s.m.pool.Free?
  {
  }

  lemma StepMovesNode(s: State, th: Thread, choice: bool)
    requires Expects(s, th) && !th.pc.Rest?
    ensures th.pc == Finish(FINISH_STAGES - 1) ==> s.m.pool.Releasing?
    ensures StepEffect(s, th, choice).m.pool.Free? <==> th.pc == Finish(FINISH_STAGES - 1) || s.m.pool.Free?
  {
    hide Balanced, KeepsWatch, StepEffect;
    StepIsSound(s, th, choice);
    StepLeasesNothing(s, th, choice);
  }

  lemma StepLeasesNothing(s: State, th: Thread, choice: bool)
    requires !th.pc.Rest?
    ensures StepEffect(s, th, choice).ledger.lease == s.ledger.lease
  {
  }

  lemma PoolNextKeeps(p: Pool, id: nat, a: Action)
    requires PoolKept(p) && PoolEnabled(p, id, a)
    ensures PoolKept(PoolNext(p, id, a))
  {
    hide Next, Kept;
    var s := p.sessions[id];
    var r := PoolNext(p, id, a);
    NextKeeps(s, a);
    NodeMoves(s, a);
    if Leases(a) {
      assert p.free == [id] + r.free;
    }
    forall i | 0 <= i < |r.sessions| && r.sessions[i].m.pool.Free?
      ensures i in r.free
    {
      if i != id { assert r.sessions[i] == p.sessions[i]; }
    }
  }

  ghost predicate PoolRuns(p: Pool, schedule: seq<(nat, Action)>)
    decreases |schedule|
  {
    schedule == [] ||
    (PoolEnabled(p, schedule[0].0, schedule[0].1) && PoolRuns(PoolNext(p, schedule[0].0, schedule[0].1), schedule[1..]))
  }

  ghost function PoolAfter(p: Pool, schedule: seq<(nat, Action)>): Pool
    requires PoolRuns(p, schedule)
    decreases |schedule|
  {
    if schedule == [] then p else PoolAfter(PoolNext(p, schedule[0].0, schedule[0].1), schedule[1..])
  }

  // The constructor links node after node onto the head, so the list starts as the ids counting down.
  ghost predicate PoolInitial(p: Pool)
  {
    && (forall id :: 0 <= id < |p.sessions| ==> Initial(p.sessions[id]))
    && |p.free| == |p.sessions|
    && (forall i :: 0 <= i < |p.free| ==> p.free[i] == |p.free| - 1 - i)
  }

  lemma PoolInitialKept(p: Pool)
    requires PoolInitial(p)
    ensures PoolKept(p)
  {
    forall id | 0 <= id < |p.sessions|
      ensures Kept(p.sessions[id]) && id in p.free
    {
      InitialKept(p.sessions[id]);
      assert p.free[|p.free| - 1 - id] == id;
    }
  }

  lemma {:induction false} PoolRunKeeps(p: Pool, schedule: seq<(nat, Action)>)
    requires PoolKept(p) && PoolRuns(p, schedule)
    ensures PoolKept(PoolAfter(p, schedule))
    decreases |schedule|
  {
    hide PoolKept, PoolNext, PoolEnabled;
    if schedule != [] {
      PoolNextKeeps(p, schedule[0].0, schedule[0].1);
      PoolRunKeeps(PoolNext(p, schedule[0].0, schedule[0].1), schedule[1..]);
    }
  }

  // Over every interleaving of every session: the free list never holds a node twice, never holds a
  // node that is leased or being released, and never misses a free one.  So what Acquire pops is FREE.
  lemma FreeListIsExact(p0: Pool, schedule: seq<(nat, Action)>)
    requires PoolInitial(p0) && PoolRuns(p0, schedule)
    ensures var p := PoolAfter(p0, schedule);
            ListIsFreeNodes(p) && (p.free != [] ==> p.free[0] < |p.sessions| && p.sessions[p.free[0]].m.pool.Free?)
  {
    PoolInitialKept(p0);
    PoolRunKeeps(p0, schedule);
  }
}
