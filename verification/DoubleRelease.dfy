/**
 What the taken-apart pool promises, and exactly when: one place for every block as long as no two
 Releases of one block overlap between reading its mark and replacing it.  A run in which they do, and
 one in which a refill that has just grown the bin comes away with nothing.
 */
module DoubleRelease {
  import opened Tally
  import opened PoolSteps
  import opened PoolStepsInvariants
  import P = BlockPoolProtocol
  import Inv = BlockPoolInvariants

  // --- Without an overlap ---------------------------------------------------------------------------------

  // Over every interleaving: every created block is in exactly one of the store, a list, a thread's
  // hands, or live with a caller; Acquire never marks a block live that is not free, so it never hands
  // out a live one; no list is above the cap; at most one thread is inside the grow section.
  lemma OnePlaceUnlessOverlap(c: P.Spec, s0: State, schedule: seq<Action>)
    requires P.Sensible(c) && Initial(c, s0) && Careful(c, s0, schedule)
    ensures Runs(c, s0, schedule)
    ensures var s := After(c, s0, schedule);
            && OnePlace(s)
            && (forall t :: 0 <= t < |s.threads| && Taking(s.threads[t].pc) ==>
                  s.threads[t].pc.block in s.magic && s.magic[s.threads[t].pc.block] == P.MAGIC_FREE)
            && (forall t :: 0 <= t < |s.threads| ==> |Blocks(s.threads[t].slot)| <= c.cap)
            && (forall t, u :: 0 <= t < u < |s.threads| ==> InSection(s.threads[t]) + InSection(s.threads[u]) <= 1)
  {
    hide Initial, Careful, OnePlace, Runs, After, InSection;
    InitialIsSound(c, s0);
    RunIsSound(c, s0, schedule);
    var s := After(c, s0, schedule);
    forall t | 0 <= t < |s.threads| && Taking(s.threads[t].pc)
      ensures s.threads[t].pc.block in s.magic && s.magic[s.threads[t].pc.block] == P.MAGIC_FREE
    {
      MarkedIsFree(c, s, t);
    }
    forall t | 0 <= t < |s.threads| ensures |Blocks(s.threads[t].slot)| <= c.cap {
      assert Fits(c, s.magic, s.threads[t]);
    }
    forall t, u | 0 <= t < u < |s.threads| ensures InSection(s.threads[t]) + InSection(s.threads[u]) <= 1 {
      AtLeastTwo(s.threads, t, u, InSection);
    }
  }

  // And whenever all threads are out of the pool, the counters a finalizer adds up are the live blocks.
  lemma CountersAtRest(c: P.Spec, s0: State, schedule: seq<Action>)
    requires P.Sensible(c) && Initial(c, s0) && Careful(c, s0, schedule) && Runs(c, s0, schedule)
    requires forall t :: 0 <= t < |After(c, s0, schedule).threads| ==> After(c, s0, schedule).threads[t].pc.Idle?
    ensures var s := After(c, s0, schedule);
            s.retiredAcquire + Total(s.threads, Acquired) == s.retiredRelease + Total(s.threads, Released) + |LiveBlocks(s.magic)|
  {
    hide OnePlace, AllFit, NoClash, Marks, Initial, Careful, Runs, After, LiveBlocks;
    InitialIsSound(c, s0);
    RunIsSound(c, s0, schedule);
    Zero(After(c, s0, schedule).threads, OnTheWay);
  }

  // --- Exactly when it holds --------------------------------------------------------------------------------

  // Every block stays in one place, whatever happens later without another overlap.
  ghost predicate OnePlaceFromHere(c: P.Spec, s: State)
  {
    forall schedule :: Careful(c, s, schedule) && Runs(c, s, schedule) ==> OnePlace(After(c, s, schedule))
  }

  // A Release reads LIVE.  From then on every block stays in one place exactly when no other Release of
  // the same block has read it and not stored FREE yet.
  lemma SecondReadIff(c: P.Spec, s0: State, schedule: seq<Action>, t: nat, b: Addr)
    requires P.Sensible(c) && Initial(c, s0) && Careful(c, s0, schedule) && Runs(c, s0, schedule)
    requires t < |After(c, s0, schedule).threads| && After(c, s0, schedule).threads[t].pc == Check(b)
    requires b in After(c, s0, schedule).magic && After(c, s0, schedule).magic[b] == P.MAGIC_LIVE
    ensures var s := After(c, s0, schedule);
            && Enabled(c, s, Step(t, true, []))
            && (OnePlaceFromHere(c, Next(c, s, Step(t, true, [])))
                <==> forall u :: 0 <= u < |s.threads| && u != t ==> s.threads[u].pc != Free(b))
  {
    hide Initial, Careful, Sound, OnePlace, Runs, After;
    var s := After(c, s0, schedule);
    InitialIsSound(c, s0);
    RunIsSound(c, s0, schedule);
    var a := Step(t, true, []);
    var r := Next(c, s, a);
    if Overlaps(s, a) {
      var u :| 0 <= u < |s.threads| && u != t && s.threads[u].pc == Free(b);
      var more := BothFree(c, r, t, u, b);
      assert !OnePlace(After(c, r, more));
    } else {
      NextIsSound(c, s, a);
      forall more | Careful(c, r, more) && Runs(c, r, more) ensures OnePlace(After(c, r, more)) {
        RunIsSound(c, r, more);
        SoundHasOnePlace(c, After(c, r, more));
      }
    }
  }

  lemma SoundHasOnePlace(c: P.Spec, s: State)
    requires Sound(c, s)
    ensures OnePlace(s)
  {
  }

  // Both store FREE, and both have the block in hand.
  lemma BothFree(c: P.Spec, r: State, t: nat, u: nat, b: Addr) returns (more: seq<Action>)
    requires t < |r.threads| && u < |r.threads| && t != u && b in r.magic
    requires r.threads[t].pc == Free(b) && r.threads[u].pc == Free(b)
    ensures Careful(c, r, more) && Runs(c, r, more) && !OnePlace(After(c, r, more))
  {
    more := [Step(t, true, []), Step(u, true, [])];
    var r1 := Next(c, r, more[0]);
    var r2 := Next(c, r1, more[1]);
    assert more[1..] == [more[1]] && [more[1]][1..] == [];
    assert Careful(c, r1, more[1..]);
    assert After(c, r1, more[1..]) == r2;
    assert After(c, r, more) == r2;
    if t < u { AtLeastTwo(r2.threads, t, u, InThread(b)); } else { AtLeastTwo(r2.threads, u, t, InThread(b)); }
    assert Places(r2, b) >= 2;
  }

  // --- Two runs -------------------------------------------------------------------------------------------

  const SMALL := P.Spec(0, 1)
  const BLOCK: Addr := 4096
  const EMPTY := State([], false, [Thread(P.Gone, Idle), Thread(P.Gone, Idle)], map[], 0, 0)

  lemma Further(schedule: seq<Action>, a: Action) returns (longer: seq<Action>)
    requires Runs(SMALL, EMPTY, schedule) && Enabled(SMALL, After(SMALL, EMPTY, schedule), a)
    ensures Runs(SMALL, EMPTY, longer)
    ensures After(SMALL, EMPTY, longer) == Next(SMALL, After(SMALL, EMPTY, schedule), a)
  {
    RunsExtend(SMALL, EMPTY, schedule, a);
    longer := schedule + [a];
  }

  function Quick(t: nat): Action { Step(t, true, []) }

  function Cached(blocks: seq<Addr>, acquired: nat, released: nat): P.Slot
  {
    P.Attached(P.Cache(blocks, acquired, released))
  }

  lemma AboutToRefill() returns (schedule: seq<Action>)
    ensures Runs(SMALL, EMPTY, schedule) && Initial(SMALL, EMPTY) && P.Sensible(SMALL)
    ensures After(SMALL, EMPTY, schedule)
         == State([], false, [Thread(Cached([], 0, 0), FirstPop), Thread(P.Gone, Idle)], map[], 0, 0)
  {
    schedule := [];
    assert After(SMALL, EMPTY, schedule) == EMPTY;
    hide Runs, After;
    schedule := Further(schedule, BeginAcquire(0));
    schedule := Further(schedule, Quick(0));
    schedule := Further(schedule, Quick(0));
  }

  lemma AboutToGrow() returns (schedule: seq<Action>)
    ensures Runs(SMALL, EMPTY, schedule) && Initial(SMALL, EMPTY) && P.Sensible(SMALL)
    ensures After(SMALL, EMPTY, schedule)
         == State([], true, [Thread(Cached([], 0, 0), Grow), Thread(P.Gone, Idle)], map[], 0, 0)
  {
    hide Runs, After, Initial;
    schedule := AboutToRefill();
    schedule := Further(schedule, Quick(0));
    schedule := Further(schedule, Quick(0));
    schedule := Further(schedule, Quick(0));
  }

  // Thread 0 has grown the bin by one block and pushed it, and still holds the lock.
  lemma HasGrown() returns (schedule: seq<Action>)
    ensures Runs(SMALL, EMPTY, schedule) && Initial(SMALL, EMPTY) && P.Sensible(SMALL)
    ensures After(SMALL, EMPTY, schedule)
         == State([[BLOCK]], true, [Thread(Cached([], 0, 0), ThirdPop), Thread(P.Gone, Idle)], map[BLOCK := P.MAGIC_FREE], 0, 0)
  {
    hide Runs, After, Initial;
    schedule := AboutToGrow();
    schedule := Further(schedule, Step(0, true, [[BLOCK]]));
    schedule := Further(schedule, Quick(0));
    schedule := Further(schedule, Quick(0));
    assert P.Marked([BLOCK], map[]) == map[BLOCK := P.MAGIC_FREE];
  }

  // Growth is granted, and PopChunk fails all the same: another thread has taken the chunk meanwhile.
  lemma PopFailsDespiteGrowth() returns (schedule: seq<Action>)
    ensures Initial(SMALL, EMPTY) && Runs(SMALL, EMPTY, schedule)
    ensures After(SMALL, EMPTY, schedule)
         == State([], false, [Thread(Cached([], 0, 0), Idle), Thread(Cached([], 0, 0), Adopt([BLOCK]))],
                  map[BLOCK := P.MAGIC_FREE], 0, 0)
  {
    hide Runs, After, Initial;
    schedule := HasGrown();
    schedule := Further(schedule, BeginAcquire(1));
    schedule := Further(schedule, Quick(1));
    schedule := Further(schedule, Quick(1));
    schedule := Further(schedule, Quick(1));
    schedule := Further(schedule, Quick(0));
    schedule := Further(schedule, Quick(0));
  }

  // Thread 0 has acquired the block.
  lemma HasAcquired() returns (schedule: seq<Action>)
    ensures Runs(SMALL, EMPTY, schedule) && Initial(SMALL, EMPTY)
    ensures After(SMALL, EMPTY, schedule)
         == State([], false, [Thread(Cached([], 1, 0), Idle), Thread(P.Gone, Idle)], map[BLOCK := P.MAGIC_LIVE], 0, 0)
  {
    hide Runs, After, Initial;
    schedule := HasGrown();
    schedule := Further(schedule, Quick(0));
    schedule := Further(schedule, Quick(0));
    schedule := Further(schedule, Quick(0));
    schedule := Further(schedule, Quick(0));
    schedule := Further(schedule, Quick(0));
    assert [BLOCK][1..] == [];
    assert map[BLOCK := P.MAGIC_FREE][BLOCK := P.MAGIC_LIVE] == map[BLOCK := P.MAGIC_LIVE];
  }

  // Both threads release it, and each has read LIVE before either stores FREE.
  lemma BothHaveRead() returns (schedule: seq<Action>)
    ensures Runs(SMALL, EMPTY, schedule) && Initial(SMALL, EMPTY)
    ensures After(SMALL, EMPTY, schedule)
         == State([], false, [Thread(Cached([], 1, 0), Free(BLOCK)), Thread(P.Gone, Free(BLOCK))], map[BLOCK := P.MAGIC_LIVE], 0, 0)
  {
    hide Runs, After, Initial;
    schedule := HasAcquired();
    schedule := Further(schedule, BeginRelease(0, BLOCK));
    schedule := Further(schedule, BeginRelease(1, BLOCK));
    schedule := Further(schedule, Quick(0));
    schedule := Further(schedule, Quick(1));
  }

  // The block is in the store twice: two threads will acquire it.
  lemma ReleasedTwice() returns (schedule: seq<Action>)
    ensures Initial(SMALL, EMPTY) && Runs(SMALL, EMPTY, schedule)
    ensures After(SMALL, EMPTY, schedule).chunks == [[BLOCK], [BLOCK]] && !OnePlace(After(SMALL, EMPTY, schedule))
  {
    hide Runs, After, Initial, OnePlace;
    schedule := BothHaveRead();
    schedule := Further(schedule, Quick(0));
    schedule := Further(schedule, Quick(1));
    schedule := Further(schedule, Quick(0));
    schedule := Further(schedule, Quick(1));
    schedule := Further(schedule, Quick(1));
    schedule := Further(schedule, Quick(0));
    schedule := Further(schedule, Quick(1));
    TwiceInStore(After(SMALL, EMPTY, schedule));
  }

  lemma TwiceInStore(s: State)
    requires s.chunks == [[BLOCK], [BLOCK]]
    ensures !OnePlace(s)
  {
    var rest: seq<seq<Addr>> := [[BLOCK]];
    assert [[BLOCK]] + rest == s.chunks;
    Inv.ChunkOnTop([BLOCK], rest, BLOCK);
    assert [[BLOCK]] + [] == rest;
    Inv.ChunkOnTop([BLOCK], [], BLOCK);
    AloneCounts(BLOCK, BLOCK);
    assert Places(s, BLOCK) >= 2;
  }
}
