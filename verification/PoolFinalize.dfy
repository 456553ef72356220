/**
 The whole pool: its bins, and requests too large for any bin, which go to the process heap.  Its
 finalizer unmaps the segments exactly when no block of either kind is out.
 */
module PoolFinalize {
  import opened Tally
  import B = BlockPoolProtocol
  import Inv = BlockPoolInvariants

  // bypass: oversized blocks out with callers, and the two counters kept for them.
  datatype Pool = Pool(bins: seq<B.State>, bypass: set<B.Addr>, bypassAcquire: nat, bypassRelease: nat)

  datatype Action =
    | InBin(bin: nat, action: B.Action)
    | AcquireBypass(block: B.Addr)
    | ReleaseBypass(block: B.Addr)

  ghost predicate Enabled(specs: seq<B.Spec>, p: Pool, a: Action)
    requires |specs| == |p.bins|
  {
    match a
    case InBin(bin, action) => bin < |p.bins| && B.Enabled(specs[bin], p.bins[bin], action)
    case AcquireBypass(b) => b !in p.bypass
    case ReleaseBypass(b) => b in p.bypass
  }

  ghost predicate AllSensible(specs: seq<B.Spec>)
  {
    forall i :: 0 <= i < |specs| ==> B.Sensible(specs[i])
  }

  ghost function Next(specs: seq<B.Spec>, p: Pool, a: Action): (r: Pool)
    requires |specs| == |p.bins| && AllSensible(specs) && Enabled(specs, p, a)
    ensures |r.bins| == |p.bins|
  {
    match a
    case InBin(bin, action) => p.(bins := p.bins[bin := B.Next(specs[bin], p.bins[bin], action)])
    case AcquireBypass(b) => p.(bypass := p.bypass + {b}, bypassAcquire := p.bypassAcquire + 1)
    case ReleaseBypass(b) => p.(bypass := p.bypass - {b}, bypassRelease := p.bypassRelease + 1)
  }

  ghost predicate Sound(specs: seq<B.Spec>, p: Pool)
    requires |specs| == |p.bins|
  {
    && (forall i :: 0 <= i < |p.bins| ==> Inv.Sound(specs[i], p.bins[i]))
    && p.bypassAcquire == p.bypassRelease + |p.bypass|
  }

  ghost predicate Runs(specs: seq<B.Spec>, p: Pool, schedule: seq<Action>)
    requires |specs| == |p.bins| && AllSensible(specs)
    decreases |schedule|
  {
    schedule == [] || (Enabled(specs, p, schedule[0]) && Runs(specs, Next(specs, p, schedule[0]), schedule[1..]))
  }

  ghost function After(specs: seq<B.Spec>, p: Pool, schedule: seq<Action>): (r: Pool)
    requires |specs| == |p.bins| && AllSensible(specs) && Runs(specs, p, schedule)
    ensures |r.bins| == |p.bins|
    decreases |schedule|
  {
    if schedule == [] then p else After(specs, Next(specs, p, schedule[0]), schedule[1..])
  }

  ghost predicate Initial(p: Pool)
  {
    && (forall i :: 0 <= i < |p.bins| ==> B.Initial(p.bins[i]))
    && p.bypass == {} && p.bypassAcquire == 0 && p.bypassRelease == 0
  }

  lemma NextIsSound(specs: seq<B.Spec>, p: Pool, a: Action)
    requires |specs| == |p.bins| && AllSensible(specs) && Sound(specs, p) && Enabled(specs, p, a)
    ensures Sound(specs, Next(specs, p, a))
  {
    hide Inv.Sound, B.Next, B.Enabled;
    if a.InBin? {
      Inv.NextIsSound(specs[a.bin], p.bins[a.bin], a.action);
    }
  }

  lemma {:induction false} RunIsSound(specs: seq<B.Spec>, p: Pool, schedule: seq<Action>)
    requires |specs| == |p.bins| && AllSensible(specs) && Sound(specs, p) && Runs(specs, p, schedule)
    ensures Sound(specs, After(specs, p, schedule))
    decreases |schedule|
  {
    hide Sound, Enabled, AllSensible;
    if schedule != [] {
      NextIsSound(specs, p, schedule[0]);
      RunIsSound(specs, Next(specs, p, schedule[0]), schedule[1..]);
    }
  }

  // SumCounters of one bin, and the blocks it has out.
  function AcquiredOf(s: B.State): nat { s.retiredAcquire + Total(s.caches, Inv.Acquired) }
  function ReleasedOf(s: B.State): nat { s.retiredRelease + Total(s.caches, Inv.Released) }
  function LiveOf(s: B.State): nat { |s.live| }

  // TlsMemoryPool::Finalize's test over the summed counters of all bins and the bypass.
  predicate BlocksStillOut(p: Pool)
  {
    Total(p.bins, AcquiredOf) != Total(p.bins, ReleasedOf) || p.bypassAcquire != p.bypassRelease
  }

  lemma {:induction false} TotalsDiffer(bins: seq<B.State>)
    requires forall i :: 0 <= i < |bins| ==> AcquiredOf(bins[i]) == ReleasedOf(bins[i]) + LiveOf(bins[i])
    ensures Total(bins, AcquiredOf) == Total(bins, ReleasedOf) + Total(bins, LiveOf)
  {
    if bins != [] {
      TotalsDiffer(bins[..|bins| - 1]);
    }
  }

  // The summed counters cannot cancel across bins: the finalizer's test says exactly whether a block
  // is out, so it unmaps segments only when none is.
  lemma FinalizeSeesEveryBlock(specs: seq<B.Spec>, p0: Pool, schedule: seq<Action>)
    requires |specs| == |p0.bins| && AllSensible(specs) && Initial(p0) && Runs(specs, p0, schedule)
    ensures var p := After(specs, p0, schedule);
            BlocksStillOut(p) <==> p.bypass != {} || exists i :: 0 <= i < |p.bins| && p.bins[i].live != {}
  {
    forall i | 0 <= i < |p0.bins| ensures Inv.Sound(specs[i], p0.bins[i]) {
      Inv.InitialIsSound(specs[i], p0.bins[i]);
    }
    RunIsSound(specs, p0, schedule);
    var p := After(specs, p0, schedule);
    forall i | 0 <= i < |p.bins| ensures AcquiredOf(p.bins[i]) == ReleasedOf(p.bins[i]) + LiveOf(p.bins[i]) {
      assert Inv.Sound(specs[i], p.bins[i]);
    }
    TotalsDiffer(p.bins);
    if Total(p.bins, LiveOf) > 0 {
      var i := Witness(p.bins, LiveOf);
      assert p.bins[i].live != {};
    }
    forall i | 0 <= i < |p.bins| ensures |p.bins[i].live| <= Total(p.bins, LiveOf) {
      AtLeast(p.bins, i, LiveOf);
    }
    forall i | 0 <= i < |p.bins| && p.bins[i].live != {} ensures Total(p.bins, LiveOf) > 0 {
      assert |p.bins[i].live| > 0;
    }
  }
}
