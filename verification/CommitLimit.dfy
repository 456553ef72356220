/**
 The commit limit of a pool whose bins grow under locks of their own: the check against the limit and
 the commit it allows are serialised within a bin, not across bins.
 */
module CommitLimit {
  import opened Tally

  // A bin's grow: where the thread holding its growLock is.
  datatype Grow =
    | NoGrow
    | Checking            // lock taken, m_committedBytes not read yet
    | Admitted            // within the limit as read, before VirtualAlloc
    | Mapped              // before RecordSegmentLocked
    | BinCounted          // the bin's bytes are counted, the pool's not yet

  // segment: bytes of one runtime segment of the bin.
  datatype Bin = Bin(segment: nat, committed: nat, grow: Grow)

  datatype State = State(total: nat, bins: seq<Bin>)

  datatype Action = Begin(b: nat) | Step(b: nat, ok: bool)

  predicate Enabled(s: State, a: Action)
  {
    a.b < |s.bins| &&
    match a
    case Begin(b) => s.bins[b].grow.NoGrow?
    case Step(b, _) => !s.bins[b].grow.NoGrow?
  }

  function Moved(s: State, b: nat, grow: Grow): State
    requires b < |s.bins|
  {
    s.(bins := s.bins[b := s.bins[b].(grow := grow)])
  }

  // GrowLocked at run time under the pool's limit; 0 is no limit.  ok: what the system answers.
  function Next(limit: nat, s: State, a: Action): State
    requires Enabled(s, a)
  {
    match a
    case Begin(b) => Moved(s, b, Checking)
    case Step(b, ok) =>
      var bin := s.bins[b];
      match bin.grow
      case Checking => Moved(s, b, if limit != 0 && s.total + bin.segment > limit then NoGrow else Admitted)
      case Admitted => Moved(s, b, if ok then Mapped else NoGrow)
      case Mapped =>
        if ok then s.(bins := s.bins[b := Bin(bin.segment, bin.committed + bin.segment, BinCounted)]) else Moved(s, b, NoGrow)
      case BinCounted => Moved(s, b, NoGrow).(total := s.total + bin.segment)
  }

  ghost predicate Runs(limit: nat, s: State, schedule: seq<Action>)
    decreases |schedule|
  {
    schedule == [] || (Enabled(s, schedule[0]) && Runs(limit, Next(limit, s, schedule[0]), schedule[1..]))
  }

  ghost function After(limit: nat, s: State, schedule: seq<Action>): State
    requires Runs(limit, s, schedule)
    decreases |schedule|
  {
    if schedule == [] then s else After(limit, Next(limit, s, schedule[0]), schedule[1..])
  }

  // After preallocation: nothing in flight, and the pool's count is the sum of the bins'.
  ghost predicate Initial(s: State)
  {
    (forall b :: 0 <= b < |s.bins| ==> s.bins[b].grow.NoGrow?) && s.total == Total(s.bins, CommittedOf)
  }

  function CommittedOf(bin: Bin): nat { bin.committed }
  function SegmentOf(bin: Bin): nat { bin.segment }
  function Past(bin: Bin): bool { bin.grow.Admitted? || bin.grow.Mapped? || bin.grow.BinCounted? }

  // Admitted, not yet in the pool's count.
  function InFlight(bin: Bin): nat { if Past(bin) then bin.segment else 0 }
  function Half(bin: Bin): nat { if bin.grow.BinCounted? then bin.segment else 0 }

  lemma {:induction false} FlightsAreSegments(bins: seq<Bin>)
    ensures Total(bins, InFlight) <= Total(bins, SegmentOf)
  {
    if bins != [] {
      FlightsAreSegments(bins[..|bins| - 1]);
    }
  }

  lemma BinMoves(bins: seq<Bin>, b: nat, bin: Bin)
    requires b < |bins|
    ensures Total(bins[b := bin], InFlight) + InFlight(bins[b]) == Total(bins, InFlight) + InFlight(bin)
    ensures Total(bins[b := bin], Half) + Half(bins[b]) == Total(bins, Half) + Half(bin)
    ensures Total(bins[b := bin], CommittedOf) + bins[b].committed == Total(bins, CommittedOf) + bin.committed
    ensures Total(bins[b := bin], SegmentOf) + bins[b].segment == Total(bins, SegmentOf) + bin.segment
  {
    Update(bins, b, bin, InFlight);
    Update(bins, b, bin, Half);
    Update(bins, b, bin, CommittedOf);
    Update(bins, b, bin, SegmentOf);
  }

  // What admitting bin b can bring the sum to: the limit, and what the other bins have in flight.
  lemma AdmissionFits(bins: seq<Bin>, b: nat)
    requires b < |bins| && !Past(bins[b])
    ensures Total(bins, InFlight) + bins[b].segment <= Total(bins, SegmentOf)
  {
    var admitted := bins[b := bins[b].(grow := Admitted)];
    BinMoves(bins, b, admitted[b]);
    FlightsAreSegments(admitted);
  }

  // The ceiling: what was there initially, or the limit and one segment of every bin but the
  // smallest one, for the bin admitted last was admitted within the limit.
  function Ceiling(initial: nat, limit: nat, segments: nat, smallest: nat): int
  {
    if initial > limit + segments - smallest then initial else limit + segments - smallest
  }

  ghost predicate Bounded(s: State, initial: nat, limit: nat, smallest: nat)
  {
    && (forall b :: 0 <= b < |s.bins| ==> smallest <= s.bins[b].segment)
    && s.total + Total(s.bins, InFlight) <= Ceiling(initial, limit, Total(s.bins, SegmentOf), smallest)
    && s.total + Total(s.bins, Half) == Total(s.bins, CommittedOf)
  }

  lemma StepIsBounded(limit: nat, s: State, a: Action, initial: nat, smallest: nat)
    requires limit != 0 && Bounded(s, initial, limit, smallest) && Enabled(s, a)
    ensures Bounded(Next(limit, s, a), initial, limit, smallest)
    ensures Total(Next(limit, s, a).bins, SegmentOf) == Total(s.bins, SegmentOf)
  {
    hide Total;
    var r := Next(limit, s, a);
    BinMoves(s.bins, a.b, r.bins[a.b]);
    if !Past(s.bins[a.b]) { AdmissionFits(s.bins, a.b); }
  }

  lemma {:induction false} RunIsBounded(limit: nat, s: State, schedule: seq<Action>, initial: nat, smallest: nat)
    requires limit != 0 && Bounded(s, initial, limit, smallest) && Runs(limit, s, schedule)
    ensures Bounded(After(limit, s, schedule), initial, limit, smallest)
    ensures Total(After(limit, s, schedule).bins, SegmentOf) == Total(s.bins, SegmentOf)
    decreases |schedule|
  {
    hide Bounded, Enabled;
    if schedule != [] {
      StepIsBounded(limit, s, schedule[0], initial, smallest);
      RunIsBounded(limit, Next(limit, s, schedule[0]), schedule[1..], initial, smallest);
    }
  }

  // Over every interleaving of grows: committed bytes and grows in flight stay within the initial
  // bytes, or the limit and one runtime segment of every bin but the smallest; and whenever no grow
  // is between its two counts the pool's count is the sum of the bins'.
  lemma CommittedIsBounded(limit: nat, s0: State, schedule: seq<Action>, smallest: nat)
    requires limit != 0 && Initial(s0) && Runs(limit, s0, schedule)
    requires forall b :: 0 <= b < |s0.bins| ==> smallest <= s0.bins[b].segment
    requires smallest <= Total(s0.bins, SegmentOf)
    ensures var s := After(limit, s0, schedule);
            && s.total + Total(s.bins, InFlight) <= Ceiling(s0.total, limit, Total(s0.bins, SegmentOf), smallest)
            && ((forall b :: 0 <= b < |s.bins| ==> !s.bins[b].grow.BinCounted?) ==> s.total == Total(s.bins, CommittedOf))
  {
    Zero(s0.bins, InFlight);
    Zero(s0.bins, Half);
    RunIsBounded(limit, s0, schedule, s0.total, smallest);
    var s := After(limit, s0, schedule);
    if forall b :: 0 <= b < |s.bins| ==> !s.bins[b].grow.BinCounted? { Zero(s.bins, Half); }
  }

  // Growth serialised across bins: no grow begins while another is under way.
  ghost predicate OneByOne(s: State, a: Action)
  {
    a.Begin? ==> forall b :: 0 <= b < |s.bins| ==> s.bins[b].grow.NoGrow?
  }

  ghost predicate SerialRuns(limit: nat, s: State, schedule: seq<Action>)
    requires Runs(limit, s, schedule)
    decreases |schedule|
  {
    schedule == [] || (OneByOne(s, schedule[0]) && SerialRuns(limit, Next(limit, s, schedule[0]), schedule[1..]))
  }

  ghost predicate SerialBounded(s: State, initial: nat, limit: nat)
  {
    && (forall a, b :: 0 <= a < b < |s.bins| ==> s.bins[a].grow.NoGrow? || s.bins[b].grow.NoGrow?)
    && s.total + Total(s.bins, InFlight) <= (if initial > limit then initial else limit)
  }

  lemma SerialStep(limit: nat, s: State, a: Action, initial: nat)
    requires limit != 0 && SerialBounded(s, initial, limit) && Enabled(s, a) && OneByOne(s, a)
    ensures SerialBounded(Next(limit, s, a), initial, limit)
  {
    var r := Next(limit, s, a);
    BinMoves(s.bins, a.b, r.bins[a.b]);
    if s.bins[a.b].grow.Checking? {
      forall b | 0 <= b < |s.bins| ensures InFlight(s.bins[b]) == 0 {
        if b != a.b { assert s.bins[b].grow.NoGrow?; }
      }
      Zero(s.bins, InFlight);
    }
  }

  // Then the limit itself holds: runtime growth never takes the pool above it.
  lemma {:induction false} SerialGrowthKeepsLimit(limit: nat, s: State, schedule: seq<Action>, initial: nat)
    requires limit != 0 && SerialBounded(s, initial, limit) && Runs(limit, s, schedule) && SerialRuns(limit, s, schedule)
    ensures SerialBounded(After(limit, s, schedule), initial, limit)
    ensures After(limit, s, schedule).total <= if initial > limit then initial else limit
    decreases |schedule|
  {
    hide Enabled, Next, OneByOne;
    if schedule != [] {
      SerialStep(limit, s, schedule[0], initial);
      SerialGrowthKeepsLimit(limit, Next(limit, s, schedule[0]), schedule[1..], initial);
    }
  }

  lemma SerialFromStart(limit: nat, s0: State, schedule: seq<Action>)
    requires limit != 0 && Initial(s0) && Runs(limit, s0, schedule) && SerialRuns(limit, s0, schedule)
    ensures After(limit, s0, schedule).total <= if s0.total > limit then s0.total else limit
  {
    Zero(s0.bins, InFlight);
    SerialGrowthKeepsLimit(limit, s0, schedule, s0.total);
  }

  lemma TwoBins(x: Bin, y: Bin, w: Bin -> nat)
    ensures Total([x, y], w) == w(x) + w(y)
  {
    Concat([x], [y], w);
    Single(x, w);
    Single(y, w);
    assert [x] + [y] == [x, y];
  }

  lemma BothAdmitted(segment: nat) returns (s0: State, schedule: seq<Action>)
    requires segment > 0
    ensures s0 == State(0, [Bin(segment, 0, NoGrow), Bin(segment, 0, NoGrow)]) && Runs(segment, s0, schedule)
    ensures After(segment, s0, schedule) == State(0, [Bin(segment, 0, Admitted), Bin(segment, 0, Admitted)])
  {
    s0 := State(0, [Bin(segment, 0, NoGrow), Bin(segment, 0, NoGrow)]);
    schedule := [];
    assert After(segment, s0, schedule) == s0;
    hide Runs, After;
    schedule := Further(segment, s0, schedule, Begin(0));
    schedule := Further(segment, s0, schedule, Step(0, true));
    schedule := Further(segment, s0, schedule, Begin(1));
    schedule := Further(segment, s0, schedule, Step(1, true));
  }

  lemma OneCommitted(segment: nat) returns (s0: State, schedule: seq<Action>)
    requires segment > 0
    ensures s0 == State(0, [Bin(segment, 0, NoGrow), Bin(segment, 0, NoGrow)]) && Runs(segment, s0, schedule)
    ensures After(segment, s0, schedule) == State(segment, [Bin(segment, segment, NoGrow), Bin(segment, 0, Admitted)])
  {
    hide Runs, After;
    s0, schedule := BothAdmitted(segment);
    schedule := Further(segment, s0, schedule, Step(0, true));
    schedule := Further(segment, s0, schedule, Step(0, true));
    schedule := Further(segment, s0, schedule, Step(0, true));
  }

  // Without it the ceiling is met: two bins check before either commits.
  lemma LimitCanBeExceeded(segment: nat) returns (s0: State, schedule: seq<Action>)
    requires segment > 0
    ensures Initial(s0) && s0.total == 0 && Runs(segment, s0, schedule)
    ensures After(segment, s0, schedule).total == 2 * segment
            && Ceiling(0, segment, Total(s0.bins, SegmentOf), segment) == 2 * segment
  {
    var idle := Bin(segment, 0, NoGrow);
    TwoBins(idle, idle, CommittedOf);
    TwoBins(idle, idle, SegmentOf);
    hide Runs, After, Total;
    s0, schedule := OneCommitted(segment);
    schedule := Further(segment, s0, schedule, Step(1, true));
    schedule := Further(segment, s0, schedule, Step(1, true));
    schedule := Further(segment, s0, schedule, Step(1, true));
  }

  lemma Further(limit: nat, s0: State, schedule: seq<Action>, a: Action) returns (longer: seq<Action>)
    requires Runs(limit, s0, schedule) && Enabled(After(limit, s0, schedule), a)
    ensures longer == schedule + [a]
    ensures Runs(limit, s0, longer) && After(limit, s0, longer) == Next(limit, After(limit, s0, schedule), a)
  {
    RunsExtend(limit, s0, schedule, a);
    longer := schedule + [a];
  }

  // --- A grow nobody interrupts ---------------------------------------------------------------------

  // From taking the lock to giving it up: the check, then VirtualAlloc's answer, then the list's.
  function Alone(limit: nat, s: State, b: nat, given: bool, listed: bool): seq<Action>
    requires b < |s.bins|
  {
    [Begin(b), Step(b, true)]
    + (if limit != 0 && s.total + s.bins[b].segment > limit then []
       else if !given then [Step(b, false)]
       else if !listed then [Step(b, true), Step(b, false)]
       else [Step(b, true), Step(b, true), Step(b, true)])
  }

  // It is a run of the protocol, which either adds one segment to the bin and the pool or nothing.
  lemma AloneRuns(limit: nat, s: State, b: nat, given: bool, listed: bool)
    requires b < |s.bins| && s.bins[b].grow.NoGrow?
    ensures Runs(limit, s, Alone(limit, s, b, given, listed))
    ensures var bin := s.bins[b];
            After(limit, s, Alone(limit, s, b, given, listed))
            == if (limit == 0 || s.total + bin.segment <= limit) && given && listed
               then State(s.total + bin.segment, s.bins[b := Bin(bin.segment, bin.committed + bin.segment, NoGrow)])
               else s
  {
    var path := Alone(limit, s, b, given, listed);
    var first: seq<Action> := [];
    assert After(limit, s, first) == s;
    hide Runs, After;
    first := Further(limit, s, first, Begin(b));
    first := Further(limit, s, first, Step(b, true));
    if |path| > 2 {
      first := Further(limit, s, first, path[2]);
      if |path| > 3 {
        first := Further(limit, s, first, path[3]);
        if |path| > 4 {
          first := Further(limit, s, first, path[4]);
        }
      }
    }
    assert first == path;
  }

  // --- Exactly when the limit holds -----------------------------------------------------------------

  // The bin could grow from the start: what a caller can check before anything runs.
  predicate CanGrow(limit: nat, s0: State, b: nat)
    requires b < |s0.bins|
  {
    s0.bins[b].segment > 0 && s0.total + s0.bins[b].segment <= limit
  }

  ghost predicate OneCanGrow(limit: nat, s0: State)
  {
    forall a, b :: 0 <= a < b < |s0.bins| ==> !(CanGrow(limit, s0, a) && CanGrow(limit, s0, b))
  }

  ghost predicate LimitHolds(limit: nat, s0: State)
  {
    forall schedule :: Runs(limit, s0, schedule) ==>
      After(limit, s0, schedule).total <= if s0.total > limit then s0.total else limit
  }

  // Only a bin that could grow from the start is ever admitted, within what is left for it.
  ghost predicate WithinLimit(limit: nat, s0: State, s: State)
  {
    && |s.bins| == |s0.bins| && s.total >= s0.total && s.total <= (if s0.total > limit then s0.total else limit)
    && (forall b :: 0 <= b < |s.bins| ==> s.bins[b].segment == s0.bins[b].segment)
    && (forall b :: 0 <= b < |s.bins| && Past(s.bins[b]) && s.bins[b].segment > 0 ==>
          CanGrow(limit, s0, b) && s.total + s.bins[b].segment <= limit)
  }

  lemma {:induction false} StaysWithinLimit(limit: nat, s0: State, s: State, schedule: seq<Action>)
    requires limit != 0 && OneCanGrow(limit, s0) && WithinLimit(limit, s0, s) && Runs(limit, s, schedule)
    ensures WithinLimit(limit, s0, After(limit, s, schedule))
    decreases |schedule|
  {
    if schedule != [] {
      StaysWithinLimit(limit, s0, Next(limit, s, schedule[0]), schedule[1..]);
    }
  }

  // One undisturbed grow of a bin.
  lemma GrowsOnce(limit: nat, s0: State, schedule: seq<Action>, b: nat) returns (longer: seq<Action>)
    requires limit != 0 && Runs(limit, s0, schedule) && b < |After(limit, s0, schedule).bins|
    requires var s := After(limit, s0, schedule); s.bins[b].grow.NoGrow? && s.total + s.bins[b].segment <= limit
    ensures Runs(limit, s0, longer)
    ensures var s, bin := After(limit, s0, schedule), After(limit, s0, schedule).bins[b];
            After(limit, s0, longer)
            == State(s.total + bin.segment, s.bins[b := Bin(bin.segment, bin.committed + bin.segment, NoGrow)])
  {
    hide Runs, After;
    var s := After(limit, s0, schedule);
    longer := Further(limit, s0, schedule, Begin(b));
    longer := Further(limit, s0, longer, Step(b, true));
    longer := Further(limit, s0, longer, Step(b, true));
    longer := Further(limit, s0, longer, Step(b, true));
    longer := Further(limit, s0, longer, Step(b, true));
  }

  // Bin b grows until the limit refuses it; the other bins stay where they are.
  lemma {:induction false} GrowsUntilRefused(limit: nat, s0: State, schedule: seq<Action>, b: nat) returns (longer: seq<Action>)
    requires limit != 0 && Runs(limit, s0, schedule) && b < |After(limit, s0, schedule).bins|
    requires var s := After(limit, s0, schedule); s.bins[b].grow.NoGrow? && s.bins[b].segment > 0 && s.total <= limit
    ensures Runs(limit, s0, longer)
    ensures var s, r := After(limit, s0, schedule), After(limit, s0, longer);
            && |r.bins| == |s.bins| && r.bins == s.bins[b := r.bins[b]] && r.total <= limit < r.total + s.bins[b].segment
    decreases limit - After(limit, s0, schedule).total
  {
    hide Runs, After;
    var s := After(limit, s0, schedule);
    if s.total + s.bins[b].segment > limit {
      longer := schedule;
    } else {
      longer := GrowsOnce(limit, s0, schedule, b);
      longer := GrowsUntilRefused(limit, s0, longer, b);
    }
  }

  // The larger bin is admitted, the smaller one uses the limit up, then the larger one commits.
  lemma LargerGoesOver(limit: nat, s0: State, larger: nat, smaller: nat) returns (schedule: seq<Action>)
    requires limit != 0 && Initial(s0) && larger < |s0.bins| && smaller < |s0.bins| && larger != smaller
    requires CanGrow(limit, s0, larger) && CanGrow(limit, s0, smaller) && s0.bins[smaller].segment <= s0.bins[larger].segment
    ensures Runs(limit, s0, schedule) && After(limit, s0, schedule).total > limit >= s0.total
  {
    schedule := [];
    assert After(limit, s0, schedule) == s0;
    hide Runs, After;
    schedule := Further(limit, s0, schedule, Begin(larger));
    schedule := Further(limit, s0, schedule, Step(larger, true));
    schedule := GrowsUntilRefused(limit, s0, schedule, smaller);
    schedule := Further(limit, s0, schedule, Step(larger, true));
    schedule := Further(limit, s0, schedule, Step(larger, true));
    schedule := Further(limit, s0, schedule, Step(larger, true));
  }

  // The commit limit holds of every run exactly when at most one bin has room to grow at the start.
  lemma LimitHoldsIff(limit: nat, s0: State)
    requires limit != 0 && Initial(s0)
    ensures LimitHolds(limit, s0) <==> OneCanGrow(limit, s0)
  {
    hide Runs, After, WithinLimit;
    if OneCanGrow(limit, s0) {
      assert WithinLimit(limit, s0, s0) by { StartsWithinLimit(limit, s0); }
      forall schedule | Runs(limit, s0, schedule)
        ensures After(limit, s0, schedule).total <= if s0.total > limit then s0.total else limit
      {
        StaysWithinLimit(limit, s0, s0, schedule);
        TotalWithinLimit(limit, s0, After(limit, s0, schedule));
      }
    } else {
      var a, b :| 0 <= a < b < |s0.bins| && CanGrow(limit, s0, a) && CanGrow(limit, s0, b);
      var schedule;
      if s0.bins[a].segment <= s0.bins[b].segment {
        schedule := LargerGoesOver(limit, s0, b, a);
      } else {
        schedule := LargerGoesOver(limit, s0, a, b);
      }
    }
  }

  lemma StartsWithinLimit(limit: nat, s0: State)
    requires Initial(s0)
    ensures WithinLimit(limit, s0, s0)
  {
  }

  lemma TotalWithinLimit(limit: nat, s0: State, s: State)
    requires WithinLimit(limit, s0, s)
    ensures s.total <= if s0.total > limit then s0.total else limit
  {
  }

  lemma {:induction false} RunsExtend(limit: nat, s: State, schedule: seq<Action>, a: Action)
    requires Runs(limit, s, schedule) && Enabled(After(limit, s, schedule), a)
    ensures Runs(limit, s, schedule + [a])
    ensures After(limit, s, schedule + [a]) == Next(limit, After(limit, s, schedule), a)
    decreases |schedule|
  {
    if schedule == [] {
      assert [a][1..] == [];
    } else {
      RunsExtend(limit, Next(limit, s, schedule[0]), schedule[1..], a);
      assert (schedule + [a])[1..] == schedule[1..] + [a];
    }
  }
}
