/** Sums over a table of threads (or bins, or workers), and what one changed row does to them. */
module Tally {
  function One(b: bool): nat { if b then 1 else 0 }

  ghost predicate Distinct<T>(s: seq<T>)
  {
    forall i, j :: 0 <= i < j < |s| ==> s[i] != s[j]
  }

  function Total<T>(s: seq<T>, w: T -> nat): nat
  {
    if s == [] then 0 else Total(s[..|s| - 1], w) + w(s[|s| - 1])
  }

  // Changing row i replaces its weight and leaves the rest of the sum alone.
  lemma {:induction false} Update<T>(s: seq<T>, i: nat, x: T, w: T -> nat)
    requires i < |s|
    ensures Total(s[i := x], w) + w(s[i]) == Total(s, w) + w(x)
  {
    var last := |s| - 1;
    if i == last {
      assert s[i := x][..last] == s[..last];
    } else {
      assert s[i := x][..last] == s[..last][i := x];
      Update(s[..last], i, x, w);
    }
  }

  lemma {:induction false} AtLeast<T>(s: seq<T>, i: nat, w: T -> nat)
    requires i < |s|
    ensures Total(s, w) >= w(s[i])
  {
    var last := |s| - 1;
    if i < last {
      assert s[..last][i] == s[i];
      AtLeast(s[..last], i, w);
    }
  }

  lemma {:induction false} AtLeastTwo<T>(s: seq<T>, i: nat, j: nat, w: T -> nat)
    requires i < j < |s|
    ensures Total(s, w) >= w(s[i]) + w(s[j])
  {
    var last := |s| - 1;
    if j < last {
      assert s[..last][i] == s[i] && s[..last][j] == s[j];
      AtLeastTwo(s[..last], i, j, w);
    } else {
      assert s[..last][i] == s[i];
      AtLeast(s[..last], i, w);
    }
  }

  lemma {:induction false} Witness<T>(s: seq<T>, w: T -> nat) returns (i: nat)
    requires Total(s, w) > 0
    ensures i < |s| && w(s[i]) > 0
  {
    var last := |s| - 1;
    if w(s[last]) > 0 {
      i := last;
    } else {
      i := Witness(s[..last], w);
    }
  }

  lemma {:induction false} Zero<T>(s: seq<T>, w: T -> nat)
    requires forall i :: 0 <= i < |s| ==> w(s[i]) == 0
    ensures Total(s, w) == 0
  {
    if s != [] {
      Zero(s[..|s| - 1], w);
    }
  }

  lemma {:induction false} AtMost<T>(s: seq<T>, w: T -> nat, bound: nat)
    requires forall i :: 0 <= i < |s| ==> w(s[i]) <= bound
    ensures Total(s, w) <= bound * |s|
  {
    if s != [] {
      AtMost(s[..|s| - 1], w, bound);
    }
  }

  // A row lighter than the bound keeps the whole sum below it.
  lemma {:induction false} OneShort<T>(s: seq<T>, w: T -> nat, i: nat)
    requires i < |s| && w(s[i]) == 0
    requires forall k :: 0 <= k < |s| ==> w(s[k]) <= 1
    ensures Total(s, w) < |s|
  {
    var last := |s| - 1;
    if i == last {
      AtMost(s[..last], w, 1);
    } else {
      OneShort(s[..last], w, i);
    }
  }

  lemma {:induction false} Concat<T>(a: seq<T>, b: seq<T>, w: T -> nat)
    ensures Total(a + b, w) == Total(a, w) + Total(b, w)
  {
    if b == [] {
      assert a + b == a;
    } else {
      assert (a + b)[..|a + b| - 1] == a + b[..|b| - 1];
      Concat(a, b[..|b| - 1], w);
    }
  }

  lemma Single<T>(x: T, w: T -> nat)
    ensures Total([x], w) == w(x)
  {
    assert [x][..0] == [];
  }

  lemma HeadTail<T>(s: seq<T>, w: T -> nat)
    requires s != []
    ensures Total(s, w) == w(s[0]) + Total(s[1..], w)
  {
    Single(s[0], w);
    Concat([s[0]], s[1..], w);
    assert [s[0]] + s[1..] == s;
  }
}
