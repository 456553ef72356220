/** The queue of sessions waiting for a worker: a circular array under one lock. */
module ReadySessionQueue {

  // The occupied cells from head on, around the end of the array.
  function Around<T>(cells: seq<T>, head: nat, count: nat): (r: seq<T>)
    requires count <= |cells| && (count > 0 ==> head < |cells|)
    ensures |r| == count
    decreases count
  {
    if count == 0 then [] else [cells[head]] + Around(cells, Succ(head, |cells|), count - 1)
  }

  function Succ(i: nat, n: nat): nat { if i + 1 >= n then 0 else i + 1 }

  // The cell `count` places after head.
  function Ahead(head: nat, count: nat, n: nat): nat
  {
    if head + count < n then head + count else head + count - n
  }

  lemma {:induction false} AroundAt<T>(cells: seq<T>, head: nat, count: nat, k: nat)
    requires k < count <= |cells| && head < |cells|
    ensures Ahead(head, k, |cells|) < |cells| && Around(cells, head, count)[k] == cells[Ahead(head, k, |cells|)]
    decreases k
  {
    if k > 0 {
      AroundAt(cells, Succ(head, |cells|), count - 1, k - 1);
    }
  }

  lemma PushAround<T>(cells: seq<T>, head: nat, count: nat, x: T)
    requires count < |cells| && head < |cells|
    ensures Ahead(head, count, |cells|) < |cells|
    ensures Around(cells[Ahead(head, count, |cells|) := x], head, count + 1) == Around(cells, head, count) + [x]
  {
    var tail := Ahead(head, count, |cells|);
    var after := cells[tail := x];
    forall k | 0 <= k < count + 1
      ensures Around(after, head, count + 1)[k] == (Around(cells, head, count) + [x])[k]
    {
      AroundAt(after, head, count + 1, k);
      if k < count { AroundAt(cells, head, count, k); }
    }
  }

  // Clearing the cell that was popped does not touch the others.
  lemma PopAround<T>(cells: seq<T>, head: nat, count: nat, blank: T)
    requires 0 < count <= |cells| && head < |cells|
    ensures Around(cells, head, count)[0] == cells[head]
    ensures Around(cells[head := blank], Succ(head, |cells|), count - 1) == Around(cells, head, count)[1..]
  {
    var after := cells[head := blank];
    forall k | 0 <= k < count - 1
      ensures Around(after, Succ(head, |cells|), count - 1)[k] == Around(cells, head, count)[1..][k]
    {
      AroundAt(after, Succ(head, |cells|), count - 1, k);
      AroundAt(cells, head, count, k + 1);
    }
  }

  lemma EmptyAround<T>(cells: seq<T>, head: nat)
    ensures Around(cells, head, 0) == []
  {
  }

  lemma NextIndex(i: nat, n: nat)
    requires i < n
    ensures (i + 1) % n == Succ(i, n) < n
  {
    if i + 1 < n { SmallModulo(i + 1, n); }
  }

  lemma SmallModulo(i: nat, n: nat)
    requires i < n
    ensures i % n == i
  {
  }

  // The index arithmetic of the two ends.
  lemma EndsMove(head: nat, count: nat, n: nat)
    requires head < n && count <= n
    ensures (head + 1) % n == Succ(head, n) < n
    ensures count < n ==> Ahead(head, count, n) < n && (Ahead(head, count, n) + 1) % n == Ahead(head, count + 1, n) < n
    ensures count > 0 ==> Ahead(Succ(head, n), count - 1, n) == Ahead(head, count, n)
  {
    NextIndex(head, n);
    if count < n { NextIndex(Ahead(head, count, n), n); }
  }

  // Session 0 stands for a cleared cell; sessions are numbered from 1.
  class ReadySessionQueue {
    const queue: array<nat>
    var head: nat
    var tail: nat
    var count: nat
    var stopFlag: bool

    ghost predicate Valid()
      reads this, queue
    {
      && queue.Length > 0 && head < queue.Length && tail < queue.Length && count <= queue.Length
      && tail == Ahead(head, count, queue.Length)
    }

    // The sessions waiting, first to be popped first.
    ghost function Waiting(): seq<nat>
      reads this, queue
      requires Valid()
    {
      Around(queue[..], head, count)
    }

    constructor (maxSessionCount: nat)
      requires maxSessionCount > 0
      ensures Valid() && Waiting() == [] && queue.Length == maxSessionCount && fresh(queue) && !stopFlag
    {
      queue := new nat[maxSessionCount](_ => 0);
      head, tail, count, stopFlag := 0, 0, 0, false;
    }

    // Refused exactly when every cell is taken.
    method Push(session: nat) returns (ok: bool)
      requires Valid()
      modifies this`tail, this`count, queue
      ensures Valid() && ok == (|old(Waiting())| < queue.Length)
      ensures Waiting() == if ok then old(Waiting()) + [session] else old(Waiting())
    {
      hide Around, Ahead, Succ;
      if count >= queue.Length {
        return false;
      }
      PushAround(queue[..], head, count, session);
      EndsMove(head, count, queue.Length);
      ghost var before := queue[..];
      queue[tail] := session;
      assert queue[..] == before[tail := session];
      tail := (tail + 1) % queue.Length;
      count := count + 1;
      return true;
    }

    // One look by a popper that is not made to wait: nothing when empty.
    method TryPop() returns (ok: bool, session: nat)
      requires Valid()
      modifies this`head, this`count, queue
      ensures Valid() && ok == (old(Waiting()) != [])
      ensures ok ==> session == old(Waiting())[0] && Waiting() == old(Waiting())[1..]
      ensures !ok ==> Waiting() == []
    {
      hide Around, Ahead, Succ;
      EmptyAround(queue[..], head);
      if count == 0 {
        return false, 0;
      }
      PopAround(queue[..], head, count, 0);
      EndsMove(head, count, queue.Length);
      session := queue[head];
      ghost var before := queue[..];
      queue[head] := 0;
      assert queue[..] == before[head := 0];
      head := (head + 1) % queue.Length;
      count := count - 1;
      return true, session;
    }
  }
}
