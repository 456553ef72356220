/** A session's job queue: a first-in first-out list linked through the jobs themselves. */
module SessionJobQueue {
  import opened Tally

  class Job {
    var next: Job?
    const packet: nat

    constructor (packet: nat)
      ensures this.packet == packet && next == null
    {
      this.packet, next := packet, null;
    }
  }

  function Follower(items: seq<Job>, i: nat): Job?
  {
    if i + 1 < |items| then items[i + 1] else null
  }

  // The list from its first element through the links.
  ghost predicate Linked(items: seq<Job>)
    reads items
  {
    forall i :: 0 <= i < |items| ==> items[i].next == Follower(items, i)
  }

  class SessionJobQueue {
    var head: Job?
    var tail: Job?
    var count: nat
    var peakCount: nat
    // The jobs waiting, oldest first.
    ghost var items: seq<Job>

    ghost predicate Valid()
      reads this, items
    {
      && Linked(items) && Distinct(items) && count == |items| <= peakCount
      && head == (if items == [] then null else items[0])
      && tail == (if items == [] then null else items[|items| - 1])
    }

    constructor ()
      ensures Valid() && items == [] && peakCount == 0
    {
      head, tail, count, peakCount, items := null, null, 0, 0, [];
    }

    method EnqueueJob(job: Job?) returns (ok: bool, wasEmpty: bool)
      requires Valid() && (job != null ==> job !in items)
      modifies this, items, if job != null then {job} else {}
      ensures Valid() && ok == (job != null)
      ensures job != null ==> items == old(items) + [job] && wasEmpty == (old(items) == [])
                              && peakCount == if |items| > old(peakCount) then |items| else old(peakCount)
      ensures job == null ==> items == old(items) && peakCount == old(peakCount)
    {
      if job == null {
        return false, false;
      }
      wasEmpty := head == null;
      job.next := null;
      if tail != null {
        tail.next := job;
        tail := job;
      } else {
        head := job;
        tail := job;
      }
      count := count + 1;
      if count > peakCount {
        peakCount := count;
      }
      items := items + [job];
      return true, wasEmpty;
    }

    // Takes the oldest job; false exactly when there is none.
    method DequeueJob() returns (ok: bool, job: Job?)
      requires Valid()
      modifies this
      ensures Valid() && ok == (old(items) != []) && peakCount == old(peakCount)
      ensures ok ==> job == old(items)[0] && items == old(items)[1..]
      ensures !ok ==> job == null && items == []
    {
      if head == null {
        return false, null;
      }
      job := head;
      ghost var was := items;
      assert was[0].next == Follower(was, 0);
      head := head.next;
      if head == null {
        tail := null;
      }
      count := count - 1;
      items := items[1..];
      forall i | 0 <= i < |items| ensures items[i].next == Follower(items, i) {
        assert items[i] == was[i + 1];
      }
      return true, job;
    }

    // Gives every waiting job back once, oldest first, and forgets the peak.
    method Reset() returns (released: seq<Job>)
      requires Valid()
      modifies this
      ensures Valid() && items == [] && peakCount == 0
      ensures released == old(items)
    {
      released := [];
      var job := head;
      ghost var i := 0;
      while job != null
        invariant 0 <= i <= |items| && released == items[..i] && items == old(items)
        invariant Linked(items) && job == (if i < |items| then items[i] else null)
        invariant unchanged(this)
        decreases |items| - i
      {
        assert items[i].next == Follower(items, i);
        var next := job.next;
        released := released + [job];
        job := next;
        i := i + 1;
      }
      head, tail, count, peakCount := null, null, 0, 0;
      items := [];
    }

    method IsEmpty() returns (empty: bool)
      requires Valid()
      ensures empty == (items == [])
    {
      return count == 0;
    }
  }
}
