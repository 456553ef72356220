/** The session pool's free list: nodes linked through themselves, each with its pool state. */
module ClientSessionPool {

  import opened SessionProtocol

  class SessionNode {
    const id: nat
    var nextNode: SessionNode?
    var poolState: PoolState

    constructor (id: nat)
      ensures this.id == id && nextNode == null && poolState == Free
    {
      this.id, nextNode, poolState := id, null, Free;
    }
  }

  function Follower(list: seq<SessionNode>, i: nat): SessionNode?
  {
    if i + 1 < |list| then list[i + 1] else null
  }

  class ClientSessionPool {
    var nodes: seq<SessionNode>
    var freeList: SessionNode?
    // The free list, first to be handed out first.
    ghost var free: seq<SessionNode>

    // The list is acyclic, holds no node twice, and holds exactly the FREE nodes.
    ghost predicate Valid()
      reads this, nodes, free
    {
      && (forall i :: 0 <= i < |nodes| ==> nodes[i].id == i)
      && (forall i, j :: 0 <= i < j < |free| ==> free[i] != free[j])
      && (forall i :: 0 <= i < |free| ==> free[i] in nodes && free[i].nextNode == Follower(free, i))
      && freeList == (if free == [] then null else free[0])
      && (forall n :: n in nodes ==> (n.poolState == Free <==> n in free))
    }

    constructor (capacity: nat)
      ensures Valid() && |nodes| == capacity && fresh(nodes) && |free| == capacity
      ensures forall n :: n in nodes ==> n.poolState == Free
    {
      nodes, freeList, free := [], null, [];
      new;
      var i := 0;
      while i < capacity
        invariant 0 <= i <= capacity && |nodes| == i == |free| && fresh(nodes) && Valid()
        invariant forall n :: n in nodes ==> n.poolState == Free
      {
        AddNode(i);
        i := i + 1;
      }
    }

    // One more node, at the head of the list.
    method AddNode(id: nat)
      requires Valid() && id == |nodes|
      modifies this
      ensures Valid() && |nodes| == id + 1 && fresh(nodes[id]) && nodes[id].poolState == Free
      ensures free == [nodes[id]] + old(free)
      ensures forall n :: n in old(nodes) ==> n.poolState == old(n.poolState)
      ensures nodes == old(nodes) + [nodes[id]]
    {
      var node := new SessionNode(id);
      assert node !in free && node !in nodes;
      node.nextNode := freeList;
      freeList := node;
      ghost var was := free;
      nodes := nodes + [node];
      free := [node] + free;
      forall i | 0 <= i < |free| ensures free[i] in nodes && free[i].nextNode == Follower(free, i) {
        if i > 0 { assert free[i] == was[i - 1]; }
      }
    }

    // Hands out the first free node, or nothing exactly when none is free.
    method Acquire() returns (node: SessionNode?)
      requires Valid()
      modifies this`freeList, this`free, nodes
      ensures Valid() && nodes == old(nodes)
      ensures node == null <==> old(free) == []
      ensures node == null <==> forall n :: n in nodes ==> old(n.poolState) != Free
      ensures node != null ==> node == old(free)[0] && old(node.poolState) == Free && node.poolState == InUse && node.nextNode == null
                               && free == old(free)[1..]
                               && forall n :: n in nodes && n != node ==> n.poolState == old(n.poolState)
      ensures node == null ==> free == old(free) && forall n :: n in nodes ==> n.poolState == old(n.poolState)
    {
      if freeList == null {
        return null;
      }
      ghost var was := free;
      assert was[0] in nodes && was[0].nextNode == Follower(was, 0);
      node := freeList;
      freeList := node.nextNode;
      node.nextNode := null;
      // the exchange from FREE: the list holds FREE nodes only
      assert node.poolState == Free;
      node.poolState := InUse;
      free := free[1..];
      forall i | 0 <= i < |free| ensures free[i] in nodes && free[i].nextNode == Follower(free, i) {
        assert free[i] == was[i + 1];
      }
    }

    // The IN_USE -> RELEASING exchange of Release: the one caller that wins goes on to finish.
    method BeginRelease(node: SessionNode) returns (won: bool)
      requires Valid() && node in nodes
      modifies node`poolState
      ensures Valid() && nodes == old(nodes) && free == old(free)
      ensures won == (old(node.poolState) == InUse)
      ensures node.poolState == if won then Releasing else old(node.poolState)
    {
      if node.poolState != InUse {
        return false;
      }
      node.poolState := Releasing;
      return true;
    }

    // The last section of CompleteRelease, under the pool lock.
    method FinishRelease(node: SessionNode)
      requires Valid() && node in nodes && node.poolState == Releasing
      modifies this`freeList, this`free, node
      ensures Valid() && nodes == old(nodes)
      ensures free == [node] + old(free) && node.poolState == Free
    {
      node.nextNode := freeList;
      freeList := node;
      node.poolState := Free;
      free := [node] + free;
    }

    // The sessions not free, whatever is going on in them.
    method GetInUseCount() returns (count: nat)
      requires Valid()
      ensures count == |nodes| - |free|
    {
      count := 0;
      var i := 0;
      ghost var seen: set<SessionNode> := {};
      while i < |nodes|
        invariant 0 <= i <= |nodes|
        invariant forall n :: n in seen <==> n in nodes[..i] && n.poolState == Free
        invariant count + |seen| == i
      {
        assert nodes[..i + 1] == nodes[..i] + [nodes[i]];
        assert nodes[i] !in nodes[..i] by { assert forall k :: 0 <= k < i ==> nodes[k].id != nodes[i].id; }
        if nodes[i].poolState != Free {
          count := count + 1;
        } else {
          seen := seen + {nodes[i]};
        }
        i := i + 1;
      }
      assert nodes[..i] == nodes;
      assert seen == set n | n in free;
      CountDistinct(free);
    }
  }

  lemma {:induction false} CountDistinct(list: seq<SessionNode>)
    requires forall i, j :: 0 <= i < j < |list| ==> list[i] != list[j]
    ensures |set n | n in list| == |list|
  {
    if list != [] {
      var init, last := list[..|list| - 1], list[|list| - 1];
      CountDistinct(init);
      assert (set n | n in list) == (set n | n in init) + {last};
      assert last !in init;
    }
  }
}
