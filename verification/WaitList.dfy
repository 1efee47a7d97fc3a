/** The doubly linked list of waiting callers in common/src/pwrbuffer.c. */
module WaitList {
  import opened Outcomes
  import opened PwrMessage
  import opened Sequences

  // ---------------------------------------------------------------- the list as a sequence

  /** What MoveOutWaitingMsg leaves when its walk starts at the node start (None: a null pointer). */
  function AfterMoveOut<T(==)>(s: seq<T>, start: Option<T>, x: T): seq<T> {
    if start.Some? && start.value in s && x in s && IndexOf(s, start.value) <= IndexOf(s, x)
    then RemoveAt(s, IndexOf(s, x)) else s
  }

  /** The walk from start gets to x. */
  predicate Reaches<T(==)>(s: seq<T>, start: Option<T>, x: T) {
    start == Some(x) || (start.Some? && start.value in s && x in s && IndexOf(s, start.value) <= IndexOf(s, x))
  }

  lemma ReachedIsRemoved<T>(s: seq<T>, start: Option<T>, x: T)
    ensures AfterMoveOut(s, start, x) == if Reaches(s, start, x) && x in s then RemoveAt(s, IndexOf(s, x)) else s
    ensures x !in s ==> (Reaches(s, start, x) <==> start == Some(x))
  {
  }

  /** The walk takes x out exactly when x was already out or the starting point is still a list
      node at or before x. MoveOutWaitingMsg reads its starting point before it takes the lock. */
  lemma MoveOutSucceedsIff<T>(s: seq<T>, start: Option<T>, x: T)
    requires Distinct(s)
    ensures x !in AfterMoveOut(s, start, x) <==>
      x !in s || (start.Some? && start.value in s && IndexOf(s, start.value) <= IndexOf(s, x))
  {
  }

  class ResultWaitingMsgNode {
    var next: ResultWaitingMsgNode?
    var prev: ResultWaitingMsgNode?
    var reqMsg: Option<PwrMsg>
    var rspMsg: Option<PwrMsg>

    /** CreateResultWaitingMsgNode */
    constructor ()
      ensures Cleared()
    {
      next, prev, reqMsg, rspMsg := null, null, None, None;
    }

    /** The node's request is still set and has this sequence id. */
    predicate Matches(seqId: u32)
      reads this
    {
      reqMsg.Some? && reqMsg.value.head.seqId == seqId
    }

    /** What ReleaseResultWaitingMsgNode leaves of a node; its memory is not freed. */
    predicate Cleared()
      reads this
    {
      next == null && prev == null && reqMsg == None && rspMsg == None
    }
  }

  /** A pointer that may be null. */
  function Pointer(n: ResultWaitingMsgNode?): Option<ResultWaitingMsgNode> { if n == null then None else Some(n) }

  class ResultWaitingMsgList {
    var head: ResultWaitingMsgNode?
    var tail: ResultWaitingMsgNode?
    /** The nodes from head to tail. */
    ghost var nodes: seq<ResultWaitingMsgNode>

    ghost predicate Valid()
      reads this, nodes
    {
      && Distinct(nodes)
      && (nodes == [] ==> head == null && tail == null)
      && (nodes != [] ==>
        && head == nodes[0] && tail == nodes[|nodes| - 1]
        && nodes[0].prev == null && nodes[|nodes| - 1].next == null)
      && (forall i :: 0 < i < |nodes| ==> nodes[i].prev == nodes[i - 1])
      && (forall i :: 0 <= i < |nodes| - 1 ==> nodes[i].next == nodes[i + 1])
    }

    constructor ()
      ensures Valid() && nodes == []
    {
      head, tail, nodes := null, null, [];
    }

    /** Unlinks the k-th node: the only one, the first, the last, or one in between. */
    method Unlink(node: ResultWaitingMsgNode, ghost k: nat)
      requires Valid() && k < |nodes| && nodes[k] == node
      modifies this, (set n | n in nodes)`next, (set n | n in nodes)`prev
      ensures Valid() && nodes == RemoveAt(old(nodes), k)
      ensures node.next == null && node.prev == null && node !in nodes
    {
      assert 0 < k ==> nodes[k].prev == nodes[k - 1];
      assert k < |nodes| - 1 ==> nodes[k].next == nodes[k + 1];
      if node == head && head == tail {
        head, tail := null, null;
      } else if node == head {
        head := node.next;
        head.prev := null;
      } else if node == tail {
        tail := node.prev;
        tail.next := null;
      } else {
        node.prev.next := node.next;
        node.next.prev := node.prev;
      }
      node.next := null;
      node.prev := null;
      nodes := RemoveAt(nodes, k);
    }

    /** MoveFromList: unlinks a listed node. For a node that has left the list the case in between follows
        its null links, which ends the process. */
    method MoveFromList(node: ResultWaitingMsgNode, ghost k: nat) returns (ended: bool)
      requires Valid()
      requires if node in nodes then k < |nodes| && nodes[k] == node else node.next == null && node.prev == null
      modifies this, (set n | n in nodes)`next, (set n | n in nodes)`prev
      ensures Valid() && (ended <==> node !in old(nodes))
      ensures node !in nodes && node.next == null && node.prev == null
      ensures nodes == if ended then old(nodes) else RemoveAt(old(nodes), k)
    {
      if node in nodes {
        assert 0 < k ==> nodes[k].prev == nodes[k - 1];
        assert k < |nodes| - 1 ==> nodes[k].next == nodes[k + 1];
      }
      ended := node != head && node != tail && (node.prev == null || node.next == null);
      if !ended { Unlink(node, k); }
    }

    method AddToWaitingListTail(newNode: ResultWaitingMsgNode)
      requires Valid() && newNode !in nodes
      modifies this, newNode`next, newNode`prev, (set n | n in nodes)`next
      ensures Valid() && nodes == old(nodes) + [newNode]
    {
      if tail == null || head == null {
        head := newNode;
        tail := newNode;
        newNode.next := null;
        newNode.prev := null;
      } else {
        newNode.prev := tail;
        newNode.next := null;
        tail.next := newNode;
        tail := newNode;
      }
      nodes := nodes + [newNode];
    }

    /** Takes out the first node whose request has this sequence id; null when there is none. */
    method FindAndMoveWaitingMsg(seqId: u32) returns (r: ResultWaitingMsgNode?, ghost k: nat)
      requires Valid()
      modifies this, (set n | n in nodes)`next, (set n | n in nodes)`prev
      ensures Valid() && k <= |old(nodes)|
      ensures forall j :: 0 <= j < k ==> !old(nodes)[j].Matches(seqId)
      ensures r == null ==> k == |old(nodes)| && nodes == old(nodes)
      ensures r != null ==>
        && k < |old(nodes)| && r == old(nodes)[k] && r.Matches(seqId)
        && nodes == RemoveAt(old(nodes), k)
        && r.next == null && r.prev == null && r !in nodes
    {
      r, k := null, 0;
      var pc := head;
      while pc != null
        invariant k <= |nodes| && pc == (if k < |nodes| then nodes[k] else null)
        invariant forall j :: 0 <= j < k ==> !nodes[j].Matches(seqId)
        decreases |nodes| - k
      {
        if pc.reqMsg != None && pc.reqMsg.value.head.seqId == seqId {
          var _ := MoveFromList(pc, k);
          r := pc;
          return;
        }
        pc := pc.next;
        k := k + 1;
      }
    }

    /** The walk of MoveOutWaitingMsg from a starting point that was read earlier: whether it gets to node.
        A node that has left the list has null links. */
    method WalkTo(start: ResultWaitingMsgNode?, node: ResultWaitingMsgNode) returns (found: bool)
      requires Valid() && (start != null && start !in nodes ==> start.next == null)
      ensures found == Reaches<ResultWaitingMsgNode>(nodes, Pointer(start), node)
    {
      var pc := start;
      ghost var listed := start != null && start in nodes;
      ghost var first := if listed then IndexOf(nodes, start) else 0;
      ghost var k := first;
      while pc != null
        invariant first <= k
        invariant listed ==> k <= |nodes| && pc == (if k < |nodes| then nodes[k] else null)
        invariant listed ==> forall j :: first <= j < k ==> nodes[j] != node
        invariant !listed ==> if k == 0 then pc == start else pc == null && start != node
        decreases if listed then |nodes| - k else 1 - k
      {
        if pc == node { return true; }
        pc := pc.next;
        k := k + 1;
      }
      found := false;
    }

    /** MoveOutWaitingMsg from a starting point that was read earlier; started at node itself after it has
        left the list, it unlinks it again. */
    method MoveOutFrom(start: ResultWaitingMsgNode?, node: ResultWaitingMsgNode) returns (ended: bool)
      requires Valid()
      requires start != null && start !in nodes ==> start.next == null && start.prev == null
      modifies this, (set n | n in nodes)`next, (set n | n in nodes)`prev
      ensures Valid()
      ensures ended <==> start == node && node !in old(nodes)
      ensures nodes == AfterMoveOut<ResultWaitingMsgNode>(old(nodes), Pointer(start), node)
    {
      hide Reaches, AfterMoveOut, RemoveAt, Distinct;
      ended := false;
      var found := WalkTo(start, node);
      ReachedIsRemoved<ResultWaitingMsgNode>(nodes, Pointer(start), node);
      if found { ended := MoveFromList(node, IndexOf<ResultWaitingMsgNode>(nodes, node)); }
    }

    /** Takes exactly the given node out, or changes nothing when it is not in the list: the call with
        no other thread between its reading of the head and its taking of the lock. */
    method MoveOutWaitingMsg(node: ResultWaitingMsgNode)
      requires Valid()
      modifies this, (set n | n in nodes)`next, (set n | n in nodes)`prev
      ensures Valid() && node !in nodes
      ensures nodes == if node in old(nodes) then RemoveAt(old(nodes), IndexOf(old(nodes), node)) else old(nodes)
    {
      MoveOutSucceedsIff<ResultWaitingMsgNode>(nodes, Pointer(head), node);
      var _ := MoveOutFrom(head, node);
    }

    /** Clears a node, links included. The list stays well linked exactly if the node is not in it, or
        alone in it; otherwise a walk from the head ends there. */
    method ReleaseResultWaitingMsgNode(node: ResultWaitingMsgNode)
      requires Valid()
      modifies node
      ensures node.Cleared() && nodes == old(nodes) && head == old(head) && tail == old(tail)
      ensures Valid() <==> node !in nodes || |nodes| == 1
    {
      node.reqMsg, node.rspMsg := None, None;
      node.next, node.prev := null, null;
      if node in nodes {
        ghost var k :| 0 <= k < |nodes| && nodes[k] == node;
        assert k < |nodes| - 1 ==> nodes[k].next != nodes[k + 1];
        assert k > 0 ==> nodes[k].prev != nodes[k - 1];
      }
    }

    /** Releases every node and empties the list. */
    method ResetResultWaitingList()
      requires Valid()
      modifies this, nodes
      ensures Valid() && nodes == []
      ensures forall n :: n in old(nodes) ==> n.Cleared()
    {
      var pc := head;
      ghost var k := 0;
      while pc != null
        invariant k <= |nodes| && nodes == old(nodes) && pc == (if k < |nodes| then nodes[k] else null)
        invariant forall i :: k <= i < |nodes| - 1 ==> nodes[i].next == nodes[i + 1]
        invariant k < |nodes| ==> nodes[|nodes| - 1].next == null
        invariant forall i :: 0 <= i < k ==> nodes[i].Cleared()
        decreases |nodes| - k
      {
        var pn := pc.next;
        pc.reqMsg, pc.rspMsg := None, None;
        pc.next, pc.prev := null, null;
        pc := pn;
        k := k + 1;
      }
      head, tail := null, null;
      nodes := [];
    }
  }
}
