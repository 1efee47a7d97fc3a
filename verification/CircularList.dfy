/** The intrusive circular list of common/inc/list.h. A ring is a cyclic sequence of distinct nodes;
    its first element is the list head. */
module CircularList {
  import opened Sequences

  class ListHead {
    var next: ListHead?
    var prev: ListHead?

    constructor ()
      ensures Ring([this])
    {
      next, prev := null, null;
      new;
      ListInit(this);
    }
  }

  /** The next and prev links of r's nodes run through r and close up. */
  ghost predicate Ring(r: seq<ListHead>)
    reads r
  {
    && r != [] && Distinct(r)
    && (forall i :: 0 <= i < |r| - 1 ==> r[i].next == r[i + 1])
    && (forall i :: 0 < i < |r| ==> r[i].prev == r[i - 1])
    && r[|r| - 1].next == r[0] && r[0].prev == r[|r| - 1]
  }

  /** The k-th node's neighbours. */
  lemma Neighbours(r: seq<ListHead>, k: nat)
    requires Ring(r) && k < |r|
    ensures r[k].next == (if k == |r| - 1 then r[0] else r[k + 1])
    ensures r[k].prev == (if k == 0 then r[|r| - 1] else r[k - 1])
  {
  }

  /** No node is in both. */
  ghost predicate Apart(s: seq<ListHead>, t: seq<ListHead>) {
    forall i, j :: 0 <= i < |s| && 0 <= j < |t| ==> s[i] != t[j]
  }

  function InsertAt<T>(s: seq<T>, k: nat, x: T): (r: seq<T>)
    requires k <= |s|
    ensures |r| == |s| + 1
  {
    s[..k] + [x] + s[k..]
  }

  method ListInit(list: ListHead)
    modifies list
    ensures Ring([list])
  {
    list.next := list;
    list.prev := list;
  }

  /** Links item between the neighbours prev and next, the k-th node and its successor. */
  method ListAdd(item: ListHead, prev: ListHead, next: ListHead, ghost r: seq<ListHead>, ghost k: nat)
    requires Ring(r) && k < |r| && item !in r
    requires prev == r[k] && next == (if k + 1 < |r| then r[k + 1] else r[0])
    modifies item, prev`next, next`prev
    ensures Ring(InsertAt(r, k + 1, item))
  {
    next.prev := item;
    item.next := next;
    item.prev := prev;
    prev.next := item;
  }

  method ListAddHead(item: ListHead, head: ListHead, ghost r: seq<ListHead>)
    requires Ring(r) && head == r[0] && item !in r
    modifies item, r
    ensures Ring([head, item] + r[1..])
  {
    assert InsertAt(r, 1, item) == [head, item] + r[1..];
    Neighbours(r, 0);
    ListAdd(item, head, head.next, r, 0);
  }

  method ListAddTail(item: ListHead, head: ListHead, ghost r: seq<ListHead>)
    requires Ring(r) && head == r[0] && item !in r
    modifies item, r
    ensures Ring(r + [item])
  {
    assert InsertAt(r, |r|, item) == r + [item];
    ListAdd(item, head.prev, head, r, |r| - 1);
  }

  method ConnectItem(prev: ListHead, next: ListHead)
    modifies prev`next, next`prev
    ensures next.prev == prev && prev.next == next
  {
    next.prev := prev;
    prev.next := next;
  }

  /** Takes the k-th node out of a ring of several; the node keeps its own links. */
  method DelItem(item: ListHead, ghost r: seq<ListHead>, ghost k: nat)
    requires Ring(r) && |r| > 1 && k < |r| && item == r[k]
    modifies r
    ensures Ring(RemoveAt(r, k))
    ensures item.next == old(item.next) && item.prev == old(item.prev)
  {
    Neighbours(r, k);
    ConnectItem(item.prev, item.next);
  }

  method DelAndClearItem(item: ListHead, ghost r: seq<ListHead>, ghost k: nat)
    requires Ring(r) && |r| > 1 && k < |r| && item == r[k]
    modifies r
    ensures Ring(RemoveAt(r, k))
    ensures item.next == null && item.prev == null
  {
    DelItem(item, r, k);
    RemovedIsGone(r, k);
    item.next := null;
    item.prev := null;
  }

  /** Puts newItem in the place of the k-th node, also when that is the only one. */
  method ReplaceItem(oldItem: ListHead, newItem: ListHead, ghost r: seq<ListHead>, ghost k: nat)
    requires Ring(r) && k < |r| && oldItem == r[k] && newItem !in r
    modifies newItem, r
    ensures Ring(r[k := newItem])
  {
    Neighbours(r, k);
    newItem.next := oldItem.next;
    newItem.next.prev := newItem;
    newItem.prev := oldItem.prev;
    newItem.prev.next := newItem;
  }

  method IsLastItem(item: ListHead, head: ListHead, ghost r: seq<ListHead>) returns (b: bool)
    requires Ring(r) && head == r[0] && item in r
    ensures b <==> item == r[|r| - 1]
  {
    b := item.next == head;
    Neighbours(r, IndexOf(r, item));
  }

  method IsFirstItem(item: ListHead, head: ListHead, ghost r: seq<ListHead>) returns (b: bool)
    requires Ring(r) && head == r[0] && item in r
    ensures b <==> item == r[if |r| == 1 then 0 else 1]
  {
    b := item.prev == head;
    Neighbours(r, IndexOf(r, item));
  }

  method IsEmptyList(head: ListHead, ghost r: seq<ListHead>) returns (b: bool)
    requires Ring(r) && head == r[0]
    ensures b <==> |r| == 1
  {
    b := head.next == head;
    Neighbours(r, 0);
  }

  /** Moves all items of one ring to the front of another; the source head is left as it was. */
  method SpliceList(list: ListHead, head: ListHead, ghost source: seq<ListHead>, ghost target: seq<ListHead>)
    requires Ring(source) && list == source[0] && Ring(target) && head == target[0]
    requires Apart(source, target)
    modifies source, target
    ensures Ring([head] + source[1..] + target[1..])
    ensures list.next == old(list.next) && list.prev == old(list.prev)
  {
    var empty := IsEmptyList(list, source);
    if empty {
      assert [head] + source[1..] + target[1..] == target;
    } else {
      Neighbours(target, 0);
      JoinList(list, head, head.next, source, target);
    }
  }

  method JoinList(list: ListHead, prev: ListHead, next: ListHead, ghost source: seq<ListHead>,
    ghost target: seq<ListHead>)
    requires Ring(source) && |source| > 1 && list == source[0] && Ring(target)
    requires prev == target[0] && next == (if |target| > 1 then target[1] else target[0])
    requires Apart(source, target)
    modifies source, target
    ensures Ring([prev] + source[1..] + target[1..])
    ensures list.next == old(list.next) && list.prev == old(list.prev)
  {
    Neighbours(source, 0);
    var first := list.next;
    var last := list.prev;
    first.prev := prev;
    prev.next := first;
    last.next := next;
    next.prev := last;
    assert forall i :: 0 < i < |source| - 1 ==> source[i].next == source[i + 1];
    assert forall i :: 1 < i < |source| ==> source[i].prev == source[i - 1];
    Spliced(prev, source, target);
  }

  lemma Spliced(prev: ListHead, source: seq<ListHead>, target: seq<ListHead>)
    requires |source| > 1 && target != [] && prev == target[0] && Distinct(source) && Distinct(target)
    requires Apart(source, target)
    requires forall i :: 0 < i < |source| - 1 ==> source[i].next == source[i + 1]
    requires forall i :: 1 < i < |source| ==> source[i].prev == source[i - 1]
    requires forall i :: 0 < i < |target| - 1 ==> target[i].next == target[i + 1]
    requires forall i :: 1 < i < |target| ==> target[i].prev == target[i - 1]
    requires source[1].prev == prev && prev.next == source[1]
    requires |target| > 1 ==> source[|source| - 1].next == target[1] && target[1].prev == source[|source| - 1]
    requires |target| == 1 ==> source[|source| - 1].next == target[0] && target[0].prev == source[|source| - 1]
    requires |target| > 1 ==> target[|target| - 1].next == target[0] && target[0].prev == target[|target| - 1]
    ensures Ring([prev] + source[1..] + target[1..])
  {
  }
}
