/*
 * The doubly linked list of linked_list.cpp: nodes holding process copies,
 * each linked to its successor and its predecessor, with head and tail
 * pointers and a size counter.
 */
module ProcessList {
  import opened Types

  /** The value list_remove_front and list_remove_back return for an empty list. */
  const EMPTY_MARKER: Process := CreateProcess(-1, 0, 0, 0)

  class ListNode {
    var data: Process
    var next: ListNode?
    var prev: ListNode?

    constructor (p: Process, before: ListNode?, after: ListNode?)
      ensures data == p && prev == before && next == after
    {
      data := p;
      prev := before;
      next := after;
    }
  }

  /** The position of a node in a sequence of distinct nodes. */
  ghost function IndexOf(nodes: seq<ListNode>, node: ListNode): (k: nat)
    requires node in nodes
    ensures k < |nodes| && nodes[k] == node
    ensures forall j :: 0 <= j < k ==> nodes[j] != node
  {
    if nodes[0] == node then 0 else 1 + IndexOf(nodes[1..], node)
  }

  /** The index of the first process with identifier `id`, if there is one. */
  function FirstWithId(ps: seq<Process>, id: int): (r: Option<nat>)
    ensures r.None? <==> forall k :: 0 <= k < |ps| ==> ps[k].id != id
    ensures r.Some? ==> r.value < |ps| && ps[r.value].id == id
                        && forall k :: 0 <= k < r.value ==> ps[k].id != id
  {
    if ps == [] then None
    else if ps[0].id == id then Some(0)
    else match FirstWithId(ps[1..], id)
      case None => None
      case Some(k) => Some(k + 1)
  }

  /** Dropping element `k` shifts every later element one place down. */
  lemma Shifted<T>(s: seq<T>, k: nat)
    requires k < |s|
    ensures |s[..k] + s[k + 1..]| == |s| - 1
    ensures forall i :: 0 <= i < |s| - 1 ==> (s[..k] + s[k + 1..])[i] == (if i < k then s[i] else s[i + 1])
  {
  }

  /**
   * The forward links: `first` is the first node, each node's successor is
   * the node after it and the last node has none.
   */
  ghost predicate ForwardLinked(nodes: seq<ListNode>, first: ListNode?)
    reads nodes
  {
    && first == (if nodes == [] then null else nodes[0])
    && (forall i :: 0 <= i < |nodes| - 1 ==> nodes[i].next == nodes[i + 1])
    && (nodes != [] ==> nodes[|nodes| - 1].next == null)
  }

  /**
   * The backward links: `last` is the last node, each node's predecessor is
   * the node before it and the first node has none.
   */
  ghost predicate BackwardLinked(nodes: seq<ListNode>, last: ListNode?)
    reads nodes
  {
    && last == (if nodes == [] then null else nodes[|nodes| - 1])
    && (forall i :: 0 < i < |nodes| ==> nodes[i].prev == nodes[i - 1])
    && (nodes != [] ==> nodes[0].prev == null)
  }

  class LinkedList {
    var head: ListNode?
    var tail: ListNode?
    var size: int

    /** The listed copies, head first. */
    ghost var Contents: seq<Process>
    /** The nodes holding them, in the same order. */
    ghost var Nodes: seq<ListNode>
    ghost var Repr: set<object>

    /** The node sequence matches the contents and the counter, without repeats. */
    ghost predicate Stored()
      reads this, Repr
    {
      && this in Repr
      && size == |Nodes| == |Contents|
      && (forall i :: 0 <= i < |Nodes| ==> Nodes[i] in Repr && Nodes[i].data == Contents[i])
      && (forall i, j :: 0 <= i < j < |Nodes| ==> Nodes[i] != Nodes[j])
    }

    ghost predicate Valid()
      reads this, Repr
    {
      && Stored()
      && ForwardLinked(Nodes, head)
      && BackwardLinked(Nodes, tail)
    }

    /** list_create. */
    constructor ()
      ensures Valid() && fresh(Repr)
      ensures Contents == []
    {
      head, tail, size := null, null, 0;
      Contents, Nodes := [], [];
      Repr := {this};
    }

    /** list_is_empty. */
    function IsEmpty(): (b: bool)
      requires Valid()
      reads this, Repr
      ensures b <==> Contents == []
    {
      size == 0
    }

    /** list_get_size. */
    function GetSize(): (n: int)
      requires Valid()
      reads this, Repr
      ensures n == |Contents|
    {
      size
    }

    /** list_insert_front: a new head, linked back from the old one. */
    method InsertFront(p: Process)
      requires Valid()
      modifies Repr
      ensures Valid() && fresh(Repr - old(Repr))
      ensures Contents == [p] + old(Contents)
    {
      var node := new ListNode(p, null, head);
      if head != null {
        head.prev := node;
      }
      head := node;
      if tail == null {
        tail := node;
      }
      size := size + 1;
      Nodes := [node] + Nodes;
      Contents := [p] + Contents;
      Repr := Repr + {node};
    }

    /** list_insert_back: a new tail, linked forward from the old one. */
    method InsertBack(p: Process)
      requires Valid()
      modifies Repr
      ensures Valid() && fresh(Repr - old(Repr))
      ensures Contents == old(Contents) + [p]
    {
      var node := new ListNode(p, tail, null);
      if tail != null {
        tail.next := node;
      }
      tail := node;
      if head == null {
        head := node;
      }
      size := size + 1;
      Nodes := Nodes + [node];
      Contents := Contents + [p];
      Repr := Repr + {node};
    }

    /**
     * list_remove_front: the head copy, unlinked; on an empty list the
     * marker process with id -1 and no change.
     */
    method RemoveFront() returns (p: Process)
      requires Valid()
      modifies Repr
      ensures Valid() && Repr == old(Repr)
      ensures old(Contents) == [] ==> p == EMPTY_MARKER && Contents == []
      ensures old(Contents) != [] ==> p == old(Contents)[0] && Contents == old(Contents)[1..]
    {
      if IsEmpty() {
        return EMPTY_MARKER;
      }
      assert head.next == (if 1 < |Nodes| then Nodes[1] else null);
      p := head.data;
      head := head.next;
      if head != null {
        head.prev := null;
      } else {
        tail := null;
      }
      size := size - 1;
      Nodes := Nodes[1..];
      Contents := Contents[1..];
    }

    /**
     * list_remove_back: the tail copy, unlinked; on an empty list the
     * marker process with id -1 and no change.
     */
    method RemoveBack() returns (p: Process)
      requires Valid()
      modifies Repr
      ensures Valid() && Repr == old(Repr)
      ensures old(Contents) == [] ==> p == EMPTY_MARKER && Contents == []
      ensures old(Contents) != [] ==>
        p == old(Contents)[|old(Contents)| - 1] && Contents == old(Contents)[..|old(Contents)| - 1]
    {
      if IsEmpty() {
        return EMPTY_MARKER;
      }
      assert tail.prev == (if 1 < |Nodes| then Nodes[|Nodes| - 2] else null);
      p := tail.data;
      tail := tail.prev;
      if tail != null {
        tail.next := null;
      } else {
        head := null;
      }
      size := size - 1;
      Nodes := Nodes[..|Nodes| - 1];
      Contents := Contents[..|Contents| - 1];
    }

    /**
     * list_remove_node: a node of this list is unlinked from both its
     * neighbours (or from head/tail); a null node changes nothing.
     */
    method RemoveNode(node: ListNode?)
      requires Valid() && (node == null || node in Nodes)
      modifies Repr
      ensures Valid() && Repr == old(Repr)
      ensures node == null ==> Contents == old(Contents)
      ensures node != null ==>
        Contents == old(Contents)[..IndexOf(old(Nodes), node)] + old(Contents)[IndexOf(old(Nodes), node) + 1..]
    {
      if node == null {
        return;
      }
      ghost var k := IndexOf(Nodes, node);
      assert node.prev == (if 0 < k then Nodes[k - 1] else null);
      SkipForward(node, k);
      SkipBackward(node, k);
    }

    /**
     * The first half of list_remove_node: the predecessor of node `k` (or
     * the head pointer) is pointed past it.
     */
    method SkipForward(node: ListNode, ghost k: nat)
      requires Valid() && k < |Nodes| && Nodes[k] == node
      modifies this, node.prev
      ensures Stored() && Nodes == old(Nodes) && Contents == old(Contents) && Repr == old(Repr)
      ensures BackwardLinked(Nodes, tail)
      ensures ForwardLinked(Nodes[..k] + Nodes[k + 1..], head)
      ensures node.next == (if k + 1 < |Nodes| then Nodes[k + 1] else null)
    {
      Shifted(Nodes, k);
      var before, after := node.prev, node.next;
      assert before == (if 0 < k then Nodes[k - 1] else null);
      assert after == (if k + 1 < |Nodes| then Nodes[k + 1] else null);
      if before != null {
        before.next := after;
      } else {
        head := after;
      }
    }

    /**
     * The second half of list_remove_node: the successor of node `k` (or
     * the tail pointer) is pointed back past it, and the counter drops.
     */
    method SkipBackward(node: ListNode, ghost k: nat)
      requires Stored() && k < |Nodes| && Nodes[k] == node
      requires BackwardLinked(Nodes, tail) && ForwardLinked(Nodes[..k] + Nodes[k + 1..], head)
      requires node.next == (if k + 1 < |Nodes| then Nodes[k + 1] else null)
      modifies this, node.next
      ensures Valid() && Repr == old(Repr)
      ensures Nodes == old(Nodes)[..k] + old(Nodes)[k + 1..]
      ensures Contents == old(Contents)[..k] + old(Contents)[k + 1..]
    {
      ghost var rest := Nodes[..k] + Nodes[k + 1..];
      Shifted(Nodes, k);
      Shifted(Contents, k);
      var before, after := node.prev, node.next;
      if after != null {
        after.prev := before;
      } else {
        tail := before;
      }
      size := size - 1;
      Nodes := rest;
      Contents := Contents[..k] + Contents[k + 1..];
    }

    /**
     * list_find_by_id: the first node, from the head, whose process has
     * the given identifier, or null when there is none.
     */
    method FindById(id: int) returns (r: ListNode?)
      requires Valid()
      ensures FirstWithId(Contents, id).None? ==> r == null
      ensures FirstWithId(Contents, id).Some? ==> r == Nodes[FirstWithId(Contents, id).value]
    {
      var current := head;
      ghost var j := 0;
      while current != null
        invariant 0 <= j <= |Nodes|
        invariant current == (if j < |Nodes| then Nodes[j] else null)
        invariant forall m :: 0 <= m < j ==> Contents[m].id != id
        decreases |Nodes| - j
      {
        if current.data.id == id {
          FirstFound(Contents, id, j);
          return current;
        }
        current := current.next;
        j := j + 1;
      }
      return null;
    }
  }

  /** A match preceded only by other identifiers is the first match. */
  lemma {:induction false} FirstFound(ps: seq<Process>, id: int, j: nat)
    requires j < |ps| && ps[j].id == id
    requires forall m :: 0 <= m < j ==> ps[m].id != id
    ensures FirstWithId(ps, id) == Some(j)
  {
    if j > 0 {
      FirstFound(ps[1..], id, j - 1);
    }
  }

  /**
   * The demonstration in main.cpp: insert P1 and P2 at the back and P3 at
   * the front, then remove one from each end and read the size.
   */
  method ListDemo() returns (front: int, back: int, size: int)
    ensures front == 3 && back == 2 && size == 1
  {
    var l := new LinkedList();
    l.InsertBack(CreateProcess(1, 0, 5));
    l.InsertBack(CreateProcess(2, 1, 3));
    l.InsertFront(CreateProcess(3, 2, 4));
    var p := l.RemoveFront();
    var q := l.RemoveBack();
    front, back, size := p.id, q.id, l.GetSize();
  }
}
