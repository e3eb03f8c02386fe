/*
 * The FIFO ready queue: a singly linked list of process copies with front
 * and rear pointers and a size counter. Nodes are appended at the rear and
 * taken from the front.
 */
module ReadyQueue {
  import opened Types

  /** The value queue_dequeue and queue_peek return for an empty queue. */
  const EMPTY_MARKER: Process := CreateProcess(-1, 0, 0, 0)

  class QueueNode {
    var data: Process
    var next: QueueNode?

    constructor (p: Process)
      ensures data == p && next == null
    {
      data := p;
      next := null;
    }
  }

  class Queue {
    var front: QueueNode?
    var rear: QueueNode?
    var size: int

    /** The queued copies, front first. */
    ghost var Contents: seq<Process>
    /** The nodes holding them, in the same order. */
    ghost var Nodes: seq<QueueNode>
    ghost var Repr: set<object>

    ghost predicate Valid()
      reads this, Repr
    {
      && this in Repr
      && size == |Nodes| == |Contents|
      && (forall i :: 0 <= i < |Nodes| ==>
            Nodes[i] in Repr && Nodes[i].data == Contents[i] && (i + 1 < |Nodes| ==> Nodes[i].next == Nodes[i + 1]))
      && (forall i, j :: 0 <= i < j < |Nodes| ==> Nodes[i] != Nodes[j])
      && (if Nodes == [] then front == null && rear == null
          else front == Nodes[0] && rear == Nodes[|Nodes| - 1] && rear.next == null)
    }

    /** queue_create. */
    constructor ()
      ensures Valid() && fresh(Repr)
      ensures Contents == []
    {
      front, rear, size := null, null, 0;
      Contents, Nodes := [], [];
      Repr := {this};
    }

    /** queue_is_empty. */
    function IsEmpty(): (b: bool)
      requires Valid()
      reads this, Repr
      ensures b <==> Contents == []
    {
      size == 0
    }

    /** queue_get_size. */
    function GetSize(): (n: int)
      requires Valid()
      reads this, Repr
      ensures n == |Contents|
    {
      size
    }

    /** queue_enqueue: a new node at the rear (also the front when the queue was empty). */
    method Enqueue(p: Process)
      requires Valid()
      modifies Repr
      ensures Valid() && fresh(Repr - old(Repr))
      ensures Contents == old(Contents) + [p]
    {
      var node := new QueueNode(p);
      if IsEmpty() {
        front := node;
        rear := node;
      } else {
        rear.next := node;
        rear := node;
      }
      size := size + 1;
      Nodes := Nodes + [node];
      Contents := Contents + [p];
      Repr := Repr + {node};
    }

    /**
     * queue_dequeue: the front copy, unlinked; on an empty queue the marker
     * process with id -1 and no change.
     */
    method Dequeue() returns (p: Process)
      requires Valid()
      modifies this
      ensures Valid() && Repr == old(Repr)
      ensures old(Contents) == [] ==> p == EMPTY_MARKER && Contents == []
      ensures old(Contents) != [] ==> p == old(Contents)[0] && Contents == old(Contents)[1..]
      ensures Contents == [] ==> front == null && rear == null
    {
      if IsEmpty() {
        return EMPTY_MARKER;
      }
      var node := front;
      p := node.data;
      front := node.next;
      if front == null {
        rear := null;
      }
      size := size - 1;
      Nodes := Nodes[1..];
      Contents := Contents[1..];
    }

    /** queue_peek: the front copy, or the marker; the queue is left as it was. */
    method Peek() returns (p: Process)
      requires Valid()
      ensures Contents == [] ==> p == EMPTY_MARKER
      ensures Contents != [] ==> p == Contents[0]
    {
      if IsEmpty() {
        return EMPTY_MARKER;
      }
      p := front.data;
    }
  }

  /**
   * The demonstration in main.cpp: enqueue P1, P2, P3, dequeue one, peek at
   * the next and read the size.
   */
  method QueueDemo() returns (dequeued: int, peeked: int, size: int)
    ensures dequeued == 1 && peeked == 2 && size == 2
  {
    var q := new Queue();
    q.Enqueue(CreateProcess(1, 0, 5));
    q.Enqueue(CreateProcess(2, 1, 3));
    q.Enqueue(CreateProcess(3, 2, 4));
    var p := q.Dequeue();
    var r := q.Peek();
    dequeued, peeked, size := p.id, r.id, q.GetSize();
  }
}
