/*
 * The LIFO stacks of stack.cpp: a singly linked list of process copies with
 * a top pointer and a size counter, and the same structure over execution
 * records. Nodes are pushed on and popped off the top.
 */
module ProcessStack {
  import opened Types

  /** The value stack_pop and stack_peek return for an empty stack. */
  const EMPTY_MARKER: Process := CreateProcess(-1, 0, 0, 0)
  /** The value exec_stack_pop returns for an empty execution stack. */
  const EMPTY_RECORD: ExecutionRecord := ExecutionRecord(-1, 0, 0)

  class StackNode {
    var data: Process
    var next: StackNode?

    constructor (p: Process, below: StackNode?)
      ensures data == p && next == below
    {
      data := p;
      next := below;
    }
  }

  class Stack {
    var top: StackNode?
    var size: int

    /** The stacked copies, top first. */
    ghost var Contents: seq<Process>
    /** The nodes holding them, in the same order. */
    ghost var Nodes: seq<StackNode>
    ghost var Repr: set<object>

    ghost predicate Valid()
      reads this, Repr
    {
      && this in Repr
      && size == |Nodes| == |Contents|
      && (forall i :: 0 <= i < |Nodes| ==>
            && Nodes[i] in Repr && Nodes[i].data == Contents[i]
            && (i + 1 < |Nodes| ==> Nodes[i].next == Nodes[i + 1])
            && (i + 1 == |Nodes| ==> Nodes[i].next == null))
      && (forall i, j :: 0 <= i < j < |Nodes| ==> Nodes[i] != Nodes[j])
      && top == (if Nodes == [] then null else Nodes[0])
    }

    /** stack_create. */
    constructor ()
      ensures Valid() && fresh(Repr)
      ensures Contents == []
    {
      top, size := null, 0;
      Contents, Nodes := [], [];
      Repr := {this};
    }

    /** stack_is_empty. */
    function IsEmpty(): (b: bool)
      requires Valid()
      reads this, Repr
      ensures b <==> Contents == []
    {
      size == 0
    }

    /** stack_get_size. */
    function GetSize(): (n: int)
      requires Valid()
      reads this, Repr
      ensures n == |Contents|
    {
      size
    }

    /** stack_push: a new node on top, linked to the old top. */
    method Push(p: Process)
      requires Valid()
      modifies this
      ensures Valid() && fresh(Repr - old(Repr))
      ensures Contents == [p] + old(Contents)
    {
      var node := new StackNode(p, top);
      top := node;
      size := size + 1;
      Nodes := [node] + Nodes;
      Contents := [p] + Contents;
      Repr := Repr + {node};
    }

    /**
     * stack_pop: the top copy, unlinked; on an empty stack the marker
     * process with id -1 and no change.
     */
    method Pop() returns (p: Process)
      requires Valid()
      modifies this
      ensures Valid() && Repr == old(Repr)
      ensures old(Contents) == [] ==> p == EMPTY_MARKER && Contents == []
      ensures old(Contents) != [] ==> p == old(Contents)[0] && Contents == old(Contents)[1..]
    {
      if IsEmpty() {
        return EMPTY_MARKER;
      }
      p := top.data;
      top := top.next;
      size := size - 1;
      Nodes := Nodes[1..];
      Contents := Contents[1..];
    }

    /** stack_peek: the top copy, or the marker; the stack is left as it was. */
    method Peek() returns (p: Process)
      requires Valid()
      ensures Contents == [] ==> p == EMPTY_MARKER
      ensures Contents != [] ==> p == Contents[0]
    {
      if IsEmpty() {
        return EMPTY_MARKER;
      }
      p := top.data;
    }
  }

  class ExecutionStackNode {
    var record: ExecutionRecord
    var next: ExecutionStackNode?

    constructor (r: ExecutionRecord, below: ExecutionStackNode?)
      ensures record == r && next == below
    {
      record := r;
      next := below;
    }
  }

  /** The stack of execution records kept for tracing. */
  class ExecutionStack {
    var top: ExecutionStackNode?
    var size: int

    /** The stacked records, top first. */
    ghost var Contents: seq<ExecutionRecord>
    ghost var Nodes: seq<ExecutionStackNode>
    ghost var Repr: set<object>

    ghost predicate Valid()
      reads this, Repr
    {
      && this in Repr
      && size == |Nodes| == |Contents|
      && (forall i :: 0 <= i < |Nodes| ==>
            && Nodes[i] in Repr && Nodes[i].record == Contents[i]
            && (i + 1 < |Nodes| ==> Nodes[i].next == Nodes[i + 1])
            && (i + 1 == |Nodes| ==> Nodes[i].next == null))
      && (forall i, j :: 0 <= i < j < |Nodes| ==> Nodes[i] != Nodes[j])
      && top == (if Nodes == [] then null else Nodes[0])
    }

    /** exec_stack_create. */
    constructor ()
      ensures Valid() && fresh(Repr)
      ensures Contents == []
    {
      top, size := null, 0;
      Contents, Nodes := [], [];
      Repr := {this};
    }

    /** exec_stack_push. */
    method Push(r: ExecutionRecord)
      requires Valid()
      modifies this
      ensures Valid() && fresh(Repr - old(Repr))
      ensures Contents == [r] + old(Contents)
    {
      var node := new ExecutionStackNode(r, top);
      top := node;
      size := size + 1;
      Nodes := [node] + Nodes;
      Contents := [r] + Contents;
      Repr := Repr + {node};
    }

    /** exec_stack_pop: the last pushed record, or {-1, 0, 0} when empty. */
    method Pop() returns (r: ExecutionRecord)
      requires Valid()
      modifies this
      ensures Valid() && Repr == old(Repr)
      ensures old(Contents) == [] ==> r == EMPTY_RECORD && Contents == []
      ensures old(Contents) != [] ==> r == old(Contents)[0] && Contents == old(Contents)[1..]
    {
      if size == 0 {
        return EMPTY_RECORD;
      }
      r := top.record;
      top := top.next;
      size := size - 1;
      Nodes := Nodes[1..];
      Contents := Contents[1..];
    }
  }

  /**
   * The demonstration in main.cpp: push P1, P2, P3, pop one, peek at the
   * next and read the size.
   */
  method StackDemo() returns (popped: int, peeked: int, size: int)
    ensures popped == 3 && peeked == 2 && size == 2
  {
    var s := new Stack();
    s.Push(CreateProcess(1, 0, 5));
    s.Push(CreateProcess(2, 1, 3));
    s.Push(CreateProcess(3, 2, 4));
    var p := s.Pop();
    var r := s.Peek();
    popped, peeked, size := p.id, r.id, s.GetSize();
  }

  /** Popping right after a push gives back the pushed record and the old stack. */
  method PushPopRecord(s: ExecutionStack, r: ExecutionRecord) returns (back: ExecutionRecord)
    requires s.Valid()
    modifies s
    ensures s.Valid() && back == r && s.Contents == old(s.Contents)
  {
    s.Push(r);
    back := s.Pop();
  }
}
