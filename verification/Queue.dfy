// common/queue.go: the linked list behind the reader's block queue.
module Queues {

  class Node<T> {
    const value: T
    var next: Node?<T>

    constructor (value: T)
      ensures this.value == value && next == null
    {
      this.value := value;
      next := null;
    }
  }

  class LinkedListQueue<T> {
    var start: Node?<T>
    var end: Node?<T>
    var size: nat
    ghost var nodes: seq<Node<T>>

    ghost predicate Valid()
      reads this, nodes
    {
      && size == |nodes|
      && (forall i, j :: 0 <= i < j < |nodes| ==> nodes[i] != nodes[j])
      && (forall i :: 0 <= i < |nodes| - 1 ==> nodes[i].next == nodes[i + 1])
      && (if size == 0 then start == end == null else start == nodes[0] && end == nodes[size - 1])
    }

    ghost function Contents(): seq<T>
      reads this
    {
      seq(|nodes|, i requires 0 <= i < |nodes| reads this => nodes[i].value)
    }

    constructor ()
      ensures Valid() && fresh(nodes) && Contents() == []
    {
      start, end, size, nodes := null, null, 0, [];
    }

    method IsEmpty() returns (empty: bool)
      requires Valid()
      ensures empty <==> Contents() == []
    {
      return size == 0;
    }

    /** Panics in the source on an empty queue. */
    method Peek() returns (value: T)
      requires Valid() && Contents() != []
      ensures value == Contents()[0]
    {
      return start.value;
    }

    method Push(value: T)
      requires Valid()
      modifies this, nodes
      ensures Valid() && fresh(set n <- nodes | n !in old(nodes))
      ensures Contents() == old(Contents()) + [value]
    {
      var n := new Node(value);
      if size == 0 {
        start := n;
        end := n;
      } else {
        end.next := n;
        end := n;
      }
      nodes := nodes + [n];
      size := size + 1;
    }

    /** Panics in the source on an empty queue. */
    method Pop() returns (value: T)
      requires Valid() && Contents() != []
      modifies this
      ensures Valid() && nodes == old(nodes)[1..]
      ensures [value] + Contents() == old(Contents())
    {
      var n := start;
      if size == 1 {
        start := null;
        end := null;
      } else {
        start := start.next;
      }
      nodes := nodes[1..];
      size := size - 1;
      return n.value;
    }

    method Len() returns (n: nat)
      requires Valid()
      ensures n == |Contents()|
    {
      return size;
    }
  }
}
