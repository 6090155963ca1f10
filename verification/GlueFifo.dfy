/** The linked queue shared by the two threads of the glue: pushed at the tail, popped at
    the head, or taken as a whole.  Each method is one critical section of its lock. */
module GlueFifo {

  /** An allocated node.  A node that has been freed must not be touched. */
  class Node<T> {
    const value: T
    var next: Node?<T>
    ghost var freed: bool

    constructor (v: T)
      ensures value == v && next == null && !freed
    {
      value, next, freed := v, null, false;
    }

    method Content() returns (v: T)
      requires !freed
      ensures v == value
    {
      v := value;
    }

    method Next() returns (n: Node?<T>)
      requires !freed
      ensures n == next
    {
      n := next;
    }

    method Link(n: Node<T>)
      requires !freed
      modifies this`next
      ensures next == n
    {
      next := n;
    }

    method Free()
      requires !freed
      modifies this`freed
      ensures freed
    {
      freed := true;
    }
  }

  /** `nodes` are allocated and linked in order, without sharing, and the last one links to
      nothing. */
  ghost predicate Chain<T(!new)>(nodes: seq<Node<T>>)
    reads nodes
  {
    && (forall i :: 0 <= i < |nodes| ==> !nodes[i].freed)
    && (forall i, j :: 0 <= i < j < |nodes| ==> nodes[i] != nodes[j])
    && (forall i :: 0 <= i < |nodes| ==> nodes[i].next == After(nodes, i))
  }

  function After<T>(nodes: seq<Node<T>>, i: nat): Node?<T>
    requires i < |nodes|
  {
    if i + 1 < |nodes| then nodes[i + 1] else null
  }

  lemma ChainTail<T(!new)>(nodes: seq<Node<T>>)
    requires Chain(nodes) && nodes != []
    ensures Chain(nodes[1..]) && nodes[0] !in nodes[1..]
    ensures nodes[0].next == if nodes[1..] == [] then null else nodes[1..][0]
  {
    assert nodes[0].next == After(nodes, 0);
    forall i | 0 <= i < |nodes[1..]| ensures nodes[1..][i].next == After(nodes[1..], i) {
      assert nodes[i + 1].next == After(nodes, i + 1);
    }
  }

  function Values<T>(nodes: seq<Node<T>>): seq<T> {
    seq(|nodes|, k requires 0 <= k < |nodes| => nodes[k].value)
  }

  class Fifo<T(!new)> {
    var head: Node?<T>
    var tail: Node?<T>
    ghost var nodes: seq<Node<T>>

    ghost predicate Valid()
      reads this, nodes
    {
      && Chain(nodes)
      && head == (if nodes == [] then null else nodes[0])
      && tail == (if nodes == [] then null else nodes[|nodes| - 1])
    }

    constructor ()
      ensures Valid() && nodes == []
    {
      head, tail := null, null;
      nodes := [];
    }

    method Push(n: Node<T>)
      requires Valid() && n !in nodes && n.next == null && !n.freed
      modifies this, tail
      ensures Valid() && nodes == old(nodes) + [n]
    {
      if head == null {
        head := n;
      } else {
        tail.Link(n);
      }
      tail := n;
      nodes := nodes + [n];
    }

    method Pop() returns (n: Node?<T>)
      requires Valid()
      modifies this
      ensures Valid()
      ensures old(nodes) == [] ==> n == null && nodes == []
      ensures old(nodes) != [] ==> n == old(nodes)[0] && nodes == old(nodes)[1..] && n !in nodes && !n.freed
    {
      n := head;
      if n != null {
        ChainTail(nodes);
        head := n.Next();
        if head == null {
          tail := null;
        }
        nodes := nodes[1..];
      }
    }

    /** The whole chain is taken, and the queue is left empty. */
    method TakeAll() returns (first: Node?<T>, ghost chain: seq<Node<T>>)
      requires Valid()
      modifies this
      ensures Valid() && nodes == [] && chain == old(nodes) && Chain(chain)
      ensures first == if chain == [] then null else chain[0]
    {
      first, chain := head, nodes;
      head, tail := null, null;
      nodes := [];
    }
  }

  /** The first node of a chain is read, its link followed, and the node freed. */
  method SendFirst<T(!new)>(first: Node<T>, ghost chain: seq<Node<T>>) returns (value: T, next: Node?<T>)
    requires Chain(chain) && chain != [] && first == chain[0]
    modifies first
    ensures value == chain[0].value && next == (if chain[1..] == [] then null else chain[1..][0])
    ensures Chain(chain[1..]) && first.freed
  {
    ChainTail(chain);
    value := first.Content();
    next := first.Next();
    first.Free();
  }

  /** A taken chain is sent head first, and every node of it is freed, once. */
  method Drain<T(!new)>(first: Node?<T>, ghost chain: seq<Node<T>>) returns (sent: seq<T>)
    requires Chain(chain) && first == if chain == [] then null else chain[0]
    modifies chain
    ensures sent == Values(chain) && forall k :: 0 <= k < |chain| ==> chain[k].freed
  {
    hide Chain, Values;
    var position := first;
    ghost var gone, left := [], chain;
    sent := [];
    NoValues(gone);
    while position != null
      invariant chain == gone + left && sent == Values(gone) && Chain(left)
      invariant forall k :: 0 <= k < |gone| ==> gone[k].freed
      invariant position == if left == [] then null else left[0]
      decreases |left|
    {
      assert chain[|gone|] == left[0];
      var value, next := SendFirst(position, left);
      ValuesAppend(gone, left[0]);
      sent, position := sent + [value], next;
      gone, left := gone + [left[0]], left[1..];
    }
    assert chain == gone;
  }

  lemma NoValues<T>(nodes: seq<Node<T>>)
    ensures |Values(nodes)| == |nodes|
  {
  }

  lemma ValuesSplit<T>(nodes: seq<Node<T>>)
    ensures |Values(nodes)| == |nodes|
    ensures nodes != [] ==> Values(nodes) == [nodes[0].value] + Values(nodes[1..])
  {
  }

  lemma ValuesAppend<T>(nodes: seq<Node<T>>, n: Node<T>)
    ensures Values(nodes + [n]) == Values(nodes) + [n.value]
  {
  }

  /** What is pushed comes out in the order it was pushed, once. */
  method PushThenDrain<T(!new)>(f: Fifo<T>, vs: seq<T>) returns (sent: seq<T>)
    requires f.Valid() && f.nodes == []
    modifies f
    ensures f.Valid() && f.nodes == [] && sent == vs
  {
    hide Chain, Values;
    assert Values(f.nodes) == [] by { NoValues(f.nodes); }
    var k := 0;
    while k < |vs|
      invariant k <= |vs| && f.Valid() && Values(f.nodes) == vs[..k]
      invariant fresh(f.nodes)
    {
      var n := new Node(vs[k]);
      ValuesAppend(f.nodes, n);
      f.Push(n);
      assert vs[..k + 1] == vs[..k] + [vs[k]];
      k := k + 1;
    }
    assert vs[..k] == vs;
    var first, chain := f.TakeAll();
    sent := Drain(first, chain);
  }
}
