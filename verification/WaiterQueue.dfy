/**
 The waiter list of a LowLevelMonitor as it lies in memory: nodes linked through `next`, with a
 head and a tail. It refines the sequence the monitor model uses as its queue.
 */
module WaiterQueue {
  import opened Basics

  class Node {
    var next: Node?
    var signaled: bool

    constructor ()
      ensures next == null && !signaled
    {
      next := null;
      signaled := false;
    }
  }

  /** What the node at position `i` points to. */
  ghost function After(nodes: seq<Node>, i: nat): Node? { if i + 1 < |nodes| then nodes[i + 1] else null }

  /** Where the nodes stand once the one at `i` is left out. */
  lemma SkipAt(all: seq<Node>, left: seq<Node>, i: nat, j: nat)
    requires i < |all| && left == all[..i] + all[i + 1..] && j < |left|
    ensures left[j] == all[if j < i then j else j + 1]
    ensures After(left, j) == if j + 1 == i then After(all, i) else After(all, if j < i then j else j + 1)
  {
  }

  ghost function Last(nodes: seq<Node>): Node? { if nodes == [] then null else nodes[|nodes| - 1] }

  ghost function Before(nodes: seq<Node>, i: nat): Node?
    requires i <= |nodes|
  {
    if i == 0 then null else nodes[i - 1]
  }

  /** The last node once the one at `i` is left out. */
  lemma LastLeft(all: seq<Node>, self: Node, i: nat)
    requires i < |all| && all[i] == self && self !in all[..i] && NoDup(all)
    ensures Last(Without(all, self)) == if Last(all) == self then Before(all, i) else Last(all)
  {
    WithoutAt(all, self, i);
  }

  class Queue {
    var head: Node?
    var tail: Node?
    ghost var nodes: seq<Node>

    /** The nodes are distinct and linked in order from the head. */
    ghost predicate Chained(list: seq<Node>)
      reads this`head, list`next
    {
      && NoDup(list)
      && (forall i :: 0 <= i < |list| ==> list[i].next == After(list, i))
      && head == (if list == [] then null else list[0])
    }

    /** The chain is the queue; the tail is its last node, or null with the head. */
    ghost predicate Valid()
      reads this, nodes
    {
      && Chained(nodes)
      && tail == Last(nodes)
    }

    constructor ()
      ensures Valid() && nodes == []
    {
      head, tail := null, null;
      nodes := [];
    }

    /** The enqueue of monitor_wait. */
    method Append(self: Node)
      requires Valid() && self !in nodes && self.next == null
      modifies this, nodes
      ensures Valid() && nodes == old(nodes) + [self]
      ensures forall n :: n in nodes ==> n.signaled == old(n.signaled)
    {
      if tail != null { tail.next := self; } else { head := self; }
      tail := self;
      nodes := nodes + [self];
    }

    /** The dequeue of Signal_Release: the longest-queued waiter, flagged. */
    method RemoveHead() returns (w: Node?)
      requires Valid()
      modifies this, nodes
      ensures Valid()
      ensures old(nodes) == [] ==> w == null && nodes == []
      ensures old(nodes) != [] ==> w == old(nodes)[0] && nodes == old(nodes)[1..] && w.signaled
      ensures forall n :: n in nodes ==> n.signaled == old(n.signaled)
    {
      w := head;
      if w != null {
        head := w.next;
        if head == null { tail := null; }
        w.signaled := true;
        assert nodes == [w] + nodes[1..];
        nodes := nodes[1..];
        assert forall i :: 0 <= i < |nodes| ==> nodes[i] == old(nodes)[i + 1];
      }
    }

    /** The walk to a node, remembering the one before it. */
    method Find(self: Node) returns (previous: Node?, current: Node?, ghost i: nat)
      requires Valid()
      ensures i <= |nodes| && self !in nodes[..i]
      ensures current == (if i < |nodes| then nodes[i] else null) && (current == null || current == self)
      ensures previous == Before(nodes, i)
    {
      previous, current, i := null, head, 0;
      while current != null && current != self
        invariant 0 <= i <= |nodes|
        invariant current == if i < |nodes| then nodes[i] else null
        invariant previous == Before(nodes, i)
        invariant self !in nodes[..i]
        decreases |nodes| - i
      {
        assert current == nodes[i];
        previous := current;
        current := current.next;
        i := i + 1;
      }
    }

    /** The node before position `i`, or the head, takes over the link there. */
    method Skip(previous: Node?, self: Node, ghost i: nat)
      requires Chained(nodes) && i < |nodes| && nodes[i] == self && self !in nodes[..i]
      requires previous == if i == 0 then null else nodes[i - 1]
      modifies this`head, nodes`next
      ensures Chained(Without(nodes, self))
    {
      WithoutAt(nodes, self, i);
      WithoutMembers(nodes, self);
      ghost var left := Without(nodes, self);
      assert self.next == After(nodes, i);
      if previous == null { head := self.next; } else { previous.next := self.next; }
      forall j | 0 <= j < |left| ensures left[j].next == After(left, j) {
        SkipAt(nodes, left, i, j);
        if j >= i { assert nodes[j + 1].next == After(nodes, j + 1); }
      }
    }

    /** The node found at position `i` leaves, and the one before it becomes the tail if it was the last. */
    method Remove(previous: Node?, self: Node, ghost i: nat)
      requires Valid() && i < |nodes| && nodes[i] == self && self !in nodes[..i]
      requires previous == Before(nodes, i)
      modifies this, nodes`next
      ensures Valid() && nodes == Without(old(nodes), self)
    {
      LastLeft(nodes, self, i);
      ghost var left := Without(nodes, self);
      Skip(previous, self, i);
      if tail == self { tail := previous; }
      nodes := left;
      assert Chained(left);
    }

    /** The timeout path of monitor_wait: a waiter that is still queued takes itself out. */
    method Unlink(self: Node)
      requires Valid()
      modifies this, nodes`next
      ensures Valid() && nodes == Without(old(nodes), self)
    {
      var previous, current, i := Find(self);
      if current == self { Remove(previous, self, i); } else { WithoutAbsent(nodes, self); }
    }
  }
}
