/** The singly linked list behind both send queues: send_head, send_tail and the nodes between them. */
module LinkedQueue {
  import opened MessageQueue

  class Node {
    const msg: Message
    var next: Node?
    ghost var freed: bool

    constructor (m: Message)
      ensures msg == m && next == null && !freed
    {
      msg, next, freed := m, null, false;
    }

    // free() of the payload and the node; a second free is excluded by the precondition.
    method Free()
      requires !freed
      modifies this`freed
      ensures freed
    {
      freed := true;
    }
  }

  // The node behind position i, or null at the end.
  ghost function NodeAt(ns: seq<Node>, i: nat): Node? {
    if i < |ns| then ns[i] else null
  }

  // Every node links to its successor; nothing is freed or repeated.
  ghost predicate Linked(ns: seq<Node>)
    reads ns
  {
    && (forall i {:trigger ns[i]} :: 0 <= i < |ns| ==> ns[i].next == NodeAt(ns, i + 1) && !ns[i].freed)
    && (forall i, j :: 0 <= i < j < |ns| ==> ns[i] != ns[j])
  }

  ghost function MessagesOf(ns: seq<Node>): (r: seq<Message>)
    ensures |r| == |ns|
  {
    seq(|ns|, i requires 0 <= i < |ns| => ns[i].msg)
  }

  class MessageList {
    var head: Node?
    var tail: Node?
    ghost var nodes: seq<Node>

    // The tail is the last node and, like the head, NULL exactly when the list is empty.
    ghost predicate Valid()
      reads this, nodes
    {
      && head == NodeAt(nodes, 0)
      && tail == (if nodes == [] then null else nodes[|nodes| - 1])
      && Linked(nodes)
    }

    ghost function Contents(): seq<Message>
      reads this
    {
      MessagesOf(nodes)
    }

    constructor ()
      ensures Valid() && nodes == [] && Contents() == []
    {
      head, tail, nodes := null, null, [];
    }

    method Append(node: Node)
      requires Valid() && node !in nodes && node.next == null && !node.freed
      modifies this, tail
      ensures Valid() && nodes == old(nodes) + [node]
      ensures Contents() == old(Contents()) + [node.msg]
    {
      if tail == null {
        head, tail := node, node;
      } else {
        tail.next := node;
        tail := node;
      }
      nodes := nodes + [node];
    }

    method TakeFirst() returns (node: Node?)
      requires Valid()
      modifies this
      ensures Valid()
      ensures old(nodes) == [] ==> node == null && nodes == []
      ensures old(nodes) != [] ==>
                && node != null && node == old(nodes)[0] && !node.freed && nodes == old(nodes)[1..]
                && node.msg == old(Contents())[0] && Contents() == old(Contents())[1..]
    {
      node := head;
      if node != null {
        head := node.next;
        if head == null {
          tail := null;
        }
        nodes := nodes[1..];
      }
    }

    // Detaches the whole list and frees it node by node.
    method FreeAll()
      requires Valid()
      modifies this, nodes
      ensures Valid() && nodes == []
      ensures forall n :: n in old(nodes) ==> n.freed
    {
      var msg := head;
      ghost var all, k := nodes, 0;
      head, tail, nodes := null, null, [];
      while msg != null
        invariant head == tail == null && nodes == []
        invariant 0 <= k <= |all| && msg == NodeAt(all, k)
        invariant forall i {:trigger all[i]} :: k <= i < |all| ==> all[i].next == NodeAt(all, i + 1) && !all[i].freed
        invariant forall i :: 0 <= i < k ==> all[i].freed
        decreases |all| - k
      {
        var next := msg.next;
        msg.Free();
        msg, k := next, k + 1;
      }
    }
  }
}
