/** The send queue of a server connection and the connection table, as the C structs update them. */
module WsConnection {
  import opened MessageQueue
  import opened LinkedQueue
  import WsSteps

  class Connection {
    const list: MessageList          // send_head, send_tail
    var msgCount: int                // queue_msg_count
    var byteCount: int               // queue_byte_count
    var sendMutexReady: bool

    // The state as the step model sees it.
    ghost function Abstract(): Queue
      reads this, list
    {
      Queue(list.Contents(), msgCount, byteCount)
    }

    ghost predicate Valid()
      reads this, list, list.nodes
    {
      list.Valid()
    }

    constructor ()
      ensures Valid() && Abstract() == Empty && !sendMutexReady && fresh(list)
    {
      list := new MessageList();
      msgCount, byteCount, sendMutexReady := 0, 0, false;
    }

    // ws_queue_push; on rc == 1 the message still belongs to the caller.
    method Push(node: Node) returns (rc: int)
      requires Valid() && node !in list.nodes && node.next == null && !node.freed
      modifies this, list, list.tail
      ensures Valid()
      ensures var q := old(Abstract());
        rc == if q.msgCount < 256 && q.byteCount + node.msg.len <= 1048576 then 0 else 1
      ensures rc == 0 ==> Abstract() == MessageQueue.Push(old(Abstract()), node.msg)
                          && list.nodes == old(list.nodes) + [node]
      ensures rc == 1 ==> Abstract() == old(Abstract()) && list.nodes == old(list.nodes) && node.next == null
      ensures sendMutexReady == old(sendMutexReady) && !node.freed
    {
      if msgCount >= MAX_MSGS || byteCount + node.msg.len > MAX_BYTES {
        return 1;
      }
      list.Append(node);
      msgCount := msgCount + 1;
      byteCount := byteCount + node.msg.len;
      return 0;
    }

    // ws_queue_pop
    method Pop() returns (node: Node?)
      requires Valid()
      modifies this, list
      ensures Valid() && sendMutexReady == old(sendMutexReady)
      ensures old(Abstract()).msgs == [] ==> node == null && Abstract() == old(Abstract())
      ensures old(Abstract()).msgs != [] ==>
                && node != null && node.msg == old(Abstract()).msgs[0] && !node.freed && node !in list.nodes
                && Abstract() == MessageQueue.Pop(old(Abstract()))
    {
      node := list.TakeFirst();
      if node != null {
        msgCount := msgCount - 1;
        byteCount := byteCount - node.msg.len;
      }
    }

    // ws_queue_has_more
    method HasMore() returns (more: bool)
      requires Valid()
      ensures more == (Abstract().msgs != [])
    {
      more := list.head != null;
    }

    // ws_queue_drain_and_free; the counters stay as they are
    method DrainAndFree()
      requires Valid()
      modifies list, list.nodes
      ensures Valid()
      ensures sendMutexReady ==>
                Abstract() == Drain(old(Abstract())) && forall n :: n in old(list.nodes) ==> n.freed
      ensures !sendMutexReady ==> Abstract() == old(Abstract())
    {
      if !sendMutexReady {
        return;
      }
      list.FreeAll();
    }
  }

  // ws_connections and ws_connection_count
  class Registry {
    const slots: array<nat>
    var count: nat

    ghost predicate Valid()
      reads this
    {
      slots.Length == WsSteps.MAX_CONNECTIONS && count <= slots.Length
    }

    ghost function Contents(): seq<nat>
      reads this, slots
      requires Valid()
    {
      slots[..count]
    }

    constructor ()
      ensures Valid() && Contents() == [] && fresh(slots)
    {
      slots := new nat[WsSteps.MAX_CONNECTIONS];
      count := 0;
    }

    method Register(c: nat)
      requires Valid()
      modifies this, slots
      ensures Valid() && Contents() == WsSteps.Register(old(Contents()), c)
      ensures Contents() == old(Contents()) + if |old(Contents())| < 256 then [c] else []
    {
      if count < slots.Length {
        slots[count] := c;
        count := count + 1;
      }
    }

    // Finds the first entry and shifts what follows one place down.
    method Unregister(c: nat)
      requires Valid()
      modifies this, slots
      ensures Valid() && Contents() == WsSteps.Unregister(old(Contents()), c)
    {
      ghost var was := Contents();
      var i := 0;
      while i < count
        invariant 0 <= i <= count && count == old(count) && Contents() == was
        invariant c !in was[..i]
      {
        if slots[i] == c {
          ghost var at := i;
          while i < count - 1
            invariant at <= i <= count - 1 && count == old(count) == |was|
            invariant slots[..at] == was[..at]
            invariant forall j :: at <= j < i ==> slots[j] == was[j + 1]
            invariant forall j :: i < j < count ==> slots[j] == was[j]
          {
            slots[i] := slots[i + 1];
            i := i + 1;
          }
          count := count - 1;
          UnregisterAt(was, c, at);
          assert Contents() == was[..at] + was[at + 1..];
          return;
        }
        i := i + 1;
      }
      UnregisterAbsent(was, c);
    }
  }

  lemma {:induction false} UnregisterAt(s: seq<nat>, c: nat, at: nat)
    requires at < |s| && s[at] == c && c !in s[..at]
    ensures WsSteps.Unregister(s, c) == s[..at] + s[at + 1..]
  {
    if at > 0 {
      assert s[0] in s[..at];
      assert forall x :: x in s[1..][..at - 1] ==> x in s[..at];
      UnregisterAt(s[1..], c, at - 1);
      assert [s[0]] + s[1..][..at - 1] == s[..at];
    }
  }

  lemma {:induction false} UnregisterAbsent(s: seq<nat>, c: nat)
    requires c !in s
    ensures WsSteps.Unregister(s, c) == s
  {
    if s != [] {
      UnregisterAbsent(s[1..], c);
    }
  }
}
