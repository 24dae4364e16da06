/** The send queue of the WebSocket client: unbounded, flushed one message per writable callback,
    and drained when the client is destroyed. */
module WscClient {
  import opened MessageQueue
  import opened LinkedQueue

  lemma Shift<T>(a: seq<T>, x: T, b: seq<T>)
    ensures (a + [x]) + b == a + ([x] + b)
  {
  }

  class Client {
    const list: MessageList        // send_head, send_tail
    var wsi: bool                  // client->wsi != NULL
    var connected: bool
    var running: bool
    var writable: bool             // lws owes the client a CLIENT_WRITEABLE callback
    // The nodes that have left the queue, popped or drained.
    ghost var gone: seq<Node>
    ghost var writeFailed: bool

    // Everything wsc_enqueue accepted, in order.
    ghost function Accepted(): seq<Node>
      reads this, list
    {
      gone + list.nodes
    }

    // A message is freed when it is gone (`Free` excludes a second time) and not before; and, as long
    // as no write has failed, a connected client with unsent messages is due a writable callback.
    ghost predicate Valid()
      reads this, list, list.nodes, gone
    {
      && list.Valid()
      && (forall n :: n in gone ==> n.freed)
      && (wsi && !writeFailed && list.nodes != [] ==> writable)
    }

    // papago_wsc_new and papago_wsc_connect
    constructor ()
      ensures Valid() && Accepted() == [] && wsi && !writeFailed && fresh(list)
    {
      list := new MessageList();
      wsi, connected, running, writable := true, false, false, false;
      gone, writeFailed := [], false;
    }

    // wsc_enqueue; malloc may fail
    method Enqueue(m: Message, mallocOk: bool) returns (rc: int)
      requires Valid()
      modifies `writable, list, list.tail
      ensures Valid() && rc == (if wsi && mallocOk then 0 else 1)
      ensures rc == 0 ==> writable && |list.nodes| == |old(list.nodes)| + 1
                          && list.nodes[..|old(list.nodes)|] == old(list.nodes)
                          && fresh(list.nodes[|old(list.nodes)|]) && list.nodes[|old(list.nodes)|].msg == m
      ensures rc == 1 ==> list.nodes == old(list.nodes) && writable == old(writable)
    {
      if !wsi || !mallocOk {
        return 1;
      }
      var node := new Node(m);
      list.Append(node);
      writable := true;
      return 0;
    }

    // CLIENT_WRITEABLE: lws has used up its promise and runs wsc_flush_one; ret is what lws_write returns
    method OnWriteable(ret: int)
      requires Valid() && writable
      modifies `writable, `gone, `writeFailed, list, list.nodes
      ensures Valid() && Accepted() == old(Accepted())
      ensures |gone| == |old(gone)| + if wsi && old(list.nodes) != [] then 1 else 0
      ensures writeFailed == (old(writeFailed) || (wsi && old(list.nodes) != [] && ret < 0))
      // after a failed write nobody asks for another callback, whatever is still queued
      ensures writable <==> wsi && ret >= 0 && list.nodes != []
    {
      writable := false;
      if wsi {
        var node := PopOne();
        if node != null {
          Shift(gone, node, list.nodes);
          FreeOne(node);                 // lws_write has returned, both outcomes free the message
          if ret < 0 {
            writeFailed := true;
          } else if list.head != null {
            writable := true;
          }
        }
      }
    }

    method PopOne() returns (node: Node?)
      requires list.Valid()
      modifies list
      ensures list.Valid() && (node == null <==> old(list.nodes) == []) && (node == null ==> list.nodes == [])
      ensures node != null ==> old(list.nodes) == [node] + list.nodes && node !in list.nodes && !node.freed
    {
      node := list.TakeFirst();
    }

    // free() of a popped message
    method FreeOne(node: Node)
      requires list.Valid() && node !in list.nodes && !node.freed
      requires forall n :: n in gone ==> n.freed
      modifies `gone, node
      ensures list.Valid() && gone == old(gone) + [node]
      ensures forall n :: n in gone ==> n.freed
    {
      node.Free();
      gone := gone + [node];
    }

    method OnEstablished()
      requires Valid()
      modifies `connected
      ensures Valid() && connected
    {
      connected := true;
    }

    // CLIENT_CLOSED and CLIENT_CONNECTION_ERROR: the queue is kept for papago_wsc_destroy
    method OnClosedOrError()
      requires Valid()
      modifies `connected, `wsi, `running
      ensures Valid() && !connected && !wsi && !running
    {
      connected, wsi, running := false, false, false;
    }

    // papago_wsc_destroy
    method Destroy()
      requires Valid()
      modifies `running, `wsi, `gone, list, list.nodes
      ensures Valid() && !wsi && list.nodes == [] && Accepted() == old(Accepted()) == gone
      ensures forall n :: n in gone ==> n.freed
    {
      running, wsi := false, false;
      ghost var nodes := list.nodes;
      list.FreeAll();
      gone := gone + nodes;
    }
  }

  // A failed write strands the queue: two messages are accepted, the first write fails, and the second message
  // waits on an open connection that nobody has asked to be writable.
  method Strand(first: Message, second: Message) returns (client: Client)
    ensures client.Valid() && client.wsi && |client.list.nodes| == 1 && client.list.nodes[0].msg == second
    ensures !client.writable
  {
    client := new Client();
    var rc := client.Enqueue(first, true);
    rc := client.Enqueue(second, true);
    ghost var accepted := client.Accepted();
    client.OnWriteable(-1);
    assert client.gone + client.list.nodes == accepted;
    assert client.list.nodes == accepted[1..];
  }
}
