/** The bounded FIFO send queue of one WebSocket connection, as a value.
    The linked list of `WsConnection` and the step model of `WsSteps` both refer to it. */
module MessageQueue {
  const MAX_MSGS := 256
  const MAX_BYTES := 1024 * 1024

  // `id` identifies the allocation, `broadcast` tells which API call made it.
  datatype Message = Message(id: nat, len: nat, broadcast: bool)

  // The counters are fields of their own: the drain at close leaves them as they are.
  datatype Queue = Queue(msgs: seq<Message>, msgCount: int, byteCount: int)

  const Empty := Queue([], 0, 0)

  predicate Full(q: Queue, len: nat) {
    q.msgCount >= MAX_MSGS || q.byteCount + len > MAX_BYTES
  }

  function Push(q: Queue, m: Message): Queue {
    Queue(q.msgs + [m], q.msgCount + 1, q.byteCount + m.len)
  }

  function Pop(q: Queue): Queue
    requires q.msgs != []
  {
    Queue(q.msgs[1..], q.msgCount - 1, q.byteCount - q.msgs[0].len)
  }

  function Drain(q: Queue): Queue {
    q.(msgs := [])
  }

  function TotalLen(msgs: seq<Message>): nat {
    if msgs == [] then 0 else msgs[0].len + TotalLen(msgs[1..])
  }

  // The counters describe the list and respect the limits.
  predicate Bounded(q: Queue) {
    && q.msgCount == |q.msgs| <= MAX_MSGS
    && q.byteCount == TotalLen(q.msgs) <= MAX_BYTES
  }

  lemma {:induction false} TotalLenAppend(msgs: seq<Message>, m: Message)
    ensures TotalLen(msgs + [m]) == TotalLen(msgs) + m.len
  {
    if msgs != [] {
      assert (msgs + [m])[1..] == msgs[1..] + [m];
      TotalLenAppend(msgs[1..], m);
    }
  }

  // A push that the limit test lets through keeps the counters exact and within the limits.
  lemma PushBounded(q: Queue, m: Message)
    requires Bounded(q) && !Full(q, m.len)
    ensures Bounded(Push(q, m))
  {
    TotalLenAppend(q.msgs, m);
  }
}
