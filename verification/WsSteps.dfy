/** The WebSocket send path as interleaved atomic steps. Thread 0 is the libwebsockets service
    thread, every other thread is a user thread. One `Exec` event is one lock operation, one
    critical section or one call into libwebsockets. */
module WsSteps {
  import opened Options
  import opened MessageQueue

  type Tid = nat
  type Cid = nat

  const SERVICE: Tid := 0
  const MAX_CONNECTIONS := 256

  // Who runs the shared create-push-wake code, and what a broadcast needs to go on.
  datatype Caller = Send | SendBinary | Broadcast(i: nat, len: nat)

  datatype Pc =
    | Rest                                           // user code: no call into the library in progress
    | InService                                      // service thread, between two callbacks
    // papago_ws_conn_acquire
    | AcquireLock(c: Cid, len: nat)
    | AcquireTest(c: Cid, len: nat)
    | AcquireUnlock(c: Cid, len: nat, ok: bool)
    // ws_msg_create, ws_queue_push, lws_callback_on_writable
    | Create(k: Caller, c: Cid, len: nat)
    | PushLock(k: Caller, c: Cid, m: Message)
    | PushTest(k: Caller, c: Cid, m: Message)
    | RejectUnlock(k: Caller, c: Cid, m: Message)
    | RejectFree(k: Caller, c: Cid, m: Message)
    | AcceptUnlock(k: Caller, c: Cid)
    | Wake(k: Caller, c: Cid)
    // ws_conn_release
    | ReleaseLock(c: Cid)
    | ReleaseDecrement(c: Cid)
    | ReleaseUnlock(c: Cid)
    // papago_ws_broadcast
    | BroadcastLock(len: nat)
    | BroadcastLoop(i: nat, len: nat)
    | BroadcastUnlock
    // LWS_CALLBACK_ESTABLISHED
    | EstablishedLock(c: Cid)
    | EstablishedRegister(c: Cid)
    | EstablishedUnlock(c: Cid)
    // LWS_CALLBACK_SERVER_WRITEABLE
    | WriteableTest(c: Cid)
    | PopLock(c: Cid)
    | PopTake(c: Cid)
    | PopUnlock(c: Cid, taken: Option<Message>)
    | Write(c: Cid, m: Message)
    | FailedFree(c: Cid, m: Message)
    | WrittenFree(c: Cid, m: Message)
    | MoreLock(c: Cid)
    | MoreRead(c: Cid)
    | MoreUnlock(c: Cid, more: bool)
    | MoreTest(c: Cid, more: bool)
    // LWS_CALLBACK_CLOSED
    | ClosedLock(c: Cid)
    | ClosedUnregister(c: Cid)
    | ClosedUnlock(c: Cid)
    | DrainLock(c: Cid)
    | DrainTake(c: Cid)
    | DrainUnlock(c: Cid, list: seq<Message>)
    | DrainFree(c: Cid, list: seq<Message>)

  // Failed: lws_write failed, the callback returned -1 and lws will close the connection.
  datatype Phase = Fresh | Opening | Open | Failed | Closing | Drained

  // `accepted`, `popped` and `drained` are histories.
  datatype Conn = Conn(
    phase: Phase,
    live: bool,                 // send_mutex_ready
    q: Queue,
    sendLock: Option<Tid>,
    pending: bool,              // lws owes the connection a writable callback
    partial: bool,              // lws_partial_buffered
    inflight: int,
    accepted: seq<Message>,
    popped: seq<Message>,
    drained: seq<Message>)

  const FreshConn := Conn(Fresh, false, Empty, None, false, false, 0, [], [], [])

  // Where a message is. The last four name the place that called ws_msg_free.
  datatype Fate = Held(t: Tid) | InQueue(c: Cid) | FreedWritten | FreedFailed | FreedRejected | FreedDrained

  // `freed` logs every call of ws_msg_free, `fate` is history.
  datatype Shared = Shared(
    registry: seq<Cid>,
    wsLock: Option<Tid>,
    nextId: nat,
    freed: seq<Message>,
    fate: map<Message, Fate>)

  datatype State = State(pc: seq<Pc>, conns: seq<Conn>, sh: Shared)

  // What one step can see: the thread's own program counter, the connection it works on, the rest.
  datatype View = View(pc: Pc, conn: Conn, sh: Shared)

  datatype Event =
    | CallSend(t: Tid, c: Cid, len: nat)
    | CallSendBinary(t: Tid, c: Cid, len: nat)
    | CallBroadcast(t: Tid, len: nat)
    | Established(c: Cid)
    | Writeable(c: Cid)
    | Flushed(c: Cid)           // lws finished a partial write
    | Receive(c: Cid)
    | Closed(c: Cid)
    | CallbackReturns
    | Exec(t: Tid, ok: bool, partial: bool)   // ok: malloc or lws_write succeeds

  predicate Init(s: State) {
    && |s.pc| > 0 && s.pc[0] == InService
    && (forall t :: 0 < t < |s.pc| ==> s.pc[t] == Rest)
    && (forall c :: 0 <= c < |s.conns| ==> s.conns[c] == FreshConn)
    && s.sh == Shared([], None, 0, [], map[])
  }

  // The lock a thread asks for next.
  predicate WantsWs(p: Pc) {
    p.AcquireLock? || p.ReleaseLock? || p.BroadcastLock? || p.EstablishedLock? || p.ClosedLock?
  }

  predicate WantsSend(p: Pc) {
    p.PushLock? || p.PopLock? || p.MoreLock? || p.DrainLock?
  }

  predicate HasConn(p: Pc) {
    !(p.Rest? || p.InService? || p.BroadcastLock? || p.BroadcastLoop? || p.BroadcastUnlock?)
  }

  // The messages a thread holds a private pointer to.
  function Hand(p: Pc): seq<Message> {
    match p
    case PushLock(_, _, m) => [m]
    case PushTest(_, _, m) => [m]
    case RejectUnlock(_, _, m) => [m]
    case RejectFree(_, _, m) => [m]
    case PopUnlock(_, Some(m)) => [m]
    case Write(_, m) => [m]
    case FailedFree(_, m) => [m]
    case WrittenFree(_, m) => [m]
    case DrainUnlock(_, list) => list
    case DrainFree(_, list) => list
    case _ => []
  }

  function Actor(e: Event): Tid {
    match e
    case CallSend(t, _, _) => t
    case CallSendBinary(t, _, _) => t
    case CallBroadcast(t, _) => t
    case Exec(t, _, _) => t
    case _ => SERVICE
  }

  // The connection an event works on, if any.
  function Site(s: State, e: Event): Option<Cid>
    requires Actor(e) < |s.pc|
  {
    match e
    case CallSend(_, c, _) => Some(c)
    case CallSendBinary(_, c, _) => Some(c)
    case Established(c) => Some(c)
    case Writeable(c) => Some(c)
    case Flushed(c) => Some(c)
    case Receive(c) => Some(c)
    case Closed(c) => Some(c)
    case Exec(t, _, _) => if HasConn(s.pc[t]) then Some(s.pc[t].c) else None
    case _ => None
  }

  // The threads and connections an event mentions exist.
  predicate InRange(s: State, e: Event) {
    Actor(e) < |s.pc| && (Site(s, e).Some? ==> Site(s, e).value < |s.conns|)
  }

  function Look(s: State, e: Event): View
    requires InRange(s, e)
  {
    View(s.pc[Actor(e)], if Site(s, e).Some? then s.conns[Site(s, e).value] else FreshConn, s.sh)
  }

  predicate Enabled(s: State, e: Event) {
    InRange(s, e) && ViewEnabled(Look(s, e), e)
  }

  predicate ViewEnabled(v: View, e: Event) {
    match e
    case CallSend(_, _, _) => v.pc == Rest
    case CallSendBinary(_, _, _) => v.pc == Rest && v.conn.live
    case CallBroadcast(_, _) => v.pc == Rest
    case Established(_) => v.pc == InService && v.conn.phase == Fresh
    case Writeable(_) => v.pc == InService && v.conn.phase == Open && v.conn.pending
    case Flushed(_) => v.pc == InService && v.conn.phase == Open && v.conn.partial
    case Receive(_) => v.pc == InService && v.conn.phase == Open
    case Closed(_) => v.pc == InService && (v.conn.phase == Open || v.conn.phase == Failed)
    case CallbackReturns => v.pc == Rest
    case Exec(_, _, _) => CanStep(v)
  }

  // A thread inside a call is only ever held up by a lock that is taken.
  predicate CanStep(v: View) {
    && v.pc != Rest && v.pc != InService
    && (WantsWs(v.pc) ==> v.sh.wsLock == None)
    && (WantsSend(v.pc) ==> v.conn.sendLock == None)
  }

  function Next(s: State, e: Event): State
    requires Enabled(s, e)
  {
    var v := ViewNext(Look(s, e), e);
    State(s.pc[Actor(e) := v.pc],
          if Site(s, e).Some? then s.conns[Site(s, e).value := v.conn] else s.conns,
          v.sh)
  }

  function ViewNext(v: View, e: Event): View
    requires ViewEnabled(v, e)
  {
    match e
    case CallSend(_, c, len) => v.(pc := AcquireLock(c, len))
    case CallSendBinary(_, c, len) => v.(pc := Create(SendBinary, c, len))
    case CallBroadcast(_, len) => v.(pc := BroadcastLock(len))
    case Established(c) => v.(pc := EstablishedLock(c), conn := v.conn.(phase := Opening))
    case Writeable(c) => v.(pc := WriteableTest(c), conn := v.conn.(pending := false))
    case Flushed(_) => v.(conn := v.conn.(partial := false, pending := true))
    case Receive(_) => v.(pc := Rest)                       // on_message runs
    case Closed(c) => v.(pc := ClosedLock(c), conn := v.conn.(phase := Closing))
    case CallbackReturns => v.(pc := InService)
    case Exec(t, ok, partial) => Step(v, t, ok, partial)
  }

  predicate IsApi(p: Pc) {
    p.AcquireLock? || p.AcquireTest? || p.AcquireUnlock? || p.ReleaseLock? || p.ReleaseDecrement?
    || p.ReleaseUnlock? || p.BroadcastLock? || p.BroadcastLoop? || p.BroadcastUnlock?
  }

  predicate IsPush(p: Pc) {
    p.Create? || p.PushLock? || p.PushTest? || p.RejectUnlock? || p.RejectFree? || p.AcceptUnlock? || p.Wake?
  }

  predicate IsEstablished(p: Pc) {
    p.EstablishedLock? || p.EstablishedRegister? || p.EstablishedUnlock?
  }

  predicate IsPop(p: Pc) {
    p.WriteableTest? || p.PopLock? || p.PopTake? || p.PopUnlock? || p.Write? || p.FailedFree?
  }

  predicate IsMore(p: Pc) {
    p.WrittenFree? || p.MoreLock? || p.MoreRead? || p.MoreUnlock? || p.MoreTest?
  }

  predicate IsClosed(p: Pc) {
    p.ClosedLock? || p.ClosedUnregister? || p.ClosedUnlock? || p.DrainLock? || p.DrainTake?
    || p.DrainUnlock? || p.DrainFree?
  }

  function Step(v: View, t: Tid, ok: bool, partial: bool): View
    requires CanStep(v)
  {
    if IsApi(v.pc) then StepApi(v, t)
    else if IsPush(v.pc) then StepPush(v, t, ok)
    else if IsEstablished(v.pc) then StepEstablished(v, t)
    else if IsPop(v.pc) then StepPop(v, t, ok, partial)
    else if IsMore(v.pc) then StepMore(v, t)
    else StepClosed(v, t)
  }

  // ws_msg_free
  function Free(sh: Shared, m: Message, f: Fate): Shared {
    sh.(freed := sh.freed + [m], fate := sh.fate[m := f])
  }

  // papago_ws_conn_acquire, ws_conn_release and the frame of papago_ws_broadcast
  function StepApi(v: View, t: Tid): View
    requires IsApi(v.pc)
  {
    match v.pc
    case AcquireLock(c, len) => v.(pc := AcquireTest(c, len), sh := v.sh.(wsLock := Some(t)))
    case AcquireTest(c, len) =>
      if v.conn.live
      then v.(pc := AcquireUnlock(c, len, true), conn := v.conn.(inflight := v.conn.inflight + 1))
      else v.(pc := AcquireUnlock(c, len, false))
    case AcquireUnlock(c, len, ok) =>
      v.(pc := if ok then Create(Send, c, len) else Rest, sh := v.sh.(wsLock := None))
    case ReleaseLock(c) => v.(pc := ReleaseDecrement(c), sh := v.sh.(wsLock := Some(t)))
    case ReleaseDecrement(c) => v.(pc := ReleaseUnlock(c), conn := v.conn.(inflight := v.conn.inflight - 1))
    case ReleaseUnlock(_) => v.(pc := Rest, sh := v.sh.(wsLock := None))
    case BroadcastLock(len) => v.(pc := BroadcastLoop(0, len), sh := v.sh.(wsLock := Some(t)))
    case BroadcastLoop(i, len) =>
      v.(pc := if i < |v.sh.registry| then Create(Broadcast(i, len), v.sh.registry[i], len) else BroadcastUnlock)
    case BroadcastUnlock => v.(pc := Rest, sh := v.sh.(wsLock := None))
  }

  // What follows the create-push-wake code.
  function Continue(k: Caller, c: Cid): Pc {
    match k
    case Send => ReleaseLock(c)
    case SendBinary => Rest
    case Broadcast(i, len) => BroadcastLoop(i + 1, len)
  }

  // ws_msg_create, ws_queue_push and the wake-up after it
  function StepPush(v: View, t: Tid, ok: bool): View
    requires IsPush(v.pc)
  {
    match v.pc
    case Create(k, c, len) =>
      if ok then
        var m := Message(v.sh.nextId, len, k.Broadcast?);
        v.(pc := PushLock(k, c, m), sh := v.sh.(nextId := v.sh.nextId + 1, fate := v.sh.fate[m := Held(t)]))
      else v.(pc := Continue(k, c))
    case PushLock(k, c, m) => v.(pc := PushTest(k, c, m), conn := v.conn.(sendLock := Some(t)))
    case PushTest(k, c, m) =>
      if Full(v.conn.q, m.len)
      then v.(pc := RejectUnlock(k, c, m))
      else v.(pc := AcceptUnlock(k, c),
              conn := v.conn.(q := Push(v.conn.q, m), accepted := v.conn.accepted + [m]),
              sh := v.sh.(fate := v.sh.fate[m := InQueue(c)]))
    case RejectUnlock(k, c, m) => v.(pc := RejectFree(k, c, m), conn := v.conn.(sendLock := None))
    case RejectFree(k, c, m) => v.(pc := Continue(k, c), sh := Free(v.sh, m, FreedRejected))
    case AcceptUnlock(k, c) => v.(pc := Wake(k, c), conn := v.conn.(sendLock := None))
    case Wake(k, c) => v.(pc := Continue(k, c), conn := v.conn.(pending := true))
  }

  function StepEstablished(v: View, t: Tid): View
    requires IsEstablished(v.pc)
  {
    match v.pc
    case EstablishedLock(c) => v.(pc := EstablishedRegister(c), sh := v.sh.(wsLock := Some(t)))
    case EstablishedRegister(c) =>
      v.(pc := EstablishedUnlock(c), conn := v.conn.(phase := Open, live := true),
         sh := v.sh.(registry := Register(v.sh.registry, c)))
    case EstablishedUnlock(_) => v.(pc := Rest, sh := v.sh.(wsLock := None))    // on_connect runs
  }

  function StepPop(v: View, t: Tid, ok: bool, partial: bool): View
    requires IsPop(v.pc)
  {
    match v.pc
    case WriteableTest(c) =>
      if v.conn.partial then v.(pc := InService, conn := v.conn.(pending := true)) else v.(pc := PopLock(c))
    case PopLock(c) => v.(pc := PopTake(c), conn := v.conn.(sendLock := Some(t)))
    case PopTake(c) =>
      if v.conn.q.msgs == [] then v.(pc := PopUnlock(c, None))
      else
        var m := v.conn.q.msgs[0];
        v.(pc := PopUnlock(c, Some(m)),
           conn := v.conn.(q := Pop(v.conn.q), popped := v.conn.popped + [m]),
           sh := v.sh.(fate := v.sh.fate[m := Held(t)]))
    case PopUnlock(c, taken) =>
      v.(pc := if taken.Some? then Write(c, taken.value) else InService, conn := v.conn.(sendLock := None))
    case Write(c, m) =>
      if ok then v.(pc := WrittenFree(c, m), conn := v.conn.(partial := partial))
      else v.(pc := FailedFree(c, m), conn := v.conn.(phase := Failed))
    case FailedFree(_, m) => v.(pc := Rest, sh := Free(v.sh, m, FreedFailed))   // on_error runs
  }

  function StepMore(v: View, t: Tid): View
    requires IsMore(v.pc)
  {
    match v.pc
    case WrittenFree(c, m) => v.(pc := MoreLock(c), sh := Free(v.sh, m, FreedWritten))
    case MoreLock(c) => v.(pc := MoreRead(c), conn := v.conn.(sendLock := Some(t)))
    case MoreRead(c) => v.(pc := MoreUnlock(c, v.conn.q.msgs != []))
    case MoreUnlock(c, more) => v.(pc := MoreTest(c, more), conn := v.conn.(sendLock := None))
    case MoreTest(_, more) =>
      if more && !v.conn.partial then v.(pc := InService, conn := v.conn.(pending := true)) else v.(pc := InService)
  }

  function StepClosed(v: View, t: Tid): View
    requires IsClosed(v.pc)
  {
    match v.pc
    case ClosedLock(c) => v.(pc := ClosedUnregister(c), sh := v.sh.(wsLock := Some(t)))
    case ClosedUnregister(c) =>
      v.(pc := ClosedUnlock(c), sh := v.sh.(registry := Unregister(v.sh.registry, c)))
    case ClosedUnlock(c) => v.(pc := DrainLock(c), sh := v.sh.(wsLock := None))
    case DrainLock(c) => v.(pc := DrainTake(c), conn := v.conn.(sendLock := Some(t)))
    case DrainTake(c) =>
      v.(pc := DrainUnlock(c, v.conn.q.msgs),
         conn := v.conn.(phase := Drained, q := Drain(v.conn.q), drained := v.conn.q.msgs),
         sh := v.sh.(fate := TakeAll(v.sh.fate, c, t)))
    case DrainUnlock(c, list) => v.(pc := DrainFree(c, list), conn := v.conn.(sendLock := None))
    case DrainFree(c, list) =>
      if list == [] then v.(pc := Rest)                                          // on_close runs
      else v.(pc := DrainFree(c, list[1..]), sh := Free(v.sh, list[0], FreedDrained))
  }

  // All queued messages of a connection change hands at once.
  function TakeAll(fate: map<Message, Fate>, c: Cid, t: Tid): map<Message, Fate> {
    map m | m in fate :: if fate[m] == InQueue(c) then Held(t) else fate[m]
  }

  function Register(registry: seq<Cid>, c: Cid): seq<Cid> {
    if |registry| < MAX_CONNECTIONS then registry + [c] else registry
  }

  // The entries after the first occurrence move up by one.
  function Unregister(registry: seq<Cid>, c: Cid): seq<Cid> {
    if registry == [] then []
    else if registry[0] == c then registry[1..]
    else [registry[0]] + Unregister(registry[1..], c)
  }
}
