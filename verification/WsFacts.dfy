/** What one step of the send path does, seen from the stepping thread and the connection it works on. */
module WsFacts {
  import opened Options
  import opened MessageQueue
  import opened WsSteps

  // ---------------------------------------------------------------- locks

  predicate HoldsWs(p: Pc) {
    p.AcquireTest? || p.AcquireUnlock? || p.ReleaseDecrement? || p.ReleaseUnlock? || p.BroadcastLoop?
    || p.BroadcastUnlock? || p.EstablishedRegister? || p.EstablishedUnlock? || p.ClosedUnregister?
    || p.ClosedUnlock? || (IsPush(p) && p.k.Broadcast?)
  }

  predicate HoldsSend(p: Pc) {
    p.PushTest? || p.RejectUnlock? || p.AcceptUnlock? || p.PopTake? || p.PopUnlock? || p.MoreRead?
    || p.MoreUnlock? || p.DrainTake? || p.DrainUnlock?
  }

  // What a step does to a lock, told from the program counters before and after it.
  predicate LockMove(wants: bool, holds: bool, holds': bool, lock: Option<Tid>, lock': Option<Tid>, t: Tid) {
    && lock' == (if wants then Some(t) else if holds && !holds' then None else lock)
    && (wants ==> holds')
    && (holds' ==> wants || holds)
  }

  // ---------------------------------------------------------------- what holds of a thread and its connection

  predicate IsService(p: Pc) {
    p.InService? || IsEstablished(p) || IsPop(p) || IsMore(p) || IsClosed(p)
  }

  // The phase a service callback finds its connection in.
  predicate PhaseOk(p: Pc, ph: Phase) {
    && (p.EstablishedLock? || p.EstablishedRegister? ==> ph == Opening)
    && (p.EstablishedUnlock? ==> ph == Open)
    && ((IsPop(p) && !p.FailedFree?) || IsMore(p) ==> ph == Open)
    && (p.FailedFree? ==> ph == Failed)
    && (IsClosed(p) ==> ph == if p.DrainUnlock? || p.DrainFree? then Drained else Closing)
  }

  predicate PastAcquire(p: Pc) {
    IsPush(p) || (p.AcquireUnlock? && p.ok)
  }

  // A call of papago_ws_send between papago_ws_conn_acquire and ws_conn_release.
  predicate InFlight(p: Pc) {
    (p.AcquireUnlock? && p.ok) || (IsPush(p) && p.k.Send?) || p.ReleaseLock? || p.ReleaseDecrement?
  }

  predicate KindOk(p: Pc) {
    p.PushLock? || p.PushTest? || p.RejectUnlock? || p.RejectFree? ==> p.m.broadcast == p.k.Broadcast?
  }

  predicate NoBroadcast(msgs: seq<Message>) {
    forall j :: 0 <= j < |msgs| ==> !msgs[j].broadcast
  }

  // First in, first out; exact bounded counters until the drain; nothing broadcast after it.
  predicate ConnOk(k: Conn) {
    && (k.live <==> k.phase != Fresh && k.phase != Opening)
    && (!k.live ==> k.q.msgs == [])
    && k.accepted == k.popped + k.drained + k.q.msgs
    && (k.phase != Drained ==> k.drained == [] && Bounded(k.q))
    && (k.phase == Drained ==> NoBroadcast(k.q.msgs))
  }

  predicate ThreadOk(p: Pc, k: Conn) {
    PhaseOk(p, k.phase) && (PastAcquire(p) ==> k.live) && KindOk(p)
  }

  predicate ViewInv(v: View) {
    && ThreadOk(v.pc, v.conn)
    && ConnOk(v.conn)
  }

  // ---------------------------------------------------------------- wake-ups

  // A queue that lws has not been told about.
  predicate Unannounced(k: Conn) {
    k.phase == Open && k.q.msgs != [] && !k.pending && !k.partial
  }

  // The thread is between its push and its lws_callback_on_writable, or it is the service thread
  // on its way from the writable callback to the outcome of its has_more test.
  predicate WillWake(p: Pc) {
    || p.AcceptUnlock? || p.Wake?
    || p.WriteableTest? || p.PopLock? || p.PopTake? || (p.PopUnlock? && p.taken.Some?) || p.Write?
    || p.WrittenFree? || p.MoreLock? || p.MoreRead? || (p.MoreUnlock? && p.more) || (p.MoreTest? && p.more)
  }

  // ---------------------------------------------------------------- one step

  predicate ViewMove(v: View, v': View, t: Tid) {
    && LockMove(WantsWs(v.pc), HoldsWs(v.pc), HoldsWs(v'.pc), v.sh.wsLock, v'.sh.wsLock, t)
    && LockMove(WantsSend(v.pc), HoldsSend(v.pc), HoldsSend(v'.pc), v.conn.sendLock, v'.conn.sendLock, t)
    && (Unannounced(v'.conn) && !WillWake(v'.pc) ==> Unannounced(v.conn) && !WillWake(v.pc))
    && v'.conn.inflight - v.conn.inflight == Flag(InFlight(v'.pc)) - Flag(InFlight(v.pc))
  }

  function Flag(b: bool): nat {
    if b then 1 else 0
  }

  // A registered connection is open, failed, or about to be unregistered.
  predicate Listed(p: Pc, k: Conn, c: Cid) {
    || k.phase == Open || k.phase == Failed
    || (k.phase == Closing && (p == ClosedLock(c) || p == ClosedUnregister(c)))
  }

  predicate BroadcastPush(p: Pc) {
    IsPush(p) && p.k.Broadcast?
  }

  // Which connection a thread turns to, and how the registry, the phases and the histories move.
  predicate ViewTarget(v: View, v': View, t: Tid, site: Option<Cid>) {
    && (HasConn(v'.pc) ==> if v.pc.BroadcastLoop? then v'.pc.Create? && v'.pc.k.Broadcast? else site == Some(v'.pc.c))
    && (IsService(v'.pc) ==> IsService(v.pc) || t == SERVICE)
    && (BroadcastPush(v'.pc) ==>
          || (BroadcastPush(v.pc) && v.pc.k.i == v'.pc.k.i)
          || (v.pc.BroadcastLoop? && v'.pc.k.i < |v.sh.registry| && v'.pc.c == v.sh.registry[v'.pc.k.i]))
    && (v.conn.live ==> v'.conn.live)
    && v.conn.accepted <= v'.conn.accepted && v.conn.popped <= v'.conn.popped && v.sh.freed <= v'.sh.freed
    && (v'.conn.phase != v.conn.phase || v'.sh.registry != v.sh.registry ==> IsService(v.pc))
    && v'.sh.registry == (if v.pc.EstablishedRegister? then Register(v.sh.registry, v.pc.c)
                          else if v.pc.ClosedUnregister? then Unregister(v.sh.registry, v.pc.c)
                          else v.sh.registry)
    && (site.Some? && !v.pc.ClosedUnregister? && Listed(v.pc, v.conn, site.value) ==>
          Listed(v'.pc, v'.conn, site.value))
  }

  function PcSite(p: Pc): Option<Cid> {
    if HasConn(p) then Some(p.c) else None
  }

  lemma CallMove(v: View, e: Event)
    requires ViewEnabled(v, e) && (e.CallSend? || e.CallSendBinary? || e.CallBroadcast? || e.CallbackReturns?)
    ensures ViewMove(v, ViewNext(v, e), Actor(e))
  {
    hide Push, Pop, Drain, Full, Register, Unregister, TakeAll;
  }

  lemma EventMove(v: View, e: Event)
    requires ViewEnabled(v, e) && (e.Established? || e.Writeable? || e.Flushed? || e.Receive? || e.Closed?)
    ensures ViewMove(v, ViewNext(v, e), Actor(e))
  {
    hide Push, Pop, Drain, Full, Register, Unregister, TakeAll;
  }

  lemma ApiMove(v: View, t: Tid)
    requires IsApi(v.pc)
    ensures ViewMove(v, StepApi(v, t), t)
  {
    hide Push, Pop, Drain, Full, Register, Unregister, TakeAll;
  }

  lemma PushMove(v: View, t: Tid, ok: bool)
    requires IsPush(v.pc)
    ensures ViewMove(v, StepPush(v, t, ok), t)
  {
    hide Push, Pop, Drain, Full, Register, Unregister, TakeAll;
  }

  lemma EstablishedMove(v: View, t: Tid)
    requires IsEstablished(v.pc) && ConnOk(v.conn) && PhaseOk(v.pc, v.conn.phase)
    ensures ViewMove(v, StepEstablished(v, t), t)
  {
  }

  lemma PopMove(v: View, t: Tid, ok: bool, partial: bool)
    requires IsPop(v.pc)
    ensures ViewMove(v, StepPop(v, t, ok, partial), t)
  {
    hide Push, Pop, Drain, Full, Register, Unregister, TakeAll;
  }

  lemma MoreMove(v: View, t: Tid)
    requires IsMore(v.pc)
    ensures ViewMove(v, StepMore(v, t), t)
  {
    hide Push, Pop, Drain, Full, Register, Unregister, TakeAll;
  }

  lemma ClosedMove(v: View, t: Tid)
    requires IsClosed(v.pc)
    ensures ViewMove(v, StepClosed(v, t), t)
  {
    hide Push, Pop, Drain, Full, Register, Unregister, TakeAll;
  }

  lemma CallInv(v: View, e: Event)
    requires ViewEnabled(v, e) && ViewInv(v)
    requires e.CallSend? || e.CallSendBinary? || e.CallBroadcast? || e.CallbackReturns?
    ensures ViewInv(ViewNext(v, e))
  {
    hide Full, Register, Unregister, TakeAll, Free, Bounded, TotalLen;
  }

  lemma EventInv(v: View, e: Event)
    requires ViewEnabled(v, e) && ViewInv(v)
    requires e.Established? || e.Writeable? || e.Flushed? || e.Receive? || e.Closed?
    ensures ViewInv(ViewNext(v, e))
  {
    hide Full, Register, Unregister, TakeAll, Free, Bounded, TotalLen;
  }

  lemma ApiInv(v: View, t: Tid)
    requires IsApi(v.pc) && !v.pc.BroadcastLoop? && ViewInv(v)
    ensures ViewInv(StepApi(v, t))
  {
    hide Full, Register, Unregister, TakeAll, Free, Bounded, TotalLen;
  }

  lemma PushInv(v: View, t: Tid, ok: bool)
    requires IsPush(v.pc) && ViewInv(v) && (v.pc.k.Broadcast? ==> v.conn.phase != Drained)
    ensures ViewInv(StepPush(v, t, ok))
  {
    hide Register, Unregister, TakeAll, TotalLen;
    if v.pc.PushTest? && !Full(v.conn.q, v.pc.m.len) && v.conn.phase != Drained {
      PushBounded(v.conn.q, v.pc.m);
    }
  }

  lemma EstablishedInv(v: View, t: Tid)
    requires IsEstablished(v.pc) && ViewInv(v)
    ensures ViewInv(StepEstablished(v, t))
  {
  }

  lemma PopInv(v: View, t: Tid, ok: bool, partial: bool)
    requires IsPop(v.pc) && ViewInv(v)
    ensures ViewInv(StepPop(v, t, ok, partial))
  {
    hide Full, Register, Unregister, TakeAll, Free;
  }

  lemma MoreInv(v: View, t: Tid)
    requires IsMore(v.pc) && ViewInv(v)
    ensures ViewInv(StepMore(v, t))
  {
    hide Full, Register, Unregister, TakeAll, Free, Bounded, TotalLen;
  }

  lemma ClosedInv(v: View, t: Tid)
    requires IsClosed(v.pc) && ViewInv(v)
    ensures ViewInv(StepClosed(v, t))
  {
    hide Full, Register, Unregister, TakeAll, Free, Bounded, TotalLen;
  }

  lemma CallTarget(v: View, e: Event, site: Option<Cid>)
    requires ViewEnabled(v, e) && (e.CallSend? || e.CallSendBinary? || e.CallBroadcast? || e.CallbackReturns?)
    requires e.CallSend? || e.CallSendBinary? ==> site == Some(e.c)
    ensures ViewTarget(v, ViewNext(v, e), Actor(e), site)
  {
    hide Push, Pop, Drain, Full, Register, Unregister, TakeAll;
  }

  lemma EventTarget(v: View, e: Event)
    requires ViewEnabled(v, e) && (e.Established? || e.Writeable? || e.Flushed? || e.Receive? || e.Closed?)
    ensures ViewTarget(v, ViewNext(v, e), Actor(e), Some(e.c))
  {
    hide Push, Pop, Drain, Full, Register, Unregister, TakeAll;
  }

  lemma ApiTarget(v: View, t: Tid)
    requires IsApi(v.pc)
    ensures ViewTarget(v, StepApi(v, t), t, PcSite(v.pc))
  {
    hide Push, Pop, Drain, Full, Register, Unregister, TakeAll;
  }

  lemma PushTarget(v: View, t: Tid, ok: bool)
    requires IsPush(v.pc)
    ensures ViewTarget(v, StepPush(v, t, ok), t, PcSite(v.pc))
  {
    hide Push, Pop, Drain, Full, Register, Unregister, TakeAll;
  }

  lemma EstablishedTarget(v: View, t: Tid)
    requires IsEstablished(v.pc)
    ensures ViewTarget(v, StepEstablished(v, t), t, PcSite(v.pc))
  {
  }

  lemma PopTarget(v: View, t: Tid, ok: bool, partial: bool)
    requires IsPop(v.pc) && PhaseOk(v.pc, v.conn.phase)
    ensures ViewTarget(v, StepPop(v, t, ok, partial), t, PcSite(v.pc))
  {
    hide Push, Pop, Drain, Full, Register, Unregister, TakeAll;
  }

  lemma MoreTarget(v: View, t: Tid)
    requires IsMore(v.pc)
    ensures ViewTarget(v, StepMore(v, t), t, PcSite(v.pc))
  {
    hide Push, Pop, Drain, Full, Register, Unregister, TakeAll;
  }

  lemma ClosedTarget(v: View, t: Tid)
    requires IsClosed(v.pc) && PhaseOk(v.pc, v.conn.phase)
    ensures ViewTarget(v, StepClosed(v, t), t, PcSite(v.pc))
  {
    hide Push, Pop, Drain, Full, Register, Unregister, TakeAll;
  }
}
