/** What the send path guarantees in every run, however the threads are interleaved. */
module WsTheorems {
  import opened Options
  import opened MessageQueue
  import opened WsSteps
  import opened WsFacts
  import opened WsOwnership
  import opened WsSafety

  // A run: an initial state, then one enabled event after the other.
  ghost predicate IsRun(ss: seq<State>, es: seq<Event>) {
    && |ss| == |es| + 1 && Init(ss[0])
    && forall i :: 0 <= i < |es| ==> Enabled(ss[i], es[i]) && ss[i + 1] == Next(ss[i], es[i])
  }

  lemma {:induction false} CountNoneInFlight(pcs: seq<Pc>, c: Cid)
    requires forall t :: 0 <= t < |pcs| ==> !InFlight(pcs[t])
    ensures CountInFlight(pcs, c) == 0
  {
    if pcs != [] {
      CountNoneInFlight(pcs[1..], c);
    }
  }

  lemma InitInv(s: State)
    requires Init(s)
    ensures Inv(s)
  {
    assert InflightOk(s) by {
      forall c | 0 <= c < |s.conns| ensures s.conns[c].inflight == CountInFlight(s.pc, c) {
        CountNoneInFlight(s.pc, c);
      }
    }
    hide InflightOk;
  }

  lemma {:induction false} Reachable(ss: seq<State>, es: seq<Event>, i: nat)
    requires IsRun(ss, es) && i < |ss|
    ensures Inv(ss[i])
  {
    hide Inv, Init, Enabled, Next;
    if i == 0 {
      InitInv(ss[0]);
    } else {
      Reachable(ss, es, i - 1);
      StepInv(ss[i - 1], es[i - 1]);
    }
  }

  // ---------------------------------------------------------------- wake-ups

  // The service thread is between taking the writable callback of c and the outcome of its has_more test.
  predicate ServiceWillTest(p: Pc, c: Cid) {
    WillWake(p) && !p.AcceptUnlock? && !p.Wake? && p.c == c
  }

  // The sender is between its push to c and its lws_callback_on_writable.
  predicate SenderWillWake(p: Pc, c: Cid) {
    (p.AcceptUnlock? || p.Wake?) && p.c == c
  }

  // No lost wakeup: an open connection with queued messages is never forgotten.
  lemma NoLostWakeup(ss: seq<State>, es: seq<Event>, i: nat, c: Cid)
    requires IsRun(ss, es) && i < |ss| && c < |ss[i].conns|
    requires ss[i].conns[c].phase == Open && ss[i].conns[c].q.msgs != []
    ensures || ss[i].conns[c].pending
            || ss[i].conns[c].partial
            || (exists t :: 0 <= t < |ss[i].pc| && SenderWillWake(ss[i].pc[t], c))
            || (|ss[i].pc| > 0 && ServiceWillTest(ss[i].pc[SERVICE], c))
  {
    Reachable(ss, es, i);
    var s := ss[i];
    if !s.conns[c].pending && !s.conns[c].partial {
      var t :| 0 <= t < |s.pc| && WillWake(s.pc[t]) && s.pc[t].c == c;
      assert SenderWillWake(s.pc[t], c) || (ServiceWillTest(s.pc[t], c) && IsService(s.pc[t]));
    }
  }

  // ---------------------------------------------------------------- first in, first out

  // Accepted messages leave in order: first the popped ones, then the drained ones, then the queue.
  // Until the drain the counters are exact and within the limits.
  lemma FifoHistory(ss: seq<State>, es: seq<Event>, i: nat, c: Cid)
    requires IsRun(ss, es) && i < |ss| && c < |ss[i].conns|
    ensures var k := ss[i].conns[c];
      && k.accepted == k.popped + k.drained + k.q.msgs
      && (k.phase != Drained ==> k.drained == [])
      && (k.phase != Drained ==> k.q.msgCount == |k.q.msgs| <= 256)
      && (k.phase != Drained ==> k.q.byteCount == TotalLen(k.q.msgs) <= 1024 * 1024)
  {
    Reachable(ss, es, i);
  }

  lemma StepHistory(s: State, e: Event, c: Cid)
    requires Inv(s) && Enabled(s, e) && c < |s.conns|
    ensures |Next(s, e).conns| == |s.conns|
    ensures s.conns[c].accepted <= Next(s, e).conns[c].accepted
    ensures s.conns[c].popped <= Next(s, e).conns[c].popped
    ensures s.sh.freed <= Next(s, e).sh.freed
  {
    StepTarget(s, e);
    hide Inv, ViewNext, ViewEnabled;
  }

  // What was accepted, popped or freed stays so, in the same order.
  lemma {:induction false} HistoryGrows(ss: seq<State>, es: seq<Event>, i: nat, j: nat, c: Cid)
    requires IsRun(ss, es) && i <= j < |ss| && c < |ss[i].conns|
    ensures |ss[j].conns| == |ss[i].conns|
    ensures ss[i].conns[c].accepted <= ss[j].conns[c].accepted
    ensures ss[i].conns[c].popped <= ss[j].conns[c].popped
    ensures ss[i].sh.freed <= ss[j].sh.freed
  {
    hide Inv, Init, Enabled, Next;
    if i < j {
      HistoryGrows(ss, es, i, j - 1, c);
      Reachable(ss, es, j - 1);
      StepHistory(ss[j - 1], es[j - 1], c);
    }
  }

  // ---------------------------------------------------------------- ownership

  // Every message ever created is in exactly one place: in one hand, in one queue or freed, and there once.
  lemma OneOwner(ss: seq<State>, es: seq<Event>, i: nat, m: Message)
    requires IsRun(ss, es) && i < |ss| && m in ss[i].sh.fate
    ensures m in ss[i].sh.freed
         || (exists t :: 0 <= t < |ss[i].pc| && m in Hand(ss[i].pc[t]))
         || (exists c :: 0 <= c < |ss[i].conns| && m in ss[i].conns[c].q.msgs)
    ensures Distinct(ss[i].sh.freed)
    ensures forall t :: 0 <= t < |ss[i].pc| ==>
              Distinct(Hand(ss[i].pc[t])) && !(m in ss[i].sh.freed && m in Hand(ss[i].pc[t]))
    ensures forall c :: 0 <= c < |ss[i].conns| ==>
              Distinct(ss[i].conns[c].q.msgs) && !(m in ss[i].sh.freed && m in ss[i].conns[c].q.msgs)
    ensures forall t, c :: 0 <= t < |ss[i].pc| && 0 <= c < |ss[i].conns| ==>
              !(m in Hand(ss[i].pc[t]) && m in ss[i].conns[c].q.msgs)
    ensures forall t, u :: 0 <= t < |ss[i].pc| && 0 <= u < |ss[i].pc| ==>
              (m in Hand(ss[i].pc[t]) && m in Hand(ss[i].pc[u]) ==> t == u)
    ensures forall c, d :: 0 <= c < |ss[i].conns| && 0 <= d < |ss[i].conns| ==>
              (m in ss[i].conns[c].q.msgs && m in ss[i].conns[d].q.msgs ==> c == d)
  {
    hide Hand, IsRun, OwnOk, RangeOk, LockOk, ThreadsOk, ConnsOk, RegistryOk, InflightOk, WakeOk, Distinct;
    Reachable(ss, es, i);
    OwnedOnce(ss[i], m);
  }

  lemma OwnedOnce(s: State, m: Message)
    requires OwnOk(s) && m in s.sh.fate
    ensures Distinct(s.sh.freed) && (m in s.sh.freed <==> IsFreed(s.sh.fate[m]))
    ensures forall t :: 0 <= t < |s.pc| ==>
              Distinct(Hand(s.pc[t])) && (m in Hand(s.pc[t]) <==> s.sh.fate[m] == Held(t))
    ensures forall c :: 0 <= c < |s.conns| ==>
              Distinct(s.conns[c].q.msgs) && (m in s.conns[c].q.msgs <==> s.sh.fate[m] == InQueue(c))
    ensures m in s.sh.freed
         || (exists t :: 0 <= t < |s.pc| && m in Hand(s.pc[t]))
         || (exists c :: 0 <= c < |s.conns| && m in s.conns[c].q.msgs)
  {
    hide Hand, Distinct;
    match s.sh.fate[m] {
      case Held(t) => assert m in Hand(s.pc[t]);
      case InQueue(c) => assert m in s.conns[c].q.msgs;
      case _ =>
    }
    forall t | 0 <= t < |s.pc|
      ensures Distinct(Hand(s.pc[t])) && (m in Hand(s.pc[t]) <==> s.sh.fate[m] == Held(t))
    {
      assert Owns(s.sh.fate, Held(t), Hand(s.pc[t]));
    }
    forall c | 0 <= c < |s.conns|
      ensures Distinct(s.conns[c].q.msgs) && (m in s.conns[c].q.msgs <==> s.sh.fate[m] == InQueue(c))
    {
      assert Owns(s.sh.fate, InQueue(c), s.conns[c].q.msgs);
    }
  }

  // No broadcast is ever at the push of a connection whose queue has been drained.
  lemma BroadcastNeverHitsDrained(ss: seq<State>, es: seq<Event>, i: nat, t: Tid)
    requires IsRun(ss, es) && i < |ss| && t < |ss[i].pc| && BroadcastPush(ss[i].pc[t])
    ensures ss[i].pc[t].c < |ss[i].conns| && ss[i].conns[ss[i].pc[t].c].phase != Drained
    ensures ss[i].pc[t].c in ss[i].sh.registry
  {
    Reachable(ss, es, i);
    var s, c := ss[i], ss[i].pc[t].c;
    assert s.sh.registry[s.pc[t].k.i] == c;
    assert Listed(s.pc[0], s.conns[c], c);
  }

  // When every call has returned and every connection is closed, a message that was not freed
  // was pushed by a direct send after the close: all broadcast messages were freed, once.
  lemma QuiescentBroadcastsFreed(ss: seq<State>, es: seq<Event>, i: nat, m: Message)
    requires IsRun(ss, es) && i < |ss| && m in ss[i].sh.fate
    requires forall t :: 0 <= t < |ss[i].pc| ==> ss[i].pc[t] == Rest || ss[i].pc[t] == InService
    requires forall c :: 0 <= c < |ss[i].conns| ==> !ss[i].conns[c].live || ss[i].conns[c].phase == Drained
    ensures Distinct(ss[i].sh.freed)
    ensures m.broadcast ==> m in ss[i].sh.freed
    ensures m !in ss[i].sh.freed ==>
              exists c :: 0 <= c < |ss[i].conns| && ss[i].conns[c].phase == Drained && m in ss[i].conns[c].q.msgs
  {
    OneOwner(ss, es, i, m);
    Reachable(ss, es, i);
    assert ConnsOk(ss[i]);
    forall c | 0 <= c < |ss[i].conns| && m in ss[i].conns[c].q.msgs
      ensures ss[i].conns[c].phase == Drained && !m.broadcast
    {
      assert ConnOk(ss[i].conns[c]);
    }
  }

  // ---------------------------------------------------------------- locks

  predicate MidCall(p: Pc) {
    p != Rest && p != InService
  }

  // A thread that holds a send_mutex asks for no lock, one that holds ws_mutex asks for ws_mutex no
  // more, and user code runs with neither.
  lemma LockOrder(ss: seq<State>, es: seq<Event>, i: nat, t: Tid, c: Cid)
    requires IsRun(ss, es) && i < |ss| && t < |ss[i].pc| && c < |ss[i].conns|
    ensures ss[i].conns[c].sendLock == Some(t) ==> !WantsWs(ss[i].pc[t]) && !WantsSend(ss[i].pc[t])
    ensures ss[i].sh.wsLock == Some(t) ==> !WantsWs(ss[i].pc[t])
    ensures !MidCall(ss[i].pc[t]) ==> ss[i].sh.wsLock != Some(t) && ss[i].conns[c].sendLock != Some(t)
  {
    Reachable(ss, es, i);
    LockOrderOf(ss[i], t, c);
  }

  lemma LockOrderOf(s: State, t: Tid, c: Cid)
    requires LockOk(s) && t < |s.pc| && c < |s.conns|
    ensures s.conns[c].sendLock == Some(t) ==> !WantsWs(s.pc[t]) && !WantsSend(s.pc[t])
    ensures s.sh.wsLock == Some(t) ==> !WantsWs(s.pc[t])
    ensures !MidCall(s.pc[t]) ==> s.sh.wsLock != Some(t) && s.conns[c].sendLock != Some(t)
  {
    assert SendLockOk(s.pc, c, s.conns[c].sendLock);
  }

  // inflight is the number of papago_ws_send calls between acquire and release.
  lemma InflightCounts(ss: seq<State>, es: seq<Event>, i: nat, c: Cid)
    requires IsRun(ss, es) && i < |ss| && c < |ss[i].conns|
    ensures ss[i].conns[c].inflight == CountInFlight(ss[i].pc, c)
  {
    Reachable(ss, es, i);
  }

  predicate CanExec(s: State, t: Tid) {
    && t < |s.pc| && MidCall(s.pc[t]) && (HasConn(s.pc[t]) ==> s.pc[t].c < |s.conns|)
    && (WantsWs(s.pc[t]) ==> s.sh.wsLock == None)
    && (WantsSend(s.pc[t]) ==> HasConn(s.pc[t]) && s.conns[s.pc[t].c].sendLock == None)
  }

  lemma CanExecEnabled(s: State, t: Tid, ok: bool, partial: bool)
    requires CanExec(s, t)
    ensures Enabled(s, Exec(t, ok, partial))
  {
  }

  // As long as some call is in progress, some call can take its next step.
  lemma NoDeadlock(ss: seq<State>, es: seq<Event>, i: nat, t: Tid)
    requires IsRun(ss, es) && i < |ss| && t < |ss[i].pc| && MidCall(ss[i].pc[t])
    ensures exists u :: CanExec(ss[i], u)
  {
    Reachable(ss, es, i);
    SomeoneRuns(ss[i], t);
  }

  lemma SomeoneRuns(s: State, t: Tid)
    requires Inv(s) && t < |s.pc| && MidCall(s.pc[t])
    ensures exists u :: CanExec(s, u)
  {
    hide ThreadsOk, ConnsOk, RegistryOk, InflightOk, WakeOk, OwnOk, LockOk, RangeOk, CanExec;
    if WantsWs(s.pc[t]) && s.sh.wsLock.Some? {
      WsHolder(s);
      SenderRuns(s, s.sh.wsLock.value);
    } else {
      SenderRuns(s, t);
    }
  }

  lemma WsHolder(s: State)
    requires LockOk(s) && s.sh.wsLock.Some?
    ensures var h := s.sh.wsLock.value; h < |s.pc| && MidCall(s.pc[h]) && !WantsWs(s.pc[h])
  {
    assert HoldsWs(s.pc[s.sh.wsLock.value]);
  }

  // A thread that does not wait for ws_mutex can go on, or the holder of its send_mutex can.
  lemma SenderRuns(s: State, t: Tid)
    requires RangeOk(s) && LockOk(s) && t < |s.pc| && MidCall(s.pc[t])
    requires WantsWs(s.pc[t]) ==> s.sh.wsLock == None
    ensures exists u :: CanExec(s, u)
  {
    if WantsSend(s.pc[t]) && s.conns[s.pc[t].c].sendLock.Some? {
      var c := s.pc[t].c;
      assert SendLockOk(s.pc, c, s.conns[c].sendLock);
      assert HoldsSendOf(s.pc[s.conns[c].sendLock.value], c);
      assert CanExec(s, s.conns[c].sendLock.value);
    } else {
      assert CanExec(s, t);
    }
  }
}
