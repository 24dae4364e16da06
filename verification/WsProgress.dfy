/** Progress of the send path: from every reachable state an open connection's queue can be sent to its end,
    without a new call, as long as allocations and writes succeed. */
module WsProgress {
  import opened Options
  import opened MessageQueue
  import opened WsSteps
  import opened WsFacts
  import opened WsOwnership
  import opened WsSafety
  import opened WsTheorems

  // Calls in progress go on, user code returns, and lws does what it owes: no new call, no close, no failure.
  predicate Onward(e: Event) {
    (e.Exec? && e.ok) || e.Writeable? || e.Flushed? || e.CallbackReturns?
  }

  ghost predicate Leads(s: State, es: seq<Event>, s': State)
    decreases |es|
  {
    if es == [] then s == s'
    else Onward(es[0]) && Enabled(s, es[0]) && Leads(Next(s, es[0]), es[1..], s')
  }

  lemma {:induction false} LeadsConcat(s: State, a: seq<Event>, m: State, b: seq<Event>, s': State)
    requires Leads(s, a, m) && Leads(m, b, s')
    ensures Leads(s, a + b, s')
    decreases |a|
  {
    hide Enabled, Next, Onward;
    if a == [] {
      assert a + b == b;
    } else {
      LeadsConcat(Next(s, a[0]), a[1..], m, b, s');
      assert (a + b)[1..] == a[1..] + b;
    }
  }

  lemma LeadsNowhere(s: State)
    ensures Leads(s, [], s)
  {
  }

  lemma LeadsFirst(s: State, e: Event, rest: seq<Event>, s': State)
    requires Onward(e) && Enabled(s, e) && Leads(Next(s, e), rest, s')
    ensures Leads(s, [e] + rest, s')
  {
    hide Enabled, Next, Onward;
    assert ([e] + rest)[1..] == rest;
  }

  lemma LeadsOnce(s: State, e: Event)
    requires Onward(e) && Enabled(s, e)
    ensures Leads(s, [e], Next(s, e))
  {
    hide Enabled, Next, Onward;
    LeadsNowhere(Next(s, e));
    assert [e][1..] == [];
  }

  // ---------------------------------------------------------------- what such a step keeps

  // The invariant, a registry within its array, and connection c open.
  ghost predicate Good(s: State, c: Cid) {
    Inv(s) && |s.sh.registry| <= MAX_CONNECTIONS && c < |s.conns| && s.conns[c].phase == Open
  }

  lemma ViewStaysOpen(v: View, e: Event)
    requires ViewEnabled(v, e) && Onward(e) && PhaseOk(v.pc, v.conn.phase) && v.conn.phase == Open
    ensures ViewNext(v, e).conn.phase == Open
  {
    hide Push, Pop, Drain, Full, Register, Unregister, TakeAll;
  }

  lemma StaysOpen(s: State, e: Event, c: Cid)
    requires Inv(s) && Enabled(s, e) && Onward(e) && c < |s.conns| && s.conns[c].phase == Open
    ensures |Next(s, e).conns| == |s.conns| && Next(s, e).conns[c].phase == Open
  {
    if Site(s, e) == Some(c) {
      SitePhase(s, e, c);
      hide Inv, ViewNext, ViewEnabled;
      ViewStaysOpen(Look(s, e), e);
    }
  }

  lemma SitePhase(s: State, e: Event, c: Cid)
    requires Inv(s) && Enabled(s, e) && Onward(e) && Site(s, e) == Some(c) && c < |s.conns|
    ensures PhaseOk(s.pc[Actor(e)], s.conns[c].phase)
  {
    var t := Actor(e);
    if e.Exec? { assert ThreadOk(s.pc[t], s.conns[s.pc[t].c]); }
  }

  lemma {:induction false} UnregisterShorter(registry: seq<Cid>, c: Cid)
    ensures |Unregister(registry, c)| <= |registry|
  {
    if registry != [] && registry[0] != c { UnregisterShorter(registry[1..], c); }
  }

  lemma SmallStep(s: State, e: Event)
    requires Inv(s) && Enabled(s, e) && |s.sh.registry| <= MAX_CONNECTIONS
    ensures |Next(s, e).sh.registry| <= MAX_CONNECTIONS
  {
    StepTarget(s, e);
    var v := Look(s, e);
    if v.pc.ClosedUnregister? { UnregisterShorter(s.sh.registry, v.pc.c); }
    hide Inv, ViewNext, ViewEnabled, Unregister;
  }

  lemma GoodStep(s: State, e: Event, c: Cid)
    requires Good(s, c) && Enabled(s, e) && Onward(e)
    ensures Good(Next(s, e), c)
    ensures s.conns[c].accepted <= Next(s, e).conns[c].accepted
  {
    hide Inv, Enabled, Next, Onward;
    StepInv(s, e);
    SmallStep(s, e);
    StaysOpen(s, e, c);
    StepHistory(s, e, c);
  }

  lemma {:induction false} GoodRun(s: State, es: seq<Event>, s': State, c: Cid)
    requires Good(s, c) && Leads(s, es, s')
    ensures Good(s', c) && s.conns[c].accepted <= s'.conns[c].accepted
    decreases |es|
  {
    hide Inv, Enabled, Next, Onward;
    if es != [] {
      GoodStep(s, es[0], c);
      GoodRun(Next(s, es[0]), es[1..], s', c);
    }
  }

  // ---------------------------------------------------------------- every call comes to its end

  // Steps left in a call at most; the drain's list counts by itself.
  function Rank(p: Pc): nat {
    match p
    case Rest => 0
    case InService => 0
    case AcquireLock(_, _) => 11
    case AcquireTest(_, _) => 10
    case AcquireUnlock(_, _, _) => 9
    case Create(k, _, _) => 5 + Then(k)
    case PushLock(k, _, _) => 4 + Then(k)
    case PushTest(k, _, _) => 3 + Then(k)
    case RejectUnlock(k, _, _) => 2 + Then(k)
    case RejectFree(k, _, _) => 1 + Then(k)
    case AcceptUnlock(k, _) => 2 + Then(k)
    case Wake(k, _) => 1 + Then(k)
    case ReleaseLock(_) => 3
    case ReleaseDecrement(_) => 2
    case ReleaseUnlock(_) => 1
    case BroadcastLock(_) => 3 + 8 * MAX_CONNECTIONS
    case BroadcastLoop(i, _) => Looping(i)
    case BroadcastUnlock => 1
    case EstablishedLock(_) => 3
    case EstablishedRegister(_) => 2
    case EstablishedUnlock(_) => 1
    case WriteableTest(_) => 10
    case PopLock(_) => 9
    case PopTake(_) => 8
    case PopUnlock(_, _) => 7
    case Write(_, _) => 6
    case FailedFree(_, _) => 1
    case WrittenFree(_, _) => 5
    case MoreLock(_) => 4
    case MoreRead(_) => 3
    case MoreUnlock(_, _) => 2
    case MoreTest(_, _) => 1
    case ClosedLock(_) => 7
    case ClosedUnregister(_) => 6
    case ClosedUnlock(_) => 5
    case DrainLock(_) => 4
    case DrainTake(_) => 3
    case DrainUnlock(_, _) => 2
    case DrainFree(_, _) => 1
  }

  function Looping(i: nat): nat {
    2 + 8 * (if i < MAX_CONNECTIONS then MAX_CONNECTIONS - i else 0)
  }

  function Then(k: Caller): nat {
    match k
    case Send => 3
    case SendBinary => 0
    case Broadcast(i, _) => Looping(i + 1)
  }

  function Draining(p: Pc): nat {
    if p.DrainFree? then |p.list| else 0
  }

  ghost predicate Falls(p: Pc, p': Pc) {
    Rank(p') < Rank(p) || (Rank(p') == Rank(p) && p.DrainFree? && Draining(p') < Draining(p))
  }

  lemma ApiFalls(v: View, t: Tid)
    requires CanStep(v) && IsApi(v.pc) && |v.sh.registry| <= MAX_CONNECTIONS
    ensures Falls(v.pc, StepApi(v, t).pc)
  {
  }

  lemma PushFalls(v: View, t: Tid)
    requires CanStep(v) && IsPush(v.pc)
    ensures Falls(v.pc, StepPush(v, t, true).pc)
  {
    hide Push, Full, Free;
  }

  lemma EstablishedFalls(v: View, t: Tid)
    requires CanStep(v) && IsEstablished(v.pc)
    ensures Falls(v.pc, StepEstablished(v, t).pc)
  {
    hide Register;
  }

  lemma PopFalls(v: View, t: Tid, partial: bool)
    requires CanStep(v) && IsPop(v.pc)
    ensures Falls(v.pc, StepPop(v, t, true, partial).pc)
  {
    hide Pop, Free;
  }

  lemma MoreFalls(v: View, t: Tid)
    requires CanStep(v) && IsMore(v.pc)
    ensures Falls(v.pc, StepMore(v, t).pc)
  {
    hide Free;
  }

  lemma ClosedFalls(v: View, t: Tid)
    requires CanStep(v) && IsClosed(v.pc)
    ensures Falls(v.pc, StepClosed(v, t).pc)
  {
    hide Drain, Unregister, TakeAll, Free;
  }

  lemma RankFalls(v: View, t: Tid, partial: bool)
    requires CanStep(v) && |v.sh.registry| <= MAX_CONNECTIONS
    ensures Falls(v.pc, Step(v, t, true, partial).pc)
  {
    hide Falls, StepApi, StepPush, StepEstablished, StepPop, StepMore, StepClosed;
    if IsApi(v.pc) { ApiFalls(v, t); }
    else if IsPush(v.pc) { PushFalls(v, t); }
    else if IsEstablished(v.pc) { EstablishedFalls(v, t); }
    else if IsPop(v.pc) { PopFalls(v, t, partial); }
    else if IsMore(v.pc) { MoreFalls(v, t); }
    else { ClosedFalls(v, t); }
  }

  function Ranks(pcs: seq<Pc>): nat {
    if pcs == [] then 0 else Rank(pcs[0]) + Ranks(pcs[1..])
  }

  lemma {:induction false} RanksUpdate(pcs: seq<Pc>, t: Tid, p: Pc)
    requires t < |pcs|
    ensures Ranks(pcs[t := p]) + Rank(pcs[t]) == Ranks(pcs) + Rank(p)
  {
    hide Rank;
    if t == 0 {
      assert pcs[0 := p][1..] == pcs[1..];
    } else {
      assert pcs[t := p][1..] == pcs[1..][t - 1 := p];
      RanksUpdate(pcs[1..], t - 1, p);
    }
  }

  ghost predicate NoCalls(s: State) {
    forall t :: 0 <= t < |s.pc| ==> !MidCall(s.pc[t])
  }

  lemma ExecFalls(s: State, u: Tid, c: Cid)
    requires Good(s, c) && CanExec(s, u) && Enabled(s, Exec(u, true, false))
    ensures var s' := Next(s, Exec(u, true, false));
      && |s'.pc| == |s.pc| > 0
      && (Ranks(s'.pc) < Ranks(s.pc) || (Ranks(s'.pc) == Ranks(s.pc) && Draining(s'.pc[0]) < Draining(s.pc[0])))
  {
    var e := Exec(u, true, false);
    var v := Look(s, e);
    RankFalls(v, u, false);
    RanksUpdate(s.pc, u, ViewNext(v, e).pc);
    assert IsService(s.pc[u]) ==> u == 0;
    hide Rank, Ranks, Step;
  }

  // All calls in progress can be run to their end.
  lemma {:induction false} CallsEnd(s: State, c: Cid) returns (es: seq<Event>, s': State)
    requires Good(s, c)
    ensures Leads(s, es, s') && Good(s', c) && NoCalls(s')
    decreases Ranks(s.pc), if |s.pc| > 0 then Draining(s.pc[0]) else 0
  {
    hide Inv, Enabled, Next, Ranks, Draining, CanExec, Leads;
    if NoCalls(s) {
      LeadsNowhere(s);
      es, s' := [], s;
    } else {
      var t :| 0 <= t < |s.pc| && MidCall(s.pc[t]);
      SomeoneRuns(s, t);
      var u :| CanExec(s, u);
      CanExecEnabled(s, u, true, false);
      var e := Exec(u, true, false);
      ExecFalls(s, u, c);
      GoodStep(s, e, c);
      var rest, end := CallsEnd(Next(s, e), c);
      LeadsFirst(s, e, rest, end);
      es, s' := [e] + rest, end;
    }
  }

  // ---------------------------------------------------------------- one message after the other

  // Nothing is going on but the service loop.
  ghost predicate Quiet(s: State) {
    |s.pc| > 0 && s.pc[0] == InService && forall t :: 0 < t < |s.pc| ==> s.pc[t] == Rest
  }

  ghost predicate Alone(s: State) {
    |s.pc| > 0 && forall t :: 0 < t < |s.pc| ==> s.pc[t] == Rest
  }

  lemma NoCallsRest(s: State)
    requires Inv(s) && NoCalls(s)
    ensures Alone(s) && (s.pc[0] == Rest || s.pc[0] == InService)
  {
    assert RangeOk(s);
  }

  lemma Quieten(s: State, c: Cid) returns (es: seq<Event>, s': State)
    requires Good(s, c)
    ensures Leads(s, es, s') && Good(s', c) && Quiet(s')
  {
    hide Leads;
    es, s' := CallsEnd(s, c);
    NoCallsRest(s');
    hide Inv, NoCalls;
    if s'.pc[0] == Rest {
      var quiet := Next(s', CallbackReturns);
      GoodStep(s', CallbackReturns, c);
      LeadsOnce(s', CallbackReturns);
      LeadsConcat(s, es, s', [CallbackReturns], quiet);
      es, s' := es + [CallbackReturns], quiet;
    }
  }

  // The service thread is on its way to leave n messages in the queue of c.
  predicate Sending(p: Pc, k: Conn, c: Cid, n: nat) {
    && !k.partial
    && (p == WriteableTest(c) || p == PopLock(c) || p == PopTake(c) ==> |k.q.msgs| == n + 1)
    && (p.PopUnlock? ==> p.taken.Some?)
    && (p != WriteableTest(c) && p != PopLock(c) && p != PopTake(c) ==> |k.q.msgs| == n)
    && (p == InService || ((IsPop(p) || IsMore(p)) && !p.FailedFree? && p.c == c))
  }

  lemma SendingPop(v: View, c: Cid, n: nat)
    requires CanStep(v) && Sending(v.pc, v.conn, c, n) && IsPop(v.pc)
    ensures var v' := StepPop(v, SERVICE, true, false); Sending(v'.pc, v'.conn, c, n)
  {
    hide Free;
  }

  lemma SendingMore(v: View, c: Cid, n: nat)
    requires CanStep(v) && Sending(v.pc, v.conn, c, n) && IsMore(v.pc)
    ensures var v' := StepMore(v, SERVICE); Sending(v'.pc, v'.conn, c, n)
  {
    hide Free;
  }

  lemma SendingStep(v: View, c: Cid, n: nat)
    requires CanStep(v) && Sending(v.pc, v.conn, c, n)
    ensures var v' := Step(v, SERVICE, true, false); Sending(v'.pc, v'.conn, c, n) && Rank(v'.pc) < Rank(v.pc)
  {
    if IsPop(v.pc) {
      PopFalls(v, SERVICE, false);
      SendingPop(v, c, n);
    } else {
      MoreFalls(v, SERVICE);
      SendingMore(v, c, n);
    }
    hide Rank, StepApi, StepPush, StepEstablished, StepPop, StepMore, StepClosed;
  }

  lemma {:induction false} ServiceSends(s: State, c: Cid, n: nat) returns (es: seq<Event>, s': State)
    requires Good(s, c) && Alone(s) && Sending(s.pc[0], s.conns[c], c, n)
    ensures Leads(s, es, s') && Good(s', c) && Quiet(s') && |s'.conns[c].q.msgs| == n
    decreases if |s.pc| > 0 then Rank(s.pc[0]) else 0
  {
    hide Leads, Inv, Enabled, Next, Rank;
    if s.pc[0] == InService {
      LeadsNowhere(s);
      es, s' := [], s;
    } else {
      var e := Exec(SERVICE, true, false);
      ServiceCanStep(s);
      ServiceNext(s, c, n);
      GoodStep(s, e, c);
      var rest, end := ServiceSends(Next(s, e), c, n);
      LeadsFirst(s, e, rest, end);
      es, s' := [e] + rest, end;
    }
  }

  lemma ServiceCanStep(s: State)
    requires Inv(s) && Alone(s) && MidCall(s.pc[0])
    ensures Enabled(s, Exec(SERVICE, true, false))
  {
    SomeoneRuns(s, 0);
    var u :| CanExec(s, u);
    CanExecEnabled(s, u, true, false);
  }

  lemma ServiceNext(s: State, c: Cid, n: nat)
    requires Good(s, c) && Alone(s) && Sending(s.pc[0], s.conns[c], c, n) && s.pc[0] != InService
    requires Enabled(s, Exec(SERVICE, true, false))
    ensures var s' := Next(s, Exec(SERVICE, true, false));
      Alone(s') && c < |s'.conns| && Sending(s'.pc[0], s'.conns[c], c, n) && Rank(s'.pc[0]) < Rank(s.pc[0])
  {
    hide Inv;
    SendingStep(Look(s, Exec(SERVICE, true, false)), c, n);
    hide Step, Rank, Sending;
  }

  // A quiet open connection with messages is owed a callback, now or when lws has flushed a write.
  lemma QuietAnnounced(s: State, c: Cid)
    requires Good(s, c) && Quiet(s) && s.conns[c].q.msgs != []
    ensures s.conns[c].pending || s.conns[c].partial
  {
    assert WakeOk(s);
    NobodyExcused(s, c);
  }

  lemma NobodyExcused(s: State, c: Cid)
    requires Quiet(s)
    ensures !Excused(s.pc, c)
  {
  }

  lemma FlushedStep(s: State, c: Cid)
    requires Good(s, c) && Quiet(s) && s.conns[c].partial
    ensures Enabled(s, Flushed(c))
    ensures var s' := Next(s, Flushed(c));
      Quiet(s') && c < |s'.conns|
      && s'.conns[c].q == s.conns[c].q && s'.conns[c].pending && !s'.conns[c].partial
  {
    hide Inv;
  }

  lemma Flush(s: State, c: Cid) returns (es: seq<Event>, s': State)
    requires Good(s, c) && Quiet(s) && s.conns[c].q.msgs != []
    ensures Leads(s, es, s') && Good(s', c) && Quiet(s')
    ensures s'.conns[c].q == s.conns[c].q && s'.conns[c].pending && !s'.conns[c].partial
  {
    QuietAnnounced(s, c);
    hide Inv, Leads, Quiet, Enabled, Next;
    if s.conns[c].partial {
      var e := Flushed(c);
      FlushedStep(s, c);
      GoodStep(s, e, c);
      LeadsOnce(s, e);
      es, s' := [e], Next(s, e);
    } else {
      LeadsNowhere(s);
      es, s' := [], s;
    }
  }

  lemma WriteableStarts(s: State, c: Cid)
    requires Good(s, c) && Quiet(s) && s.conns[c].q.msgs != [] && s.conns[c].pending && !s.conns[c].partial
    ensures Enabled(s, Writeable(c))
    ensures var s' := Next(s, Writeable(c));
      Alone(s') && c < |s'.conns| && Sending(s'.pc[0], s'.conns[c], c, |s.conns[c].q.msgs| - 1)
  {
    hide Inv;
  }

  // One writable callback sends one message.
  lemma SendOne(s: State, c: Cid) returns (es: seq<Event>, s': State)
    requires Good(s, c) && Quiet(s) && s.conns[c].q.msgs != []
    ensures Leads(s, es, s') && Good(s', c) && Quiet(s') && |s'.conns[c].q.msgs| == |s.conns[c].q.msgs| - 1
  {
    hide Inv, Leads, Quiet, Alone, Enabled, Next, Sending;
    var flush, ready := Flush(s, c);
    var e := Writeable(c);
    WriteableStarts(ready, c);
    GoodStep(ready, e, c);
    var send, end := ServiceSends(Next(ready, e), c, |s.conns[c].q.msgs| - 1);
    LeadsFirst(ready, e, send, end);
    LeadsConcat(s, flush, ready, [e] + send, end);
    es, s' := flush + ([e] + send), end;
  }

  lemma {:induction false} SendAll(s: State, c: Cid) returns (es: seq<Event>, s': State)
    requires Good(s, c) && Quiet(s)
    ensures Leads(s, es, s') && Good(s', c) && s'.conns[c].q.msgs == []
    decreases if c < |s.conns| then |s.conns[c].q.msgs| else 0
  {
    hide Inv, Leads, Quiet;
    if s.conns[c].q.msgs == [] {
      es, s' := [], s;
      LeadsNowhere(s);
    } else {
      var one, m := SendOne(s, c);
      var more, end := SendAll(m, c);
      LeadsConcat(s, one, m, more, end);
      es, s' := one + more, end;
    }
  }

  // ---------------------------------------------------------------- the theorem

  lemma {:induction false} SmallRegistry(ss: seq<State>, es: seq<Event>, i: nat)
    requires IsRun(ss, es) && i < |ss|
    ensures |ss[i].sh.registry| <= MAX_CONNECTIONS
  {
    if i > 0 {
      SmallRegistry(ss, es, i - 1);
      Reachable(ss, es, i - 1);
      hide Inv, Enabled, Next;
      SmallStep(ss[i - 1], es[i - 1]);
    }
  }

  // From every reachable state, without a new call, an open connection can have popped all it ever accepted.
  lemma QueueCanEmpty(ss: seq<State>, es: seq<Event>, i: nat, c: Cid)
    requires IsRun(ss, es) && i < |ss| && c < |ss[i].conns| && ss[i].conns[c].phase == Open
    ensures exists more: seq<Event>, s': State ::
      && Leads(ss[i], more, s') && c < |s'.conns| && s'.conns[c].phase == Open && s'.conns[c].q.msgs == []
      && ss[i].conns[c].accepted <= s'.conns[c].accepted == s'.conns[c].popped
  {
    Reachable(ss, es, i);
    SmallRegistry(ss, es, i);
    hide Inv, Leads, Quiet;
    var a, m := Quieten(ss[i], c);
    var b, s' := SendAll(m, c);
    LeadsConcat(ss[i], a, m, b, s');
    GoodRun(ss[i], a + b, s', c);
    AllPopped(s', c);
  }

  lemma AllPopped(s: State, c: Cid)
    requires Inv(s) && c < |s.conns| && s.conns[c].phase == Open && s.conns[c].q.msgs == []
    ensures s.conns[c].accepted == s.conns[c].popped
  {
    assert ConnOk(s.conns[c]);
  }
}
