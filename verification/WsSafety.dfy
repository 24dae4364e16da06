/** The invariant of the send path and what it means for every run. */
module WsSafety {
  import opened Options
  import opened WsSteps
  import opened WsFacts
  import opened WsOwnership

  // ---------------------------------------------------------------- the invariant

  // Everything that is mentioned exists; only thread 0 runs service code.
  ghost predicate RangeOk(s: State) {
    && |s.pc| > 0
    && (forall t :: 0 <= t < |s.pc| && HasConn(s.pc[t]) ==> s.pc[t].c < |s.conns|)
    && (forall t :: 0 <= t < |s.pc| && IsService(s.pc[t]) ==> t == SERVICE)
    && (forall i :: 0 <= i < |s.sh.registry| ==> s.sh.registry[i] < |s.conns|)
  }

  // A lock is held by exactly the thread whose program counter says so.
  ghost predicate WsLockOk(pcs: seq<Pc>, lock: Option<Tid>) {
    && (forall t :: 0 <= t < |pcs| ==> (HoldsWs(pcs[t]) <==> lock == Some(t)))
    && (lock.Some? ==> lock.value < |pcs|)
  }

  predicate HoldsSendOf(p: Pc, c: Cid) {
    HoldsSend(p) && p.c == c
  }

  ghost predicate SendLockOk(pcs: seq<Pc>, c: Cid, lock: Option<Tid>) {
    && (forall t :: 0 <= t < |pcs| ==> (HoldsSendOf(pcs[t], c) <==> lock == Some(t)))
    && (lock.Some? ==> lock.value < |pcs|)
  }

  ghost predicate LockOk(s: State) {
    && WsLockOk(s.pc, s.sh.wsLock)
    && (forall c :: 0 <= c < |s.conns| ==> SendLockOk(s.pc, c, s.conns[c].sendLock))
  }

  ghost predicate ThreadsOk(s: State)
    requires RangeOk(s)
  {
    forall t :: 0 <= t < |s.pc| && HasConn(s.pc[t]) ==> ThreadOk(s.pc[t], s.conns[s.pc[t].c])
  }

  ghost predicate ConnsOk(s: State) {
    forall c :: 0 <= c < |s.conns| ==> ConnOk(s.conns[c])
  }

  // No connection is registered twice or after its close; a broadcast pushes to the entry it is at.
  ghost predicate RegistryOk(s: State)
    requires RangeOk(s)
  {
    && Distinct(s.sh.registry)
    && (forall i :: 0 <= i < |s.sh.registry| ==> Listed(s.pc[0], s.conns[s.sh.registry[i]], s.sh.registry[i]))
    && (forall t :: 0 <= t < |s.pc| && BroadcastPush(s.pc[t]) ==>
          s.pc[t].k.i < |s.sh.registry| && s.sh.registry[s.pc[t].k.i] == s.pc[t].c)
  }

  function InFlightOn(p: Pc, c: Cid): bool {
    InFlight(p) && p.c == c
  }

  function CountInFlight(pcs: seq<Pc>, c: Cid): nat {
    if pcs == [] then 0 else Flag(InFlightOn(pcs[0], c)) + CountInFlight(pcs[1..], c)
  }

  ghost predicate InflightOk(s: State) {
    forall c :: 0 <= c < |s.conns| ==> s.conns[c].inflight == CountInFlight(s.pc, c)
  }

  // Some thread has yet to announce the queue of this connection.
  ghost predicate Excused(pcs: seq<Pc>, c: Cid) {
    exists t :: 0 <= t < |pcs| && WillWake(pcs[t]) && pcs[t].c == c
  }

  ghost predicate WakeOk(s: State) {
    forall c :: 0 <= c < |s.conns| && Unannounced(s.conns[c]) ==> Excused(s.pc, c)
  }

  ghost predicate OwnOk(s: State) {
    && Allocated(s.sh) && FreedOnce(s.sh)
    && (forall t :: 0 <= t < |s.pc| ==> Owns(s.sh.fate, Held(t), Hand(s.pc[t])))
    && (forall c :: 0 <= c < |s.conns| ==> Owns(s.sh.fate, InQueue(c), s.conns[c].q.msgs))
    && (forall m :: m in s.sh.fate && s.sh.fate[m].Held? ==> s.sh.fate[m].t < |s.pc|)
    && (forall m :: m in s.sh.fate && s.sh.fate[m].InQueue? ==> s.sh.fate[m].c < |s.conns|)
  }

  ghost predicate Inv(s: State) {
    && RangeOk(s) && LockOk(s) && ThreadsOk(s) && ConnsOk(s) && RegistryOk(s)
    && InflightOk(s) && WakeOk(s) && OwnOk(s)
  }

  // ---------------------------------------------------------------- one step keeps it

  lemma StepMove(s: State, e: Event)
    requires RangeOk(s) && ThreadsOk(s) && ConnsOk(s) && Enabled(s, e)
    ensures ViewMove(Look(s, e), ViewNext(Look(s, e), e), Actor(e))
  {
    var v := Look(s, e);
    if e.CallSend? || e.CallSendBinary? || e.CallBroadcast? || e.CallbackReturns? { CallMove(v, e); }
    else if !e.Exec? { EventMove(v, e); }
    else if IsApi(v.pc) { ApiMove(v, e.t); }
    else if IsPush(v.pc) { PushMove(v, e.t, e.ok); }
    else if IsEstablished(v.pc) { EstablishedMove(v, e.t); }
    else if IsPop(v.pc) { PopMove(v, e.t, e.ok, e.partial); }
    else if IsMore(v.pc) { MoreMove(v, e.t); }
    else { ClosedMove(v, e.t); }
  }

  lemma StepTarget(s: State, e: Event)
    requires RangeOk(s) && ThreadsOk(s) && Enabled(s, e)
    ensures ViewTarget(Look(s, e), ViewNext(Look(s, e), e), Actor(e), Site(s, e))
  {
    var v := Look(s, e);
    if e.CallSend? || e.CallSendBinary? || e.CallBroadcast? || e.CallbackReturns? { CallTarget(v, e, Site(s, e)); }
    else if !e.Exec? { EventTarget(v, e); }
    else if IsApi(v.pc) { ApiTarget(v, e.t); }
    else if IsPush(v.pc) { PushTarget(v, e.t, e.ok); }
    else if IsEstablished(v.pc) { EstablishedTarget(v, e.t); }
    else if IsPop(v.pc) { PopTarget(v, e.t, e.ok, e.partial); }
    else if IsMore(v.pc) { MoreTarget(v, e.t); }
    else { ClosedTarget(v, e.t); }
  }

  lemma StepView(s: State, e: Event)
    requires RangeOk(s) && ThreadsOk(s) && ConnsOk(s) && RegistryOk(s) && Enabled(s, e) && Site(s, e).Some?
    ensures ViewInv(ViewNext(Look(s, e), e))
  {
    var v := Look(s, e);
    if e.CallSend? || e.CallSendBinary? || e.CallBroadcast? || e.CallbackReturns? { CallInv(v, e); }
    else if !e.Exec? { EventInv(v, e); }
    else if IsApi(v.pc) { ApiInv(v, e.t); }
    else if IsPush(v.pc) { PushInv(v, e.t, e.ok); }
    else if IsEstablished(v.pc) { EstablishedInv(v, e.t); }
    else if IsPop(v.pc) { PopInv(v, e.t, e.ok, e.partial); }
    else if IsMore(v.pc) { MoreInv(v, e.t); }
    else { ClosedInv(v, e.t); }
  }

  // The new state, told from the views: one program counter, at most one connection, the shared part.
  ghost predicate Moved(s: State, s': State, t: Tid, site: Option<Cid>, v: View, v': View) {
    && t < |s.pc| && (site.Some? ==> site.value < |s.conns|)
    && v == View(s.pc[t], if site.Some? then s.conns[site.value] else FreshConn, s.sh)
    && s' == State(s.pc[t := v'.pc], if site.Some? then s.conns[site.value := v'.conn] else s.conns, v'.sh)
    && (HasConn(v.pc) ==> site == Some(v.pc.c))
    && (v.pc.BroadcastLoop? ==> site == None)
  }

  lemma {:induction false} RegistryEntries(registry: seq<Cid>, c: Cid)
    ensures forall x :: x in Unregister(registry, c) ==> x in registry
    ensures Distinct(registry) ==> Distinct(Unregister(registry, c)) && c !in Unregister(registry, c)
  {
    hide Distinct;
    if registry == [] {
      EmptyDistinct();
    } else if registry[0] == c {
      DistinctCons(registry);
    } else {
      RegistryEntries(registry[1..], c);
      DistinctCons(registry);
      DistinctPush(registry[0], Unregister(registry[1..], c));
    }
  }

  lemma EmptyDistinct()
    ensures Distinct<Cid>([])
  {
  }

  lemma DistinctPush(c: Cid, rest: seq<Cid>)
    ensures c !in rest && Distinct(rest) ==> Distinct([c] + rest)
    ensures forall x :: x in [c] + rest <==> x == c || x in rest
  {
    assert forall j :: 0 <= j < |rest| ==> rest[j] in rest;
  }

  lemma KeepRange(s: State, s': State, t: Tid, site: Option<Cid>, v: View, v': View)
    requires RangeOk(s) && Moved(s, s', t, site, v, v') && ViewTarget(v, v', t, site)
    requires v.pc.BroadcastLoop? && HasConn(v'.pc) ==> v'.pc.c in s.sh.registry
    ensures RangeOk(s')
  {
    if v.pc.ClosedUnregister? {
      RegistryEntries(s.sh.registry, v.pc.c);
    }
    forall i | 0 <= i < |s'.sh.registry| ensures s'.sh.registry[i] < |s.conns| {
      assert s'.sh.registry[i] in s.sh.registry || s'.sh.registry[i] == v.pc.c;
    }
  }

  lemma KeepWsLock(pcs: seq<Pc>, t: Tid, p': Pc, lock: Option<Tid>, lock': Option<Tid>)
    requires t < |pcs| && WsLockOk(pcs, lock)
    requires LockMove(WantsWs(pcs[t]), HoldsWs(pcs[t]), HoldsWs(p'), lock, lock', t)
    requires WantsWs(pcs[t]) ==> lock == None
    ensures WsLockOk(pcs[t := p'], lock')
  {
    hide HoldsWs, WantsWs;
  }

  lemma KeepSendLock(pcs: seq<Pc>, t: Tid, p': Pc, c: Cid, wants: bool, lock: Option<Tid>, lock': Option<Tid>)
    requires t < |pcs| && SendLockOk(pcs, c, lock)
    requires LockMove(wants, HoldsSendOf(pcs[t], c), HoldsSendOf(p', c), lock, lock', t)
    requires wants ==> lock == None
    ensures SendLockOk(pcs[t := p'], c, lock')
  {
    hide HoldsSendOf;
  }

  lemma KeepLocks(s: State, s': State, t: Tid, site: Option<Cid>, v: View, v': View)
    requires LockOk(s)
    requires Moved(s, s', t, site, v, v') && ViewMove(v, v', t) && ViewTarget(v, v', t, site)
    requires (WantsWs(v.pc) ==> v.sh.wsLock == None) && (WantsSend(v.pc) ==> v.conn.sendLock == None)
    ensures LockOk(s')
  {
    KeepWsLock(s.pc, t, v'.pc, v.sh.wsLock, v'.sh.wsLock);
    forall c | 0 <= c < |s.conns| ensures SendLockOk(s'.pc, c, s'.conns[c].sendLock) {
      assert HoldsSend(v'.pc) ==> site == Some(v'.pc.c);
      KeepSendLock(s.pc, t, v'.pc, c, WantsSend(v.pc) && site == Some(c), s.conns[c].sendLock, s'.conns[c].sendLock);
    }
  }

  lemma ThreadOkStable(p: Pc, k: Conn, k': Conn)
    requires ThreadOk(p, k) && (k.live ==> k'.live) && (k'.phase == k.phase || !IsService(p))
    ensures ThreadOk(p, k')
  {
  }

  lemma KeepThreads(s: State, s': State, t: Tid, site: Option<Cid>, v: View, v': View)
    requires RangeOk(s) && ThreadsOk(s) && RangeOk(s')
    requires Moved(s, s', t, site, v, v') && ViewTarget(v, v', t, site)
    requires HasConn(s'.pc[t]) ==> ThreadOk(s'.pc[t], s'.conns[s'.pc[t].c])
    ensures ThreadsOk(s')
  {
    forall u | 0 <= u < |s'.pc| && HasConn(s'.pc[u]) ensures ThreadOk(s'.pc[u], s'.conns[s'.pc[u].c]) {
      if u != t {
        ThreadOkStable(s.pc[u], s.conns[s.pc[u].c], s'.conns[s.pc[u].c]);
      }
    }
  }

  lemma KeepConns(s: State, s': State, t: Tid, site: Option<Cid>, v: View, v': View)
    requires ConnsOk(s) && Moved(s, s', t, site, v, v') && (site.Some? ==> ConnOk(v'.conn))
    ensures ConnsOk(s')
  {
  }

  // Listed survives the step, except for the connection that is being unregistered.
  lemma KeepListed(s: State, s': State, t: Tid, site: Option<Cid>, v: View, v': View, c: Cid)
    requires RangeOk(s) && Moved(s, s', t, site, v, v') && ViewTarget(v, v', t, site)
    requires c < |s.conns| && Listed(s.pc[0], s.conns[c], c) && !(v.pc.ClosedUnregister? && v.pc.c == c)
    ensures Listed(s'.pc[0], s'.conns[c], c)
  {
    if t == SERVICE {
      if site != Some(c) {
        assert s.pc[0] == ClosedLock(c) || s.pc[0] == ClosedUnregister(c) ==> site == Some(c);
      }
    } else {
      assert !IsService(v.pc);
    }
  }

  lemma KeepRegistry(s: State, s': State, t: Tid, site: Option<Cid>, v: View, v': View)
    requires RangeOk(s) && LockOk(s) && ThreadsOk(s) && RegistryOk(s) && RangeOk(s')
    requires Moved(s, s', t, site, v, v') && ViewTarget(v, v', t, site)
    requires v.pc.EstablishedRegister? ==> v'.conn.phase == Open
    ensures RegistryOk(s')
  {
    var r, r' := s.sh.registry, s'.sh.registry;
    RegistryEntries(r, if v.pc.ClosedUnregister? then v.pc.c else 0);
    if v.pc.EstablishedRegister? && |r| < MAX_CONNECTIONS {
      assert ThreadOk(s.pc[t], s.conns[v.pc.c]);
      assert !Listed(v.pc, v.conn, v.pc.c);
      assert v.pc.c !in r;
    }
    forall i | 0 <= i < |r'| ensures Listed(s'.pc[0], s'.conns[r'[i]], r'[i]) {
      if r'[i] in r && !(v.pc.ClosedUnregister? && v.pc.c == r'[i]) {
        KeepListed(s, s', t, site, v, v', r'[i]);
      } else {
        assert r'[i] in r';
      }
    }
    KeepBroadcasters(s, s', t, site, v, v');
  }

  // Whoever changes the registry holds ws_mutex, and so does every broadcast.
  lemma KeepBroadcasters(s: State, s': State, t: Tid, site: Option<Cid>, v: View, v': View)
    requires RangeOk(s) && LockOk(s) && RegistryOk(s)
    requires Moved(s, s', t, site, v, v') && ViewTarget(v, v', t, site)
    ensures forall u :: 0 <= u < |s'.pc| && BroadcastPush(s'.pc[u]) ==>
              s'.pc[u].k.i < |s'.sh.registry| && s'.sh.registry[s'.pc[u].k.i] == s'.pc[u].c
  {
    forall u | 0 <= u < |s'.pc| && BroadcastPush(s'.pc[u])
      ensures s'.pc[u].k.i < |s'.sh.registry| && s'.sh.registry[s'.pc[u].k.i] == s'.pc[u].c
    {
      if u != t {
        assert HoldsWs(s.pc[u]) && !HoldsWs(v.pc);
        assert v'.sh.registry == v.sh.registry;
      }
    }
  }

  lemma WakeMove(s: State, s': State, t: Tid, site: Option<Cid>, v: View, v': View)
    requires Moved(s, s', t, site, v, v') && ViewMove(v, v', t) && ViewTarget(v, v', t, site)
    ensures (WillWake(v.pc) ==> site == Some(v.pc.c)) && (WillWake(v'.pc) ==> site == Some(v'.pc.c))
    ensures Unannounced(v'.conn) && !WillWake(v'.pc) ==> Unannounced(v.conn) && !WillWake(v.pc)
  {
    hide Unannounced, LockMove, InFlight, BroadcastPush, Listed, IsService;
  }

  lemma KeepWake(s: State, s': State, t: Tid, site: Option<Cid>, v: View, v': View)
    requires WakeOk(s)
    requires Moved(s, s', t, site, v, v') && ViewMove(v, v', t) && ViewTarget(v, v', t, site)
    ensures WakeOk(s')
  {
    WakeMove(s, s', t, site, v, v');
    hide WillWake, Unannounced, HasConn, ViewMove, ViewTarget;
    forall c | 0 <= c < |s'.conns| && Unannounced(s'.conns[c]) ensures Excused(s'.pc, c) {
      if site == Some(c) && WillWake(v'.pc) {
        assert WillWake(s'.pc[t]) && s'.pc[t].c == c;
      } else {
        var u :| 0 <= u < |s.pc| && WillWake(s.pc[u]) && s.pc[u].c == c;
        assert WillWake(s'.pc[u]) && s'.pc[u].c == c;
      }
    }
  }

  lemma {:induction false} CountInFlightUpdate(pcs: seq<Pc>, t: Tid, p: Pc, c: Cid)
    requires t < |pcs|
    ensures CountInFlight(pcs[t := p], c) - CountInFlight(pcs, c)
         == Flag(InFlightOn(p, c)) - Flag(InFlightOn(pcs[t], c))
  {
    if t == 0 {
      assert pcs[0 := p][1..] == pcs[1..];
    } else {
      assert pcs[t := p][1..] == pcs[1..][t - 1 := p];
      CountInFlightUpdate(pcs[1..], t - 1, p, c);
    }
  }

  lemma InflightMove(s: State, s': State, t: Tid, site: Option<Cid>, v: View, v': View)
    requires Moved(s, s', t, site, v, v') && ViewMove(v, v', t) && ViewTarget(v, v', t, site)
    ensures (InFlight(v.pc) ==> site == Some(v.pc.c)) && (InFlight(v'.pc) ==> site == Some(v'.pc.c))
    ensures v'.conn.inflight - v.conn.inflight == Flag(InFlight(v'.pc)) - Flag(InFlight(v.pc))
  {
    hide Unannounced, LockMove, WillWake, BroadcastPush, Listed, IsService;
  }

  lemma KeepInflight(s: State, s': State, t: Tid, site: Option<Cid>, v: View, v': View)
    requires InflightOk(s)
    requires Moved(s, s', t, site, v, v') && ViewMove(v, v', t) && ViewTarget(v, v', t, site)
    ensures InflightOk(s')
  {
    InflightMove(s, s', t, site, v, v');
    hide InFlight, CountInFlight, HasConn, ViewMove, ViewTarget;
    forall c | 0 <= c < |s.conns| ensures s'.conns[c].inflight == CountInFlight(s'.pc, c) {
      CountInFlightUpdate(s.pc, t, v'.pc, c);
    }
  }

  lemma KeepOwners(s: State, s': State, t: Tid, site: Option<Cid>, v: View, v': View)
    requires OwnOk(s) && Moved(s, s', t, site, v, v')
    requires if site.Some? then OwnView(v', t, site.value) && FateMove(v.sh.fate, v'.sh.fate, t, site.value)
             else Untouched(v, v')
    ensures OwnOk(s')
  {
    hide Hand;
    forall u | 0 <= u < |s'.pc| ensures Owns(s'.sh.fate, Held(u), Hand(s'.pc[u])) {
      if u != t {
        if site.Some? { OwnsKept(s.sh.fate, s'.sh.fate, Held(u), Hand(s.pc[u]), t, site.value); }
      }
    }
    forall c | 0 <= c < |s'.conns| ensures Owns(s'.sh.fate, InQueue(c), s'.conns[c].q.msgs) {
      if site != Some(c) {
        if site.Some? { OwnsKept(s.sh.fate, s'.sh.fate, InQueue(c), s.conns[c].q.msgs, t, site.value); }
      }
    }
  }

  lemma BroadcastTarget(v: View, v': View, t: Tid, site: Option<Cid>)
    requires ViewTarget(v, v', t, site) && v.pc.BroadcastLoop? && HasConn(v'.pc)
    ensures v'.pc.Create? && v'.pc.k.Broadcast? && v'.pc.k.i < |v.sh.registry| && v'.pc.c == v.sh.registry[v'.pc.k.i]
  {
  }

  // A broadcast only turns to a registered connection, and those are live.
  lemma BroadcastTurns(s: State, s': State, t: Tid, site: Option<Cid>, v: View, v': View)
    requires RangeOk(s) && ConnsOk(s) && RegistryOk(s)
    requires Moved(s, s', t, site, v, v') && ViewTarget(v, v', t, site) && v.pc.BroadcastLoop? && HasConn(v'.pc)
    ensures v'.pc.c in s.sh.registry && v'.pc.c < |s'.conns| && ThreadOk(v'.pc, s'.conns[v'.pc.c])
  {
    BroadcastTarget(v, v', t, site);
    hide ViewTarget;
    assert s'.conns == s.conns;
    var c := s.sh.registry[v'.pc.k.i];
    assert Listed(s.pc[0], s.conns[c], c) && ConnOk(s.conns[c]);
  }

  // The connection and the program counter a step leaves behind are well-formed.
  lemma KeepView(s: State, s': State, t: Tid, site: Option<Cid>, v: View, v': View)
    requires RangeOk(s) && ConnsOk(s) && ThreadsOk(s) && RegistryOk(s)
    requires Moved(s, s', t, site, v, v') && ViewTarget(v, v', t, site) && (site.Some? ==> ViewInv(v'))
    ensures RangeOk(s') && ThreadsOk(s') && ConnsOk(s')
  {
    if v.pc.BroadcastLoop? && HasConn(v'.pc) {
      BroadcastTurns(s, s', t, site, v, v');
    }
    hide RangeOk, ConnsOk, ThreadsOk, RegistryOk, ThreadOk, ConnOk, IsService;
    KeepRange(s, s', t, site, v, v');
    KeepThreads(s, s', t, site, v, v');
    KeepConns(s, s', t, site, v, v');
  }

  lemma KeepRest(s: State, s': State, t: Tid, site: Option<Cid>, v: View, v': View)
    requires RangeOk(s) && LockOk(s) && ThreadsOk(s) && RegistryOk(s) && InflightOk(s) && WakeOk(s) && RangeOk(s')
    requires Moved(s, s', t, site, v, v') && ViewMove(v, v', t) && ViewTarget(v, v', t, site)
    requires (WantsWs(v.pc) ==> v.sh.wsLock == None) && (WantsSend(v.pc) ==> v.conn.sendLock == None)
    requires v.pc.EstablishedRegister? ==> v'.conn.phase == Open
    ensures LockOk(s') && RegistryOk(s') && InflightOk(s') && WakeOk(s')
  {
    hide RangeOk, LockOk, ThreadsOk, RegistryOk, InflightOk, WakeOk, Moved, ViewMove, ViewTarget;
    KeepLocks(s, s', t, site, v, v');
    KeepRegistry(s, s', t, site, v, v');
    KeepWake(s, s', t, site, v, v');
    KeepInflight(s, s', t, site, v, v');
  }

  lemma StepMoved(s: State, e: Event)
    requires Enabled(s, e)
    ensures Moved(s, Next(s, e), Actor(e), Site(s, e), Look(s, e), ViewNext(Look(s, e), e))
    ensures var v := Look(s, e);
      && (WantsWs(v.pc) ==> v.sh.wsLock == None) && (WantsSend(v.pc) ==> v.conn.sendLock == None)
      && (v.pc.EstablishedRegister? ==> ViewNext(v, e).conn.phase == Open)
  {
  }

  lemma StepInv(s: State, e: Event)
    requires Inv(s) && Enabled(s, e)
    ensures Inv(Next(s, e))
  {
    var t, site, v, v', s' := Actor(e), Site(s, e), Look(s, e), ViewNext(Look(s, e), e), Next(s, e);
    StepMoved(s, e);
    StepMove(s, e);
    StepTarget(s, e);
    if site.Some? { StepView(s, e); }
    KeepView(s, s', t, site, v, v');
    KeepRest(s, s', t, site, v, v');
    StepOwners(s, e);
  }

  lemma StepOwners(s: State, e: Event)
    requires OwnOk(s) && Enabled(s, e)
    ensures OwnOk(Next(s, e))
  {
    var t, site, v, v' := Actor(e), Site(s, e), Look(s, e), ViewNext(Look(s, e), e);
    StepMoved(s, e);
    if site.Some? { StepOwn(v, e, site.value); }
    else if e.Exec? { OtherSteps(v, e.t, e.ok, e.partial); }
    else { OtherEvents(v, e); }
    KeepOwners(s, Next(s, e), t, site, v, v');
  }
}
