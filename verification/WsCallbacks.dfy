/** What the callbacks of the service thread come to, over every run: when a connection is in the table, what
    is written and in which order, and what a close leaves. */
module WsCallbacks {
  import opened Options
  import opened MessageQueue
  import opened WsSteps
  import opened WsFacts
  import opened WsOwnership
  import opened WsSafety
  import opened WsTheorems
  import opened WsCalls

  // ---------------------------------------------------------------- what the service thread is about

  // Between the test for a partial write and lws_write.
  predicate BeforeWrite(p: Pc, c: Cid) {
    (p.PopLock? || p.PopTake? || (p.PopUnlock? && p.taken.Some?) || p.Write?) && p.c == c
  }

  predicate Opens(p: Pc, c: Cid) {
    (p.EstablishedLock? || p.EstablishedRegister?) && p.c == c
  }

  predicate Closes(p: Pc, c: Cid) {
    (p.ClosedLock? || p.ClosedUnregister? || p.ClosedUnlock? || p.DrainLock? || p.DrainTake?) && p.c == c
  }

  predicate Frees(p: Pc, c: Cid, m: Message) {
    (p.DrainUnlock? || p.DrainFree?) && p.c == c && m in p.list
  }

  ghost predicate Served(p: Pc, k: Conn, c: Cid, freed: seq<Message>) {
    && (BeforeWrite(p, c) ==> !k.partial)
    && (k.phase == Opening ==> Opens(p, c))
    && (k.phase == Closing ==> Closes(p, c))
    && (forall m :: m in k.drained && m !in freed ==> Frees(p, c, m))
  }

  ghost predicate ServiceOk(s: State) {
    |s.pc| > 0 && forall c :: 0 <= c < |s.conns| ==> Served(s.pc[SERVICE], s.conns[c], c, s.sh.freed)
  }

  // What user code in any thread leaves alone.
  predicate UserStep(v: View, v': View) {
    && v'.conn.phase == v.conn.phase && v'.conn.partial == v.conn.partial
    && v'.conn.drained == v.conn.drained && v'.conn.popped == v.conn.popped
    && v'.sh.registry == v.sh.registry && v.sh.freed <= v'.sh.freed
  }

  // User code runs: a call into the library begins or goes on.
  predicate IsUser(p: Pc, e: Event) {
    e.CallSend? || e.CallSendBinary? || e.CallBroadcast? || (e.Exec? && (IsApi(p) || IsPush(p)))
  }

  lemma UserKeeps(v: View, e: Event)
    requires ViewEnabled(v, e) && IsUser(v.pc, e)
    ensures UserStep(v, ViewNext(v, e))
    ensures IsApi(ViewNext(v, e).pc) || IsPush(ViewNext(v, e).pc) || ViewNext(v, e).pc == Rest
  {
    hide StepApi, StepPush;
    if e.Exec? {
      if IsApi(v.pc) { ApiKeeps(v, e.t); } else { PushKeeps(v, e.t, e.ok); }
    }
  }

  lemma ApiKeeps(v: View, t: Tid)
    requires IsApi(v.pc)
    ensures UserStep(v, StepApi(v, t))
    ensures IsApi(StepApi(v, t).pc) || IsPush(StepApi(v, t).pc) || StepApi(v, t).pc == Rest
  {
  }

  lemma PushKeeps(v: View, t: Tid, ok: bool)
    requires IsPush(v.pc)
    ensures UserStep(v, StepPush(v, t, ok))
    ensures IsApi(StepPush(v, t, ok).pc) || IsPush(StepPush(v, t, ok).pc) || StepPush(v, t, ok).pc == Rest
  {
    hide Full, Push;
  }

  lemma ServiceEvent(v: View, e: Event)
    requires ViewEnabled(v, e) && (e.Established? || e.Writeable? || e.Flushed? || e.Receive? || e.Closed?)
    requires Served(v.pc, v.conn, e.c, v.sh.freed)
    ensures Served(ViewNext(v, e).pc, ViewNext(v, e).conn, e.c, ViewNext(v, e).sh.freed)
  {
  }

  lemma EstablishedServed(v: View, t: Tid)
    requires IsEstablished(v.pc) && Served(v.pc, v.conn, v.pc.c, v.sh.freed)
    ensures Served(StepEstablished(v, t).pc, StepEstablished(v, t).conn, v.pc.c, StepEstablished(v, t).sh.freed)
  {
    hide Register;
  }

  lemma PopServed(v: View, t: Tid, ok: bool, partial: bool)
    requires IsPop(v.pc) && Served(v.pc, v.conn, v.pc.c, v.sh.freed)
    ensures var v' := StepPop(v, t, ok, partial); Served(v'.pc, v'.conn, v.pc.c, v'.sh.freed)
  {
    hide Pop;
  }

  lemma MoreServed(v: View, t: Tid)
    requires IsMore(v.pc) && Served(v.pc, v.conn, v.pc.c, v.sh.freed)
    ensures Served(StepMore(v, t).pc, StepMore(v, t).conn, v.pc.c, StepMore(v, t).sh.freed)
  {
  }

  lemma ClosedServed(v: View, t: Tid)
    requires IsClosed(v.pc) && Served(v.pc, v.conn, v.pc.c, v.sh.freed)
    ensures Served(StepClosed(v, t).pc, StepClosed(v, t).conn, v.pc.c, StepClosed(v, t).sh.freed)
  {
    hide Unregister, TakeAll;
  }

  // A step of a callback, at its connection.
  predicate AtSite(v: View, e: Event, c: Cid) {
    && !IsUser(v.pc, e) && e != CallbackReturns
    && c == (if !e.Exec? then e.c else if HasConn(v.pc) then v.pc.c else 0)
  }

  lemma SiteServed(v: View, e: Event, c: Cid)
    requires ViewEnabled(v, e) && AtSite(v, e, c)
    requires Served(v.pc, v.conn, c, v.sh.freed)
    ensures Served(ViewNext(v, e).pc, ViewNext(v, e).conn, c, ViewNext(v, e).sh.freed)
  {
    hide Served, StepEstablished, StepPop, StepMore, StepClosed;
    if !e.Exec? { ServiceEvent(v, e); }
    else if IsEstablished(v.pc) { EstablishedServed(v, e.t); }
    else if IsPop(v.pc) { PopServed(v, e.t, e.ok, e.partial); }
    else if IsMore(v.pc) { MoreServed(v, e.t); }
    else { ClosedServed(v, e.t); }
  }

  // A step of the thread at another connection, or none.
  lemma ElsewhereServed(p: Pc, p': Pc, k: Conn, d: Cid, freed: seq<Message>, freed': seq<Message>)
    requires Served(p, k, d, freed) && freed <= freed'
    requires (HasConn(p) ==> p.c != d || p' == p) && (HasConn(p') ==> p'.c != d || p'.Create? || p' == p)
    ensures Served(p', k, d, freed')
  {
  }

  // A step of user code at the connection.
  lemma UserServed(p: Pc, p': Pc, v: View, v': View, c: Cid)
    requires Served(p, v.conn, c, v.sh.freed) && UserStep(v, v')
    requires p' == p || ((p == Rest || IsApi(p) || IsPush(p)) && (IsApi(p') || IsPush(p') || p' == Rest))
    ensures Served(p', v'.conn, c, v'.sh.freed)
  {
    if p' != p {
      UserIdle(p, c);
      UserIdle(p', c);
    }
    hide BeforeWrite, Opens, Closes, Frees, IsApi, IsPush;
  }

  lemma UserIdle(p: Pc, c: Cid)
    requires p == Rest || IsApi(p) || IsPush(p)
    ensures !BeforeWrite(p, c) && !Opens(p, c) && !Closes(p, c) && forall m :: !Frees(p, c, m)
  {
  }

  // Only the service thread leaves user code.
  lemma OthersUse(s: State, e: Event)
    requires RangeOk(s) && Enabled(s, e) && Actor(e) != SERVICE
    ensures IsUser(s.pc[Actor(e)], e)
  {
  }

  lemma StepServed(s: State, e: Event, c: Cid)
    requires RangeOk(s) && ThreadsOk(s) && Enabled(s, e) && ServiceOk(s) && c < |s.conns|
    ensures |Next(s, e).conns| == |s.conns| && |Next(s, e).pc| == |s.pc|
    ensures Served(Next(s, e).pc[SERVICE], Next(s, e).conns[c], c, Next(s, e).sh.freed)
  {
    var t, site, v, v', s' := Actor(e), Site(s, e), Look(s, e), ViewNext(Look(s, e), e), Next(s, e);
    StepMoved(s, e);
    StepTarget(s, e);
    if t != SERVICE { OthersUse(s, e); }
    if IsUser(v.pc, e) { UserKeeps(v, e); }
    assert Served(s.pc[SERVICE], s.conns[c], c, s.sh.freed);
    hide Served, ViewNext, ViewEnabled, Look, Enabled, Next, RangeOk, ThreadsOk, ServiceOk, IsUser;
    if site != Some(c) {
      ElsewhereServed(s.pc[SERVICE], s'.pc[SERVICE], s.conns[c], c, s.sh.freed, s'.sh.freed);
    } else if IsUser(v.pc, e) {
      UserServed(s.pc[SERVICE], s'.pc[SERVICE], v, v', c);
    } else {
      SiteServed(v, e, c);
    }
  }

  lemma {:induction false} AlwaysServed(ss: seq<State>, es: seq<Event>, i: nat)
    requires IsRun(ss, es) && i < |ss|
    ensures ServiceOk(ss[i])
  {
    hide IsRun, ServiceOk, Enabled, Next;
    if i == 0 {
      ServedFirst(ss, es);
    } else {
      RunLength(ss, es);
      RunStep(ss, es, i - 1);
      AlwaysServed(ss, es, i - 1);
      Reachable(ss, es, i - 1);
      ServiceStep(ss[i - 1], es[i - 1]);
    }
  }

  lemma ServedFirst(ss: seq<State>, es: seq<Event>)
    requires IsRun(ss, es)
    ensures ServiceOk(ss[0])
  {
  }

  lemma ServiceStep(s: State, e: Event)
    requires RangeOk(s) && ThreadsOk(s) && Enabled(s, e) && ServiceOk(s)
    ensures ServiceOk(Next(s, e))
  {
    StepMoved(s, e);
    hide Served;
    var s' := Next(s, e);
    forall c | 0 <= c < |s'.conns| ensures Served(s'.pc[SERVICE], s'.conns[c], c, s'.sh.freed) {
      StepServed(s, e, c);
    }
  }

  // ---------------------------------------------------------------- writing

  // lws_write is never called while libwebsockets still holds a part of the last message.
  lemma NoPartialWrite(ss: seq<State>, es: seq<Event>, i: nat, t: Tid)
    requires IsRun(ss, es) && i < |ss| && At(ss[i], t).Write?
    ensures t == SERVICE && !On(ss[i], At(ss[i], t).c).partial
  {
    Reachable(ss, es, i);
    AlwaysServed(ss, es, i);
    assert IsService(ss[i].pc[t]);
    assert Served(ss[i].pc[t], ss[i].conns[ss[i].pc[t].c], ss[i].pc[t].c, ss[i].sh.freed);
  }

  // The messages given to lws_write for a connection in the first b steps, whatever came of it.
  function Written(ss: seq<State>, es: seq<Event>, c: Cid, b: nat): seq<Message>
    requires b <= |es| < |ss|
  {
    if b == 0 then []
    else
      var p := At(ss[b - 1], SERVICE);
      Written(ss, es, c, b - 1) + if Own(es, SERVICE, b - 1) && p.Write? && p.c == c then [p.m] else []
  }

  // Popped, not yet given to lws_write.
  function AtHand(p: Pc, c: Cid): seq<Message> {
    match p
    case PopUnlock(d, Some(m)) => if d == c then [m] else []
    case Write(d, m) => if d == c then [m] else []
    case _ => []
  }

  // The message a step gives to lws_write.
  function Giving(p: Pc, c: Cid): seq<Message> {
    if p.Write? && p.c == c then [p.m] else []
  }

  lemma PopHand(v: View, t: Tid, ok: bool, partial: bool, written: seq<Message>)
    requires IsPop(v.pc) && v.conn.popped == written + AtHand(v.pc, v.pc.c)
    ensures var v' := StepPop(v, t, ok, partial);
      v'.conn.popped == written + Giving(v.pc, v.pc.c) + AtHand(v'.pc, v.pc.c)
  {
    hide Pop;
  }

  lemma RestHand(v: View, e: Event)
    requires ViewEnabled(v, e) && !IsUser(v.pc, e) && !(e.Exec? && IsPop(v.pc)) && e != CallbackReturns
    ensures ViewNext(v, e).conn.popped == v.conn.popped
    ensures !IsPop(v.pc) && (IsPop(ViewNext(v, e).pc) ==> ViewNext(v, e).pc.WriteableTest?)
  {
    hide StepApi, StepPush, StepEstablished, StepPop, StepMore, StepClosed;
    if e.Exec? {
      if IsEstablished(v.pc) { EstablishedHand(v, e.t); }
      else if IsMore(v.pc) { MoreHand(v, e.t); }
      else { ClosedHand(v, e.t); }
    }
  }

  lemma EstablishedHand(v: View, t: Tid)
    requires IsEstablished(v.pc)
    ensures StepEstablished(v, t).conn.popped == v.conn.popped && !IsPop(StepEstablished(v, t).pc)
  {
    hide Register;
  }

  lemma MoreHand(v: View, t: Tid)
    requires IsMore(v.pc)
    ensures StepMore(v, t).conn.popped == v.conn.popped && !IsPop(StepMore(v, t).pc)
  {
  }

  lemma ClosedHand(v: View, t: Tid)
    requires IsClosed(v.pc)
    ensures StepClosed(v, t).conn.popped == v.conn.popped && !IsPop(StepClosed(v, t).pc)
  {
    hide Drain, Unregister, TakeAll;
  }

  lemma NoHand(p: Pc, c: Cid)
    requires !IsPop(p) || p.WriteableTest? || p.c != c
    ensures AtHand(p, c) == [] && Giving(p, c) == []
  {
  }

  lemma SiteHand(v: View, e: Event, c: Cid, written: seq<Message>)
    requires ViewEnabled(v, e) && AtSite(v, e, c)
    requires v.conn.popped == written + AtHand(v.pc, c)
    ensures ViewNext(v, e).conn.popped == written + Giving(v.pc, c) + AtHand(ViewNext(v, e).pc, c)
  {
    hide StepPop, StepMore, StepClosed, StepEstablished, AtHand, Giving;
    if e.Exec? && IsPop(v.pc) {
      PopHand(v, e.t, e.ok, e.partial, written);
    } else {
      RestHand(v, e);
      NoHand(v.pc, c);
      NoHand(ViewNext(v, e).pc, c);
    }
  }

  lemma MovedHand(s: State, s': State, t: Tid, site: Option<Cid>, v: View, e: Event, v': View, c: Cid,
                  written: seq<Message>)
    requires Moved(s, s', t, site, v, v') && ViewTarget(v, v', t, site) && c < |s.conns|
    requires ViewEnabled(v, e) && v' == ViewNext(v, e) && (t != SERVICE ==> IsUser(v.pc, e))
    requires site == Some(c) && !IsUser(v.pc, e) ==> AtSite(v, e, c)
    requires s.conns[c].popped == written + AtHand(s.pc[SERVICE], c)
    ensures s'.conns[c].popped
         == written + (if t == SERVICE then Giving(s.pc[SERVICE], c) else []) + AtHand(s'.pc[SERVICE], c)
  {
    hide AtHand, Giving, ViewNext, ViewEnabled, IsUser;
    if IsUser(v.pc, e) { UserKeeps(v, e); }
    if t == SERVICE {
      if site != Some(c) {
        NoHand(v.pc, c);
        NoHand(v'.pc, c);
      } else if IsUser(v.pc, e) {
        UserNoHand(v, e, c);
        NoHand(v'.pc, c);
      } else {
        SiteHand(v, e, c, written);
      }
    }
  }

  lemma StepHand(s: State, e: Event, c: Cid, written: seq<Message>)
    requires RangeOk(s) && ThreadsOk(s) && Enabled(s, e) && c < |s.conns|
    requires s.conns[c].popped == written + AtHand(s.pc[SERVICE], c)
    ensures |Next(s, e).conns| == |s.conns| && |Next(s, e).pc| == |s.pc|
    ensures Next(s, e).conns[c].popped
         == written + (if Actor(e) == SERVICE then Giving(s.pc[SERVICE], c) else []) + AtHand(Next(s, e).pc[SERVICE], c)
  {
    StepMoved(s, e);
    StepTarget(s, e);
    if Actor(e) != SERVICE { OthersUse(s, e); }
    hide AtHand, Giving, ViewNext, ViewTarget, Next;
    MovedHand(s, Next(s, e), Actor(e), Site(s, e), Look(s, e), e, ViewNext(Look(s, e), e), c, written);
  }

  lemma UserNoHand(v: View, e: Event, c: Cid)
    requires ViewEnabled(v, e) && IsUser(v.pc, e)
    ensures AtHand(v.pc, c) == [] && Giving(v.pc, c) == []
  {
  }

  lemma RunStep(ss: seq<State>, es: seq<Event>, i: nat)
    requires IsRun(ss, es) && i < |es|
    ensures |ss| == |es| + 1 && Enabled(ss[i], es[i]) && ss[i + 1] == Next(ss[i], es[i])
    ensures |ss[i + 1].pc| == |ss[i].pc| > 0 && |ss[i + 1].conns| == |ss[i].conns|
  {
    Reachable(ss, es, i);
    StepMoved(ss[i], es[i]);
  }

  lemma WriteStep(ss: seq<State>, es: seq<Event>, i: nat, c: Cid)
    requires IsRun(ss, es) && i < |es| < |ss| && c < |ss[i].conns|
    requires On(ss[i], c).popped == Written(ss, es, c, i) + AtHand(At(ss[i], SERVICE), c)
    ensures On(ss[i + 1], c).popped == Written(ss, es, c, i + 1) + AtHand(At(ss[i + 1], SERVICE), c)
  {
    hide AtHand, Next, Enabled, IsRun, RangeOk, LockOk, ThreadsOk, ConnsOk, RegistryOk, InflightOk, WakeOk, OwnOk;
    Reachable(ss, es, i);
    RunStep(ss, es, i);
    StepHand(ss[i], es[i], c, Written(ss, es, c, i));
  }

  // Every message popped is given to lws_write, once and in that order.
  lemma {:induction false} WritesInOrder(ss: seq<State>, es: seq<Event>, i: nat, c: Cid)
    requires IsRun(ss, es) && i < |ss| && c < |ss[i].conns|
    ensures On(ss[i], c).popped == Written(ss, es, c, i) + AtHand(At(ss[i], SERVICE), c)
    ensures Written(ss, es, c, i) <= On(ss[i], c).accepted
  {
    hide Next, Enabled, AtHand, At;
    if i == 0 {
      NothingWritten(ss, es, c);
    } else {
      RunStep(ss, es, i - 1);
      WritesInOrder(ss, es, i - 1, c);
      WriteStep(ss, es, i - 1, c);
    }
    hide IsRun, Written;
    FifoHistory(ss, es, i, c);
  }

  lemma NothingWritten(ss: seq<State>, es: seq<Event>, c: Cid)
    requires IsRun(ss, es) && c < |ss[0].conns|
    ensures On(ss[0], c) == FreshConn && AtHand(At(ss[0], SERVICE), c) == []
  {
  }

  // ---------------------------------------------------------------- opening and closing

  predicate Ends(ph: Phase) {
    ph == Closing || ph == Drained
  }

  lemma PhaseMoves(v: View, e: Event)
    requires ViewEnabled(v, e) && PhaseOk(v.pc, v.conn.phase)
    ensures v.conn.phase != Fresh ==> ViewNext(v, e).conn.phase != Fresh
    ensures Ends(v.conn.phase) ==> Ends(ViewNext(v, e).conn.phase)
    ensures e.Established? ==> ViewNext(v, e).conn.phase != Fresh
    ensures e.Closed? ==> Ends(ViewNext(v, e).conn.phase)
  {
    hide StepApi, StepPush, StepEstablished, StepPop, StepMore, StepClosed;
    if IsUser(v.pc, e) {
      UserKeeps(v, e);
    } else if e.Exec? {
      CallbackPhase(v, e);
    }
  }

  lemma CallbackPhase(v: View, e: Event)
    requires ViewEnabled(v, e) && PhaseOk(v.pc, v.conn.phase) && e.Exec? && !IsUser(v.pc, e)
    ensures v.conn.phase != Fresh ==> ViewNext(v, e).conn.phase != Fresh
    ensures Ends(v.conn.phase) ==> Ends(ViewNext(v, e).conn.phase)
  {
    hide Pop, Drain, Register, Unregister, TakeAll;
  }

  lemma StepPhase(s: State, e: Event, c: Cid)
    requires RangeOk(s) && ThreadsOk(s) && Enabled(s, e) && c < |s.conns|
    ensures |Next(s, e).conns| == |s.conns|
    ensures s.conns[c].phase != Fresh || e == Established(c) ==> Next(s, e).conns[c].phase != Fresh
    ensures Ends(s.conns[c].phase) || e == Closed(c) ==> Ends(Next(s, e).conns[c].phase)
  {
    if Site(s, e) == Some(c) { PhaseMoves(Look(s, e), e); }
    hide ViewNext, ViewEnabled;
  }

  lemma {:induction false} PhaseLater(ss: seq<State>, es: seq<Event>, a: nat, i: nat, c: Cid)
    requires IsRun(ss, es) && a < i < |ss| && c < |ss[a].conns|
    requires a < |es| && (es[a] == Established(c) || es[a] == Closed(c))
    ensures c < |ss[i].conns|
    ensures es[a] == Established(c) ==> ss[i].conns[c].phase != Fresh
    ensures es[a] == Closed(c) ==> Ends(ss[i].conns[c].phase)
  {
    hide IsRun, Enabled, Next, RangeOk, LockOk, ThreadsOk, ConnsOk, RegistryOk, InflightOk, WakeOk, OwnOk;
    RunLength(ss, es);
    if a + 1 < i { PhaseLater(ss, es, a, i - 1, c); }
    Reachable(ss, es, i - 1);
    RunStep(ss, es, i - 1);
    StepPhase(ss[i - 1], es[i - 1], c);
  }

  // A connection whose ESTABLISHED callback has done its work under ws_mutex is live: sends are let through.
  lemma EstablishedOpens(ss: seq<State>, es: seq<Event>, a: nat, i: nat, c: Cid)
    requires IsRun(ss, es) && a < |es| && a < i < |ss| && c < |ss[a].conns| && es[a] == Established(c)
    requires !Opens(At(ss[i], SERVICE), c)
    ensures On(ss[i], c).live
  {
    PhaseLater(ss, es, a, i, c);
    AlwaysServed(ss, es, i);
    Reachable(ss, es, i);
    hide IsRun;
    assert Served(ss[i].pc[SERVICE], ss[i].conns[c], c, ss[i].sh.freed) && ConnOk(ss[i].conns[c]);
  }

  // When a CLOSED callback is over, the connection is in the table no more, and everything it accepted was
  // popped, or found in the queue by the drain and freed, or sent directly after the drain.
  lemma ClosedDrains(ss: seq<State>, es: seq<Event>, a: nat, i: nat, c: Cid)
    requires IsRun(ss, es) && a < |es| && a < i < |ss| && c < |ss[a].conns| && es[a] == Closed(c)
    requires !(IsClosed(At(ss[i], SERVICE)) && At(ss[i], SERVICE).c == c)
    ensures On(ss[i], c).phase == Drained && c !in ss[i].sh.registry
    ensures On(ss[i], c).accepted == On(ss[i], c).popped + On(ss[i], c).drained + On(ss[i], c).q.msgs
    ensures forall m :: m in On(ss[i], c).drained ==> m in ss[i].sh.freed
    ensures NoBroadcast(On(ss[i], c).q.msgs)
  {
    PhaseLater(ss, es, a, i, c);
    AlwaysServed(ss, es, i);
    Reachable(ss, es, i);
    hide IsRun;
    assert Served(ss[i].pc[SERVICE], ss[i].conns[c], c, ss[i].sh.freed) && ConnOk(ss[i].conns[c]);
    assert !Listed(ss[i].pc[SERVICE], ss[i].conns[c], c);
  }

  // ---------------------------------------------------------------- the connection table

  // The table was full when the connection came.
  ghost predicate TurnedAway(ss: seq<State>, es: seq<Event>, c: Cid, i: nat)
    requires i <= |es| < |ss|
  {
    exists k :: 0 <= k < i && Own(es, SERVICE, k) && At(ss[k], SERVICE) == EstablishedRegister(c) &&
      |ss[k].sh.registry| >= 256
  }

  predicate IsOpen(k: Conn) {
    k.phase == Open || k.phase == Failed
  }

  lemma {:induction false} OthersStay(registry: seq<Cid>, c: Cid, d: Cid)
    requires d in registry && d != c
    ensures d in Unregister(registry, c)
  {
    if registry[0] != c && registry[0] != d { OthersStay(registry[1..], c, d); }
  }

  lemma RegisterAdds(registry: seq<Cid>, c: Cid)
    ensures |registry| < 256 ==> c in Register(registry, c)
    ensures forall d :: d in registry ==> d in Register(registry, c)
  {
  }

  lemma OpenMoves(v: View, e: Event)
    requires ViewEnabled(v, e) && PhaseOk(v.pc, v.conn.phase)
    ensures IsOpen(ViewNext(v, e).conn) && !v.pc.EstablishedRegister? ==> IsOpen(v.conn) && !v.pc.ClosedUnregister?
  {
    hide Push, Pop, Drain, Full, Register, Unregister, TakeAll;
  }

  lemma StepOpen(s: State, e: Event, c: Cid)
    requires RangeOk(s) && ThreadsOk(s) && Enabled(s, e) && c < |s.conns|
    ensures |Next(s, e).conns| == |s.conns|
    ensures IsOpen(Next(s, e).conns[c]) ==>
      if Actor(e) == SERVICE && s.pc[SERVICE] == EstablishedRegister(c)
      then |s.sh.registry| < 256 ==> c in Next(s, e).sh.registry
      else IsOpen(s.conns[c]) && (c in s.sh.registry ==> c in Next(s, e).sh.registry)
  {
    var v, s' := Look(s, e), Next(s, e);
    StepMoved(s, e);
    StepTarget(s, e);
    if Site(s, e) == Some(c) { OpenMoves(v, e); }
    hide ViewNext, ViewEnabled, Register, Unregister, IsOpen;
    if v.pc.EstablishedRegister? {
      RegisterAdds(s.sh.registry, v.pc.c);
    } else if v.pc.ClosedUnregister? && c in s.sh.registry && c != v.pc.c {
      OthersStay(s.sh.registry, v.pc.c, c);
    }
  }

  lemma OpenStep(ss: seq<State>, es: seq<Event>, i: nat, c: Cid)
    requires IsRun(ss, es) && i < |es| < |ss| && c < |ss[i].conns|
    requires IsOpen(On(ss[i], c)) ==> c in ss[i].sh.registry || TurnedAway(ss, es, c, i)
    ensures IsOpen(On(ss[i + 1], c)) ==> c in ss[i + 1].sh.registry || TurnedAway(ss, es, c, i + 1)
  {
    hide IsOpen, Next, Enabled, IsRun, RangeOk, LockOk, ThreadsOk, ConnsOk, RegistryOk, InflightOk, WakeOk, OwnOk;
    Reachable(ss, es, i);
    RunStep(ss, es, i);
    StepOpen(ss[i], es[i], c);
    if IsOpen(On(ss[i + 1], c)) && Actor(es[i]) == SERVICE && ss[i].pc[SERVICE] == EstablishedRegister(c) {
      assert Own(es, SERVICE, i) && At(ss[i], SERVICE) == EstablishedRegister(c);
    }
  }

  lemma ListedOpen(s: State, c: Cid)
    requires RangeOk(s) && RegistryOk(s) && c in s.sh.registry
    ensures IsOpen(On(s, c)) || On(s, c).phase == Closing
  {
    assert Listed(s.pc[0], s.conns[c], c);
  }

  // An open connection is in the table, unless 256 others were when it came; what is in the table is open, failed
  // or about to leave it. So a broadcast reaches every open connection that found room.
  lemma {:induction false} OpenRegistered(ss: seq<State>, es: seq<Event>, i: nat, c: Cid)
    requires IsRun(ss, es) && i < |ss| && c < |ss[i].conns|
    ensures IsOpen(On(ss[i], c)) ==> c in ss[i].sh.registry || TurnedAway(ss, es, c, i)
    ensures c in ss[i].sh.registry ==> IsOpen(On(ss[i], c)) || On(ss[i], c).phase == Closing
  {
    hide Next, Enabled, TurnedAway, At, IsOpen;
    if i == 0 {
      NoneOpen(ss, es, c);
    } else {
      RunStep(ss, es, i - 1);
      OpenRegistered(ss, es, i - 1, c);
      OpenStep(ss, es, i - 1, c);
    }
    Reachable(ss, es, i);
    if c in ss[i].sh.registry { ListedOpen(ss[i], c); }
  }

  lemma NoneOpen(ss: seq<State>, es: seq<Event>, c: Cid)
    requires IsRun(ss, es) && c < |ss[0].conns|
    ensures !IsOpen(On(ss[0], c))
  {
  }

  lemma {:induction false} UnregisterShrinks(registry: seq<Cid>, c: Cid)
    ensures |Unregister(registry, c)| <= |registry|
  {
    if registry != [] { UnregisterShrinks(registry[1..], c); }
  }

  // The table never holds more than 256 connections.
  lemma {:induction false} TableBounded(ss: seq<State>, es: seq<Event>, i: nat)
    requires IsRun(ss, es) && i < |ss|
    ensures |ss[i].sh.registry| <= 256
  {
    hide IsRun, Enabled, Next, RangeOk, LockOk, ThreadsOk, ConnsOk, RegistryOk, InflightOk, WakeOk, OwnOk;
    RunLength(ss, es);
    if i == 0 {
      NoneListed(ss, es);
    } else {
      TableBounded(ss, es, i - 1);
      Reachable(ss, es, i - 1);
      RunStep(ss, es, i - 1);
      TableStep(ss[i - 1], es[i - 1]);
    }
  }

  lemma NoneListed(ss: seq<State>, es: seq<Event>)
    requires IsRun(ss, es)
    ensures ss[0].sh.registry == []
  {
  }

  lemma TableStep(s: State, e: Event)
    requires RangeOk(s) && ThreadsOk(s) && Enabled(s, e) && |s.sh.registry| <= 256
    ensures |Next(s, e).sh.registry| <= 256
  {
    StepMoved(s, e);
    StepTarget(s, e);
    if Look(s, e).pc.ClosedUnregister? { UnregisterShrinks(s.sh.registry, Look(s, e).pc.c); }
    hide ViewNext, ViewEnabled;
  }
}
