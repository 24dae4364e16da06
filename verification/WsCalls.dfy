/** What a whole call comes to, over every run: whom a send and a broadcast reach, what a writable callback
    writes, and what a close leaves, told by the states before and after the steps of the calling thread. */
module WsCalls {
  import opened Options
  import opened MessageQueue
  import opened WsSteps
  import opened WsFacts
  import opened WsOwnership
  import opened WsSafety
  import opened WsTheorems

  function At(s: State, t: Tid): Pc {
    if t < |s.pc| then s.pc[t] else Rest
  }

  function On(s: State, c: Cid): Conn {
    if c < |s.conns| then s.conns[c] else FreshConn
  }

  // Step k of the run is one of thread t.
  predicate Own(es: seq<Event>, t: Tid, k: nat)
    requires k < |es|
  {
    Actor(es[k]) == t
  }

  predicate Spans(ss: seq<State>, es: seq<Event>, a: nat, b: nat) {
    a <= b < |ss| && |ss| == |es| + 1
  }

  // ---------------------------------------------------------------- what a thread does to a connection

  // The messages that a thread's own steps add to what a connection has accepted.
  function Pushed(ss: seq<State>, es: seq<Event>, t: Tid, c: Cid, a: nat, b: nat): seq<Message>
    requires Spans(ss, es, a, b)
    decreases b
  {
    if a == b then []
    else
      var before, after := On(ss[b - 1], c).accepted, On(ss[b], c).accepted;
      Pushed(ss, es, t, c, a, b - 1) + if Own(es, t, b - 1) && before <= after then after[|before|..] else []
  }

  // The thread calls ws_msg_create for a connection.
  predicate CreateStep(ss: seq<State>, es: seq<Event>, t: Tid, c: Cid, k: nat)
    requires k < |es| < |ss|
  {
    Own(es, t, k) && es[k].Exec? && At(ss[k], t).Create? && At(ss[k], t).c == c
  }

  function Creates(ss: seq<State>, es: seq<Event>, t: Tid, c: Cid, a: nat, b: nat): nat
    requires Spans(ss, es, a, b)
    decreases b
  {
    if a == b then 0
    else Creates(ss, es, t, c, a, b - 1) + if CreateStep(ss, es, t, c, b - 1) then 1 else 0
  }

  // The thread is in ws_queue_push, with the send_mutex.
  predicate PushStep(ss: seq<State>, es: seq<Event>, t: Tid, c: Cid, k: nat)
    requires k < |es| < |ss|
  {
    Own(es, t, k) && At(ss[k], t).PushTest? && At(ss[k], t).c == c
  }

  // The thread calls lws_callback_on_writable, and lws owes the connection a callback.
  predicate AskStep(ss: seq<State>, es: seq<Event>, t: Tid, c: Cid, k: nat)
    requires k < |es| < |ss|
  {
    Own(es, t, k) && At(ss[k], t).Wake? && On(ss[k + 1], c).pending
  }

  // Fewer than 256 messages, and room for this one within 1 MiB. A drain leaves the counters as they were.
  predicate Fits(k: Conn, len: nat) {
    if k.phase == Drained then k.q.msgCount < 256 && k.q.byteCount + len <= 1048576
    else |k.q.msgs| < 256 && TotalLen(k.q.msgs) + len <= 1048576
  }

  // What one message to a connection comes to between two states: one call of ws_msg_create, with its length; if
  // that finds memory and the queue has room at the push, one message of this length is accepted and a writable
  // callback asked for; otherwise nothing is accepted.
  ghost predicate Sent(ss: seq<State>, es: seq<Event>, t: Tid, c: Cid, len: nat, broadcast: bool, a: nat, b: nat)
    requires Spans(ss, es, a, b)
  {
    var pushed := Pushed(ss, es, t, c, a, b);
    && Creates(ss, es, t, c, a, b) == 1
    && exists k :: a <= k < b && CreateStep(ss, es, t, c, k) && At(ss[k], t).len == len &&
         if es[k].ok then Arrives(ss, es, t, c, len, broadcast, k, b, pushed) else pushed == []
  }

  ghost predicate Arrives(ss: seq<State>, es: seq<Event>, t: Tid, c: Cid, len: nat, broadcast: bool, k: nat, b: nat,
                          pushed: seq<Message>)
    requires Spans(ss, es, k, b)
  {
    exists p :: k < p < b && PushStep(ss, es, t, c, p) &&
      if Fits(On(ss[p], c), len) then
        && |pushed| == 1 && pushed[0].len == len && pushed[0].broadcast == broadcast
        && exists w :: p < w < b && AskStep(ss, es, t, c, w)
      else pushed == []
  }

  // Nothing for this connection.
  ghost predicate Nothing(ss: seq<State>, es: seq<Event>, t: Tid, c: Cid, a: nat, b: nat)
    requires Spans(ss, es, a, b)
  {
    Pushed(ss, es, t, c, a, b) == [] && Creates(ss, es, t, c, a, b) == 0
  }

  // ---------------------------------------------------------------- own steps and those of others

  lemma {:induction false} PushedConcat(ss: seq<State>, es: seq<Event>, t: Tid, c: Cid, a: nat, m: nat, b: nat)
    requires Spans(ss, es, a, b) && a <= m <= b
    ensures Pushed(ss, es, t, c, a, b) == Pushed(ss, es, t, c, a, m) + Pushed(ss, es, t, c, m, b)
    decreases b
  {
    if m < b { PushedConcat(ss, es, t, c, a, m, b - 1); }
  }

  lemma {:induction false} CreatesConcat(ss: seq<State>, es: seq<Event>, t: Tid, c: Cid, a: nat, m: nat, b: nat)
    requires Spans(ss, es, a, b) && a <= m <= b
    ensures Creates(ss, es, t, c, a, b) == Creates(ss, es, t, c, a, m) + Creates(ss, es, t, c, m, b)
    decreases b
  {
    if m < b { CreatesConcat(ss, es, t, c, a, m, b - 1); }
  }

  lemma NothingConcat(ss: seq<State>, es: seq<Event>, t: Tid, c: Cid, a: nat, m: nat, b: nat)
    requires Spans(ss, es, a, b) && a <= m <= b
    requires Nothing(ss, es, t, c, a, m) && Nothing(ss, es, t, c, m, b)
    ensures Nothing(ss, es, t, c, a, b)
  {
    hide Pushed, Creates;
    PushedConcat(ss, es, t, c, a, m, b);
    CreatesConcat(ss, es, t, c, a, m, b);
  }

  // What is sent within a stretch is sent within a longer one in which there is nothing else.
  lemma SentWiden(ss: seq<State>, es: seq<Event>, t: Tid, c: Cid, len: nat, broadcast: bool,
                  a: nat, k: nat, r: nat, b: nat)
    requires Spans(ss, es, a, b) && a <= k <= r <= b
    requires Nothing(ss, es, t, c, a, k) && Sent(ss, es, t, c, len, broadcast, k, r) && Nothing(ss, es, t, c, r, b)
    ensures Sent(ss, es, t, c, len, broadcast, a, b)
  {
    hide Pushed, Creates, PushStep, AskStep, Fits;
    PushedConcat(ss, es, t, c, a, k, b);
    PushedConcat(ss, es, t, c, k, r, b);
    CreatesConcat(ss, es, t, c, a, k, b);
    CreatesConcat(ss, es, t, c, k, r, b);
    var pushed := Pushed(ss, es, t, c, k, r);
    assert Pushed(ss, es, t, c, a, b) == pushed;
    var i :| k <= i < r && CreateStep(ss, es, t, c, i) && At(ss[i], t).len == len &&
      if es[i].ok then Arrives(ss, es, t, c, len, broadcast, i, r, pushed) else pushed == [];
    if es[i].ok { ArrivesWiden(ss, es, t, c, len, broadcast, i, r, b, pushed); }
  }

  lemma ArrivesWiden(ss: seq<State>, es: seq<Event>, t: Tid, c: Cid, len: nat, broadcast: bool, k: nat, r: nat, b: nat,
                     pushed: seq<Message>)
    requires Spans(ss, es, k, r) && r <= b < |ss| && Arrives(ss, es, t, c, len, broadcast, k, r, pushed)
    ensures Arrives(ss, es, t, c, len, broadcast, k, b, pushed)
  {
  }

  lemma RunLength(ss: seq<State>, es: seq<Event>)
    requires IsRun(ss, es)
    ensures |ss| == |es| + 1
  {
  }

  // A step of another thread leaves this one where it is.
  lemma OtherStep(ss: seq<State>, es: seq<Event>, t: Tid, k: nat)
    requires IsRun(ss, es) && k < |es| && !Own(es, t, k)
    ensures At(ss[k + 1], t) == At(ss[k], t)
  {
    hide ViewNext, ViewEnabled;
  }

  // An own step within a call, told through the view.
  ghost predicate Stepped(ss: seq<State>, es: seq<Event>, t: Tid, q: nat, r: nat) {
    && r == q + 1 && q < |es| < |ss| && Own(es, t, q) && es[q].Exec? && InRange(ss[q], es[q])
    && var p, v := At(ss[q], t), Look(ss[q], es[q]);
       && v.pc == p && v.sh == ss[q].sh && (HasConn(p) ==> v.conn == On(ss[q], p.c)) && CanStep(v)
       && var v' := Step(v, t, es[q].ok, es[q].partial);
          At(ss[r], t) == v'.pc && ss[r].sh == v'.sh && (HasConn(p) ==> On(ss[r], p.c) == v'.conn)
  }

  lemma OwnStep(ss: seq<State>, es: seq<Event>, t: Tid, k: nat)
    requires IsRun(ss, es) && k < |es| && Own(es, t, k) && MidCall(At(ss[k], t))
    ensures Stepped(ss, es, t, k, k + 1)
    ensures var p := At(ss[k], t);
      forall d: Cid :: (HasConn(p) ==> d != p.c) ==> On(ss[k + 1], d) == On(ss[k], d)
  {
    assert Enabled(ss[k], es[k]) && ss[k + 1] == Next(ss[k], es[k]);
    hide Step;
  }

  // A step of another thread is nothing that this one sends.
  lemma OtherNothing(ss: seq<State>, es: seq<Event>, t: Tid, k: nat, c: Cid)
    requires k < |es| && |ss| == |es| + 1 && !Own(es, t, k)
    ensures Nothing(ss, es, t, c, k, k + 1)
  {
    assert Pushed(ss, es, t, c, k, k) == [];
    assert Creates(ss, es, t, c, k, k) == 0;
  }

  // An own step that adds nothing to a queue and creates nothing.
  lemma QuietNothing(ss: seq<State>, es: seq<Event>, t: Tid, k: nat, c: Cid)
    requires k < |es| && |ss| == |es| + 1
    requires On(ss[k + 1], c).accepted == On(ss[k], c).accepted
    requires !At(ss[k], t).Create? || At(ss[k], t).c != c
    ensures Nothing(ss, es, t, c, k, k + 1)
  {
    assert Pushed(ss, es, t, c, k, k) == [];
    assert Creates(ss, es, t, c, k, k) == 0;
  }

  // Nothing for any connection but these.
  ghost predicate Idle(ss: seq<State>, es: seq<Event>, t: Tid, but: set<Cid>, a: nat, b: nat)
    requires Spans(ss, es, a, b)
  {
    forall c :: c !in but ==> Nothing(ss, es, t, c, a, b)
  }

  lemma IdleConcat(ss: seq<State>, es: seq<Event>, t: Tid, but: set<Cid>, a: nat, m: nat, b: nat)
    requires Spans(ss, es, a, b) && a <= m <= b
    requires Idle(ss, es, t, but, a, m) && Idle(ss, es, t, but, m, b)
    ensures Idle(ss, es, t, but, a, b)
  {
    hide Nothing;
    forall c | c !in but ensures Nothing(ss, es, t, c, a, b) {
      NothingConcat(ss, es, t, c, a, m, b);
    }
  }

  // The thread waits at one place.
  ghost predicate Waits(ss: seq<State>, t: Tid, k: nat, q: nat) {
    k <= q < |ss| && forall i :: k <= i <= q ==> At(ss[i], t) == At(ss[k], t)
  }

  // The next own step of a thread that is not where it will be.
  lemma {:induction false} Await(ss: seq<State>, es: seq<Event>, t: Tid, k: nat, b: nat) returns (q: nat)
    requires IsRun(ss, es) && k < b < |ss| && At(ss[b], t) != At(ss[k], t)
    ensures q < b && Own(es, t, q) && Waits(ss, t, k, q) && Idle(ss, es, t, {}, k, q)
    decreases b - k
  {
    hide IsRun;
    RunLength(ss, es);
    if Own(es, t, k) {
      q := k;
    } else {
      OtherStep(ss, es, t, k);
      q := Await(ss, es, t, k + 1, b);
      hide Nothing;
      var r := k + 1;
      forall c ensures Nothing(ss, es, t, c, k, r) {
        OtherNothing(ss, es, t, k, c);
      }
      IdleConcat(ss, es, t, {}, k, r, q);
    }
  }

  // ---------------------------------------------------------------- the create-push-wake code

  predicate Quiet(p: Pc) {
    (IsApi(p) || IsPush(p)) && !p.Create? && !p.PushTest?
  }

  lemma QuietView(v: View, t: Tid, ok: bool, partial: bool)
    requires CanStep(v) && (IsApi(v.pc) || IsPush(v.pc))
    ensures !v.pc.PushTest? ==> Step(v, t, ok, partial).conn.accepted == v.conn.accepted
    ensures Step(v, t, ok, partial).sh.registry == v.sh.registry
  {
    hide Full, Push;
  }

  lemma QuietStepped(ss: seq<State>, es: seq<Event>, t: Tid, q: nat, r: nat)
    requires Stepped(ss, es, t, q, r) && Quiet(At(ss[q], t)) && HasConn(At(ss[q], t))
    ensures var c := At(ss[q], t).c; On(ss[r], c).accepted == On(ss[q], c).accepted
  {
    QuietView(Look(ss[q], es[q]), t, es[q].ok, es[q].partial);
    hide Step, CanStep;
  }

  lemma WaitsEnd(ss: seq<State>, t: Tid, k: nat, q: nat)
    requires Waits(ss, t, k, q)
    ensures k <= q && At(ss[q], t) == At(ss[k], t)
  {
  }

  // A thread in a call that will have returned comes to its next step, and that step is quiet.
  lemma QuietMove(ss: seq<State>, es: seq<Event>, t: Tid, k: nat, b: nat) returns (q: nat, r: nat)
    requires IsRun(ss, es) && k < b < |ss| && At(ss[b], t) == Rest && Quiet(At(ss[k], t))
    ensures q < r == q + 1 <= b && Waits(ss, t, k, q) && Stepped(ss, es, t, q, r) && Idle(ss, es, t, {}, k, r)
  {
    hide IsRun, Nothing, Stepped, Waits, At, On;
    RunLength(ss, es);
    q := Await(ss, es, t, k, b);
    r := q + 1;
    WaitsEnd(ss, t, k, q);
    OwnStep(ss, es, t, q);
    if HasConn(At(ss[q], t)) { QuietStepped(ss, es, t, q, r); }
    forall c ensures Nothing(ss, es, t, c, q, r) {
      QuietNothing(ss, es, t, q, c);
    }
    IdleConcat(ss, es, t, {}, k, q, r);
  }

  // The thread is in the create-push-wake code for one connection.
  ghost predicate Pushing(ss: seq<State>, t: Tid, kind: Caller, c: Cid, k: nat, r: nat) {
    k <= r < |ss| && forall i :: k <= i < r ==> IsPush(At(ss[i], t)) && At(ss[i], t).k == kind && At(ss[i], t).c == c
  }

  lemma WaitsPushing(ss: seq<State>, t: Tid, k: nat, q: nat, r: nat)
    requires Waits(ss, t, k, q) && r == q + 1 < |ss| && IsPush(At(ss[k], t))
    ensures k <= q && At(ss[q], t) == At(ss[k], t)
    ensures Pushing(ss, t, At(ss[k], t).k, At(ss[k], t).c, k, r)
  {
  }

  // Where the steps without a branch lead.
  function PushNext(p: Pc): Pc
    requires IsPush(p) && Quiet(p)
  {
    match p
    case PushLock(k, c, m) => PushTest(k, c, m)
    case RejectUnlock(k, c, m) => RejectFree(k, c, m)
    case RejectFree(k, c, _) => Continue(k, c)
    case AcceptUnlock(k, c) => Wake(k, c)
    case Wake(k, c) => Continue(k, c)
  }

  lemma PushNextView(v: View, t: Tid, ok: bool, partial: bool)
    requires CanStep(v) && IsPush(v.pc) && Quiet(v.pc)
    ensures Step(v, t, ok, partial).pc == PushNext(v.pc)
    ensures v.pc.Wake? ==> Step(v, t, ok, partial).conn.pending
  {
    hide Full, Push, Continue;
  }

  lemma PushNextStepped(ss: seq<State>, es: seq<Event>, t: Tid, q: nat, r: nat)
    requires Stepped(ss, es, t, q, r) && IsPush(At(ss[q], t)) && Quiet(At(ss[q], t))
    ensures r == q + 1 && q < |es| && Own(es, t, q) && At(ss[r], t) == PushNext(At(ss[q], t))
    ensures At(ss[q], t).Wake? ==> On(ss[r], At(ss[q], t).c).pending
  {
    PushNextView(Look(ss[q], es[q]), t, es[q].ok, es[q].partial);
    hide Step, PushNext, CanStep;
  }

  lemma PushQuietly(ss: seq<State>, es: seq<Event>, t: Tid, k: nat, b: nat) returns (q: nat, r: nat)
    requires IsRun(ss, es) && k < b < |ss| && At(ss[b], t) == Rest && IsPush(At(ss[k], t)) && Quiet(At(ss[k], t))
    ensures k <= q < r <= b && Pushing(ss, t, At(ss[k], t).k, At(ss[k], t).c, k, r)
    ensures At(ss[r], t) == PushNext(At(ss[k], t)) && Idle(ss, es, t, {}, k, r)
    ensures At(ss[k], t).Wake? ==> q < |es| && AskStep(ss, es, t, At(ss[k], t).c, q)
  {
    hide IsRun, Step, PushNext, Idle, CanStep, Stepped, Waits, Pushing;
    RunLength(ss, es);
    q, r := QuietMove(ss, es, t, k, b);
    WaitsPushing(ss, t, k, q, r);
    PushNextStepped(ss, es, t, q, r);
  }

  lemma RejectTail(ss: seq<State>, es: seq<Event>, t: Tid, k: nat, b: nat) returns (r: nat)
    requires IsRun(ss, es) && k < b < |ss| && At(ss[b], t) == Rest && At(ss[k], t).RejectUnlock?
    ensures k <= r <= b && Pushing(ss, t, At(ss[k], t).k, At(ss[k], t).c, k, r)
    ensures At(ss[r], t) == Continue(At(ss[k], t).k, At(ss[k], t).c) && Idle(ss, es, t, {}, k, r)
  {
    hide Idle, IsRun, Continue;
    RunLength(ss, es);
    var q, m := PushQuietly(ss, es, t, k, b);
    var q';
    q', r := PushQuietly(ss, es, t, m, b);
    IdleConcat(ss, es, t, {}, k, m, r);
  }

  lemma AcceptTail(ss: seq<State>, es: seq<Event>, t: Tid, k: nat, b: nat) returns (w: nat, r: nat)
    requires IsRun(ss, es) && k < b < |ss| && At(ss[b], t) == Rest && At(ss[k], t).AcceptUnlock?
    ensures k <= w < r <= b && w < |es| && AskStep(ss, es, t, At(ss[k], t).c, w)
    ensures Pushing(ss, t, At(ss[k], t).k, At(ss[k], t).c, k, r)
    ensures At(ss[r], t) == Continue(At(ss[k], t).k, At(ss[k], t).c) && Idle(ss, es, t, {}, k, r)
  {
    hide Idle, IsRun, Continue, AskStep;
    RunLength(ss, es);
    var q, m := PushQuietly(ss, es, t, k, b);
    w, r := PushQuietly(ss, es, t, m, b);
    IdleConcat(ss, es, t, {}, k, m, r);
  }

  // The limit test, told by the list instead of the counters.
  lemma FitsIff(ss: seq<State>, es: seq<Event>, k: nat, c: Cid, len: nat)
    requires IsRun(ss, es) && k < |ss|
    ensures Fits(On(ss[k], c), len) <==> !Full(On(ss[k], c).q, len)
  {
    Reachable(ss, es, k);
    if c < |ss[k].conns| {
      assert ConnOk(ss[k].conns[c]);
    }
  }

  lemma TestView(v: View, t: Tid, ok: bool, partial: bool)
    requires CanStep(v) && v.pc.PushTest?
    ensures var p, v' := v.pc, Step(v, t, ok, partial);
      if Full(v.conn.q, p.m.len) then v'.pc == RejectUnlock(p.k, p.c, p.m) && v'.conn.accepted == v.conn.accepted
      else v'.pc == AcceptUnlock(p.k, p.c) && v'.conn.accepted == v.conn.accepted + [p.m]
  {
    hide Full, Push;
  }

  lemma TestStepped(ss: seq<State>, es: seq<Event>, t: Tid, q: nat, r: nat)
    requires Stepped(ss, es, t, q, r) && At(ss[q], t).PushTest?
    ensures r == q + 1 && q < |es| && Own(es, t, q)
    ensures var p := At(ss[q], t);
      var before, after := On(ss[q], p.c), On(ss[r], p.c);
      if Full(before.q, p.m.len)
      then At(ss[r], t) == RejectUnlock(p.k, p.c, p.m) && after.accepted == before.accepted
      else At(ss[r], t) == AcceptUnlock(p.k, p.c) && after.accepted == before.accepted + [p.m]
  {
    TestView(Look(ss[q], es[q]), t, es[q].ok, es[q].partial);
    hide Step, Full;
  }

  // An own step at a connection, after nothing: it is all that happens to the connection, and nothing happens to
  // the others.
  lemma ConnMove(ss: seq<State>, es: seq<Event>, t: Tid, k: nat, b: nat) returns (q: nat, r: nat)
    requires IsRun(ss, es) && k < b < |ss| && At(ss[b], t) == Rest && IsPush(At(ss[k], t))
    ensures q < r == q + 1 <= b && Waits(ss, t, k, q) && Stepped(ss, es, t, q, r)
    ensures var c := At(ss[k], t).c;
      && Idle(ss, es, t, {c}, k, r)
      && Creates(ss, es, t, c, k, r) == (if CreateStep(ss, es, t, c, q) then 1 else 0)
      && (On(ss[q], c).accepted <= On(ss[r], c).accepted ==>
            Pushed(ss, es, t, c, k, r) == On(ss[r], c).accepted[|On(ss[q], c).accepted|..])
  {
    q := Await(ss, es, t, k, b);
    r := q + 1;
    OwnStep(ss, es, t, q);
    assert |ss| == |es| + 1;
    var p := At(ss[k], t);
    hide IsRun, Step, Pushed, Creates, Stepped;
    StepPushed(ss, es, t, k, q, r, p.c);
    hide Nothing;
    forall c | c !in {p.c} ensures Nothing(ss, es, t, c, k, r) {
      QuietNothing(ss, es, t, q, c);
      NothingConcat(ss, es, t, c, k, q, r);
    }
  }

  lemma StepPushed(ss: seq<State>, es: seq<Event>, t: Tid, k: nat, q: nat, r: nat, c: Cid)
    requires k <= q < r == q + 1 && Spans(ss, es, k, r) && Nothing(ss, es, t, c, k, q) && Own(es, t, q)
    ensures Creates(ss, es, t, c, k, r) == (if CreateStep(ss, es, t, c, q) then 1 else 0)
    ensures On(ss[q], c).accepted <= On(ss[r], c).accepted ==>
              Pushed(ss, es, t, c, k, r) == On(ss[r], c).accepted[|On(ss[q], c).accepted|..]
  {
  }

  // The limit test under the send_mutex.
  lemma TestMove(ss: seq<State>, es: seq<Event>, t: Tid, k: nat, b: nat) returns (q: nat, r: nat)
    requires IsRun(ss, es) && k < b < |ss| && At(ss[b], t) == Rest && At(ss[k], t).PushTest?
    ensures k <= q < r <= b && q < |es| && PushStep(ss, es, t, At(ss[k], t).c, q)
    ensures Pushing(ss, t, At(ss[k], t).k, At(ss[k], t).c, k, r)
    ensures Idle(ss, es, t, {At(ss[k], t).c}, k, r) && Creates(ss, es, t, At(ss[k], t).c, k, r) == 0
    ensures var p := At(ss[k], t);
      if Fits(On(ss[q], p.c), p.m.len)
      then At(ss[r], t) == AcceptUnlock(p.k, p.c) && Pushed(ss, es, t, p.c, k, r) == [p.m]
      else At(ss[r], t) == RejectUnlock(p.k, p.c, p.m) && Pushed(ss, es, t, p.c, k, r) == []
  {
    hide IsRun, Fits, Full, Idle, Pushed, Creates, Stepped, Waits, Pushing;
    RunLength(ss, es);
    q, r := ConnMove(ss, es, t, k, b);
    WaitsPushing(ss, t, k, q, r);
    FitsIff(ss, es, q, At(ss[k], t).c, At(ss[k], t).m.len);
    TestStepped(ss, es, t, q, r);
  }

  lemma CreateView(v: View, t: Tid, ok: bool, partial: bool)
    requires CanStep(v) && v.pc.Create?
    ensures var p, v' := v.pc, Step(v, t, ok, partial);
      && v'.conn.accepted == v.conn.accepted
      && if ok then v'.pc.PushLock? && v'.pc.k == p.k && v'.pc.c == p.c && v'.pc.m.len == p.len
                    && v'.pc.m.broadcast == p.k.Broadcast?
         else v'.pc == Continue(p.k, p.c)
  {
    hide Continue;
  }

  lemma CreateStepped(ss: seq<State>, es: seq<Event>, t: Tid, q: nat, r: nat)
    requires Stepped(ss, es, t, q, r) && At(ss[q], t).Create?
    ensures r == q + 1 && q < |es| && Own(es, t, q) && es[q].Exec?
    ensures var p, p' := At(ss[q], t), At(ss[r], t);
      && On(ss[r], p.c).accepted == On(ss[q], p.c).accepted
      && if es[q].ok then p'.PushLock? && p'.k == p.k && p'.c == p.c && p'.m.len == p.len
                          && p'.m.broadcast == p.k.Broadcast?
         else p' == Continue(p.k, p.c)
  {
    CreateView(Look(ss[q], es[q]), t, es[q].ok, es[q].partial);
    hide Step, Continue;
  }

  // ws_msg_create.
  lemma CreateMove(ss: seq<State>, es: seq<Event>, t: Tid, k: nat, b: nat) returns (q: nat, r: nat)
    requires IsRun(ss, es) && k < b < |ss| && At(ss[b], t) == Rest && At(ss[k], t).Create?
    ensures k <= q < r == q + 1 <= b && q < |es| && CreateStep(ss, es, t, At(ss[k], t).c, q)
    ensures At(ss[q], t) == At(ss[k], t)
    ensures Pushing(ss, t, At(ss[k], t).k, At(ss[k], t).c, k, r) && Idle(ss, es, t, {At(ss[k], t).c}, k, r)
    ensures var p, p' := At(ss[k], t), At(ss[r], t);
      && Creates(ss, es, t, p.c, k, r) == 1 && Pushed(ss, es, t, p.c, k, r) == []
      && if es[q].ok then p'.PushLock? && p'.k == p.k && p'.c == p.c && p'.m.len == p.len
                          && p'.m.broadcast == p.k.Broadcast?
         else p' == Continue(p.k, p.c)
  {
    hide IsRun, Idle, Pushed, Creates, Continue, Stepped, Waits, Pushing;
    RunLength(ss, es);
    q, r := ConnMove(ss, es, t, k, b);
    WaitsPushing(ss, t, k, q, r);
    CreateStepped(ss, es, t, q, r);
  }

  lemma PushingConcat(ss: seq<State>, t: Tid, kind: Caller, c: Cid, k: nat, m: nat, r: nat)
    requires Pushing(ss, t, kind, c, k, m) && Pushing(ss, t, kind, c, m, r)
    ensures Pushing(ss, t, kind, c, k, r)
  {
  }

  // From the test on: the message is in the queue and the callback asked for, or it is freed.
  lemma PushTail(ss: seq<State>, es: seq<Event>, t: Tid, k: nat, b: nat) returns (q: nat, r: nat)
    requires IsRun(ss, es) && k < b < |ss| && At(ss[b], t) == Rest && At(ss[k], t).PushTest?
    ensures k <= q < r <= b && q < |es| && PushStep(ss, es, t, At(ss[k], t).c, q)
    ensures Pushing(ss, t, At(ss[k], t).k, At(ss[k], t).c, k, r)
    ensures At(ss[r], t) == Continue(At(ss[k], t).k, At(ss[k], t).c)
    ensures Idle(ss, es, t, {At(ss[k], t).c}, k, r) && Creates(ss, es, t, At(ss[k], t).c, k, r) == 0
    ensures var p := At(ss[k], t);
      if Fits(On(ss[q], p.c), p.m.len)
      then Pushed(ss, es, t, p.c, k, r) == [p.m] && exists w :: q < w < r && AskStep(ss, es, t, p.c, w)
      else Pushed(ss, es, t, p.c, k, r) == []
  {
    hide IsRun, Fits, Pushed, Creates, Continue, Pushing, AskStep, PushStep;
    RunLength(ss, es);
    var m;
    q, m := TestMove(ss, es, t, k, b);
    var p := At(ss[k], t);
    if Fits(On(ss[q], p.c), p.m.len) {
      var w;
      w, r := AcceptTail(ss, es, t, m, b);
    } else {
      r := RejectTail(ss, es, t, m, b);
    }
    PushingConcat(ss, t, p.k, p.c, k, m, r);
    TailIdle(ss, es, t, p.c, k, m, r);
  }

  lemma TailIdle(ss: seq<State>, es: seq<Event>, t: Tid, c: Cid, k: nat, m: nat, r: nat)
    requires Spans(ss, es, k, r) && k <= m <= r && Idle(ss, es, t, {c}, k, m) && Idle(ss, es, t, {}, m, r)
    ensures Idle(ss, es, t, {c}, k, r)
    ensures Pushed(ss, es, t, c, k, r) == Pushed(ss, es, t, c, k, m)
    ensures Creates(ss, es, t, c, k, r) == Creates(ss, es, t, c, k, m)
  {
    assert Nothing(ss, es, t, c, m, r);
    PushedConcat(ss, es, t, c, k, m, r);
    CreatesConcat(ss, es, t, c, k, m, r);
    hide Nothing, Pushed, Creates;
    IdleConcat(ss, es, t, {c}, k, m, r);
  }

  lemma HeadIdle(ss: seq<State>, es: seq<Event>, t: Tid, c: Cid, k: nat, m: nat, r: nat)
    requires Spans(ss, es, k, r) && k <= m <= r && Idle(ss, es, t, {}, k, m) && Idle(ss, es, t, {c}, m, r)
    ensures Idle(ss, es, t, {c}, k, r)
    ensures Pushed(ss, es, t, c, k, r) == Pushed(ss, es, t, c, m, r)
    ensures Creates(ss, es, t, c, k, r) == Creates(ss, es, t, c, m, r)
  {
    assert Nothing(ss, es, t, c, k, m);
    PushedConcat(ss, es, t, c, k, m, r);
    CreatesConcat(ss, es, t, c, k, m, r);
    hide Nothing, Pushed, Creates;
    IdleConcat(ss, es, t, {c}, k, m, r);
  }

  // From a created message on.
  lemma CreatedTail(ss: seq<State>, es: seq<Event>, t: Tid, k: nat, b: nat) returns (r: nat)
    requires IsRun(ss, es) && 0 < k < b < |ss| && At(ss[b], t) == Rest && At(ss[k], t).PushLock?
    ensures k < r <= b
    ensures Pushing(ss, t, At(ss[k], t).k, At(ss[k], t).c, k, r)
    ensures At(ss[r], t) == Continue(At(ss[k], t).k, At(ss[k], t).c)
    ensures Idle(ss, es, t, {At(ss[k], t).c}, k, r) && Creates(ss, es, t, At(ss[k], t).c, k, r) == 0
    ensures var p := At(ss[k], t);
      Arrives(ss, es, t, p.c, p.m.len, p.m.broadcast, k - 1, r, Pushed(ss, es, t, p.c, k, r))
  {
    hide IsRun, Fits, Pushed, Creates, Continue, Pushing, AskStep, PushStep;
    RunLength(ss, es);
    var q, m := PushQuietly(ss, es, t, k, b);
    var p := At(ss[k], t);
    var q';
    q', r := PushTail(ss, es, t, m, b);
    PushingConcat(ss, t, p.k, p.c, k, m, r);
    HeadIdle(ss, es, t, p.c, k, m, r);
  }

  // One run through the create-push-wake code sends one message to its connection, and nothing to any other.
  lemma PushWalk(ss: seq<State>, es: seq<Event>, t: Tid, k: nat, b: nat) returns (r: nat)
    requires IsRun(ss, es) && k < b < |ss| && At(ss[b], t) == Rest && At(ss[k], t).Create?
    ensures k < r <= b
    ensures Pushing(ss, t, At(ss[k], t).k, At(ss[k], t).c, k, r)
    ensures At(ss[r], t) == Continue(At(ss[k], t).k, At(ss[k], t).c)
    ensures Idle(ss, es, t, {At(ss[k], t).c}, k, r)
    ensures Sent(ss, es, t, At(ss[k], t).c, At(ss[k], t).len, At(ss[k], t).k.Broadcast?, k, r)
  {
    hide IsRun, Fits, Pushed, Creates, Continue, Pushing, AskStep, PushStep, Arrives;
    RunLength(ss, es);
    var q, m := CreateMove(ss, es, t, k, b);
    var p := At(ss[k], t);
    if es[q].ok {
      r := CreatedTail(ss, es, t, m, b);
      PushingConcat(ss, t, p.k, p.c, k, m, r);
      PushedConcat(ss, es, t, p.c, k, m, r);
      assert Pushed(ss, es, t, p.c, k, r) == Pushed(ss, es, t, p.c, m, r);
      CreatesConcat(ss, es, t, p.c, k, m, r);
      IdleConcat(ss, es, t, {p.c}, k, m, r);
    } else {
      r := m;
    }
  }

  // ---------------------------------------------------------------- papago_ws_send and papago_ws_send_binary

  // A call that starts with step a has returned for the first time at b.
  ghost predicate Returns(ss: seq<State>, es: seq<Event>, t: Tid, a: nat, b: nat) {
    && a < b < |ss| == |es| + 1 && At(ss[b], t) == Rest && forall i :: a < i < b ==> At(ss[i], t) != Rest
  }

  lemma CallStarts(ss: seq<State>, es: seq<Event>, a: nat)
    requires IsRun(ss, es) && a < |es| && (es[a].CallSend? || es[a].CallSendBinary? || es[a].CallBroadcast?)
    ensures Idle(ss, es, es[a].t, {}, a, a + 1)
    ensures At(ss[a + 1], es[a].t) == match es[a]
      case CallSend(t, c, len) => AcquireLock(c, len)
      case CallSendBinary(t, c, len) => Create(SendBinary, c, len)
      case CallBroadcast(t, len) => BroadcastLock(len)
  {
    assert Enabled(ss[a], es[a]) && ss[a + 1] == Next(ss[a], es[a]);
    assert |ss| == |es| + 1;
    assert At(ss[a], es[a].t) == Rest;
    var e := a + 1;
    forall c ensures Nothing(ss, es, es[a].t, c, a, e) {
      QuietNothing(ss, es, es[a].t, a, c);
    }
  }

  // Where the steps outside the create-push-wake code lead.
  function ApiNext(p: Pc, live: bool, registry: seq<Cid>): Pc
    requires IsApi(p)
  {
    match p
    case AcquireLock(c, len) => AcquireTest(c, len)
    case AcquireTest(c, len) => AcquireUnlock(c, len, live)
    case AcquireUnlock(c, len, ok) => if ok then Create(Send, c, len) else Rest
    case ReleaseLock(c) => ReleaseDecrement(c)
    case ReleaseDecrement(c) => ReleaseUnlock(c)
    case ReleaseUnlock(_) => Rest
    case BroadcastLock(len) => BroadcastLoop(0, len)
    case BroadcastLoop(i, len) =>
      if i < |registry| then Create(Broadcast(i, len), registry[i], len) else BroadcastUnlock
    case BroadcastUnlock => Rest
  }

  lemma ApiStepped(ss: seq<State>, es: seq<Event>, t: Tid, q: nat, r: nat)
    requires Stepped(ss, es, t, q, r) && IsApi(At(ss[q], t))
    ensures var p := At(ss[q], t);
      At(ss[r], t) == ApiNext(p, HasConn(p) && On(ss[q], p.c).live, ss[q].sh.registry)
  {
  }

  lemma ApiQuietly(ss: seq<State>, es: seq<Event>, t: Tid, k: nat, b: nat) returns (q: nat, r: nat)
    requires IsRun(ss, es) && k < b < |ss| && At(ss[b], t) == Rest && IsApi(At(ss[k], t))
    ensures k <= q < r == q + 1 <= b && Waits(ss, t, k, q) && Idle(ss, es, t, {}, k, r)
    ensures var p := At(ss[k], t);
      At(ss[q], t) == p && At(ss[r], t) == ApiNext(p, HasConn(p) && On(ss[q], p.c).live, ss[q].sh.registry)
  {
    q, r := QuietMove(ss, es, t, k, b);
    hide Stepped, ApiNext, Idle, IsRun;
    ApiStepped(ss, es, t, q, r);
  }

  // papago_ws_conn_acquire: nothing is sent, and the connection is live if the call goes on.
  lemma AcquireWalk(ss: seq<State>, es: seq<Event>, t: Tid, k: nat, b: nat) returns (l: nat, r: nat)
    requires IsRun(ss, es) && k < b < |ss| && At(ss[b], t) == Rest && At(ss[k], t).AcquireLock?
    ensures k < l < r <= b && Idle(ss, es, t, {}, k, r) && At(ss[l], t).AcquireTest?
    ensures var p := At(ss[k], t);
      At(ss[r], t) == if On(ss[l], p.c).live then Create(Send, p.c, p.len) else Rest
  {
    hide IsRun, Idle, Waits, Nothing, At, On;
    RunLength(ss, es);
    var q, m := ApiQuietly(ss, es, t, k, b);
    l, r := TestWalk(ss, es, t, m, b);
    IdleConcat(ss, es, t, {}, k, m, r);
  }

  lemma TestWalk(ss: seq<State>, es: seq<Event>, t: Tid, k: nat, b: nat) returns (l: nat, r: nat)
    requires IsRun(ss, es) && k < b < |ss| && At(ss[b], t) == Rest && At(ss[k], t).AcquireTest?
    ensures k <= l < r <= b && Idle(ss, es, t, {}, k, r) && At(ss[l], t).AcquireTest?
    ensures var p := At(ss[k], t);
      At(ss[r], t) == if On(ss[l], p.c).live then Create(Send, p.c, p.len) else Rest
  {
    hide IsRun, Idle, Waits, Nothing, At, On;
    RunLength(ss, es);
    var m;
    l, m := ApiQuietly(ss, es, t, k, b);
    var q;
    q, r := ApiQuietly(ss, es, t, m, b);
    IdleConcat(ss, es, t, {}, k, m, r);
  }

  // ws_conn_release.
  lemma ReleaseWalk(ss: seq<State>, es: seq<Event>, t: Tid, k: nat, b: nat) returns (r: nat)
    requires IsRun(ss, es) && k < b < |ss| && At(ss[b], t) == Rest
    requires At(ss[k], t).ReleaseLock? || At(ss[k], t).ReleaseDecrement? || At(ss[k], t).ReleaseUnlock?
    ensures k < r <= b && Idle(ss, es, t, {}, k, r) && At(ss[r], t) == Rest
    decreases b - k
  {
    hide IsRun, Idle, Waits, Nothing, At, On;
    RunLength(ss, es);
    var q, m := ApiQuietly(ss, es, t, k, b);
    if At(ss[k], t).ReleaseUnlock? {
      r := m;
    } else {
      r := ReleaseWalk(ss, es, t, m, b);
      IdleConcat(ss, es, t, {}, k, m, r);
    }
  }

  // What is sent in the middle of a stretch in which nothing else happens.
  lemma SentWithin(ss: seq<State>, es: seq<Event>, t: Tid, c: Cid, len: nat, broadcast: bool,
                   a: nat, k: nat, r: nat, b: nat)
    requires Spans(ss, es, a, b) && a <= k <= r <= b
    requires Idle(ss, es, t, {}, a, k) && Idle(ss, es, t, {c}, k, r) && Idle(ss, es, t, {}, r, b)
    requires Sent(ss, es, t, c, len, broadcast, k, r)
    ensures Sent(ss, es, t, c, len, broadcast, a, b) && Idle(ss, es, t, {c}, a, b)
  {
    hide Nothing, Sent;
    SentWiden(ss, es, t, c, len, broadcast, a, k, r, b);
    IdleConcat(ss, es, t, {c}, a, k, r);
    IdleConcat(ss, es, t, {c}, a, r, b);
  }

  lemma IdleNothing(ss: seq<State>, es: seq<Event>, t: Tid, c: Cid, a: nat, b: nat)
    requires Spans(ss, es, a, b)
    ensures Idle(ss, es, t, {}, a, b) ==> forall d :: Nothing(ss, es, t, d, a, b)
    ensures Idle(ss, es, t, {c}, a, b) ==> forall d :: d != c ==> Nothing(ss, es, t, d, a, b)
  {
    hide Nothing;
  }

  // The message of a direct send, between two quiet stretches.
  lemma SendWalk(ss: seq<State>, es: seq<Event>, t: Tid, a: nat, k: nat, b: nat) returns (r: nat)
    requires IsRun(ss, es) && a <= k < b < |ss| && At(ss[b], t) == Rest && At(ss[k], t).Create?
    requires !At(ss[k], t).k.Broadcast? && Idle(ss, es, t, {}, a, k)
    ensures k < r <= b && At(ss[r], t) == Rest
    ensures Sent(ss, es, t, At(ss[k], t).c, At(ss[k], t).len, false, a, r)
    ensures Idle(ss, es, t, {At(ss[k], t).c}, a, r)
  {
    assert |ss| == |es| + 1;
    var m := PushWalk(ss, es, t, k, b);
    if At(ss[k], t).k.Send? {
      r := ReleaseWalk(ss, es, t, m, b);
    } else {
      r := m;
      assert Idle(ss, es, t, {}, m, r);
    }
    hide IsRun, Idle, Sent, Nothing, Pushing, At;
    SentWithin(ss, es, t, At(ss[k], t).c, At(ss[k], t).len, false, a, k, m, r);
  }

  // A papago_ws_send that finds the connection live under ws_mutex sends it one message; any other sends nothing.
  lemma SendDelivers(ss: seq<State>, es: seq<Event>, a: nat, b: nat, t: Tid, c: Cid, len: nat)
    requires IsRun(ss, es) && a < |es| && es[a] == CallSend(t, c, len) && Returns(ss, es, t, a, b)
    ensures exists l :: a < l < b && At(ss[l], t).AcquireTest? &&
              if On(ss[l], c).live then Sent(ss, es, t, c, len, false, a, b) else Nothing(ss, es, t, c, a, b)
    ensures forall d :: d != c ==> Nothing(ss, es, t, d, a, b)
  {
    hide IsRun, Idle, Sent, Nothing, At, On;
    CallStarts(ss, es, a);
    var l, m := AcquireWalk(ss, es, t, a + 1, b);
    IdleConcat(ss, es, t, {}, a, a + 1, m);
    if On(ss[l], c).live {
      var r := SendWalk(ss, es, t, a, m, b);
      assert r == b;
    } else {
      assert m == b;
    }
    IdleNothing(ss, es, t, c, a, b);
  }

  // papago_ws_send_binary sends one message, without looking at the connection first.
  lemma BinaryDelivers(ss: seq<State>, es: seq<Event>, a: nat, b: nat, t: Tid, c: Cid, len: nat)
    requires IsRun(ss, es) && a < |es| && es[a] == CallSendBinary(t, c, len) && Returns(ss, es, t, a, b)
    ensures Sent(ss, es, t, c, len, false, a, b)
    ensures forall d :: d != c ==> Nothing(ss, es, t, d, a, b)
  {
    hide IsRun, Idle, Sent, Nothing, At;
    CallStarts(ss, es, a);
    var r := SendWalk(ss, es, t, a, a + 1, b);
    assert r == b;
    IdleNothing(ss, es, t, c, a, b);
  }

  // ---------------------------------------------------------------- papago_ws_broadcast

  // Within a broadcast and with ws_mutex.
  predicate Broadcasting(p: Pc) {
    p.BroadcastLoop? || p.BroadcastUnlock? || BroadcastPush(p)
  }

  // No thread changes the connection table while another one broadcasts.
  lemma RegistryStays(ss: seq<State>, es: seq<Event>, t: Tid, i: nat)
    requires IsRun(ss, es) && i < |es| && Broadcasting(At(ss[i], t))
    ensures ss[i + 1].sh.registry == ss[i].sh.registry
  {
    Reachable(ss, es, i);
    var s, e := ss[i], es[i];
    assert Enabled(s, e) && ss[i + 1] == Next(s, e);
    StepTarget(s, e);
    var p := Look(s, e).pc;
    assert HoldsWs(s.pc[t]) && (p.EstablishedRegister? || p.ClosedUnregister? ==> Actor(e) != t);
  }

  ghost predicate Holding(ss: seq<State>, t: Tid, k: nat, r: nat) {
    k <= r < |ss| && forall i :: k <= i < r ==> Broadcasting(At(ss[i], t))
  }

  lemma HoldingLess(ss: seq<State>, t: Tid, k: nat, r: nat)
    requires Holding(ss, t, k, r) && k < r
    ensures Holding(ss, t, k, r - 1) && Broadcasting(At(ss[r - 1], t))
  {
  }

  lemma {:induction false} RegistryKept(ss: seq<State>, es: seq<Event>, t: Tid, k: nat, r: nat)
    requires IsRun(ss, es) && k <= r < |ss| && Holding(ss, t, k, r)
    ensures ss[r].sh.registry == ss[k].sh.registry
    decreases r
  {
    hide IsRun, Broadcasting, At, Holding;
    RunLength(ss, es);
    if k < r {
      HoldingLess(ss, t, k, r);
      RegistryKept(ss, es, t, k, r - 1);
      RegistryStays(ss, es, t, r - 1);
    }
  }

  lemma LoopHolds(ss: seq<State>, t: Tid, k: nat, q: nat, r: nat)
    requires Waits(ss, t, k, q) && r == q + 1 < |ss| && At(ss[k], t).BroadcastLoop?
    ensures Holding(ss, t, k, q) && Holding(ss, t, k, r)
  {
  }

  lemma PushHolds(ss: seq<State>, t: Tid, kind: Caller, c: Cid, k: nat, r: nat)
    requires Pushing(ss, t, kind, c, k, r) && kind.Broadcast?
    ensures Holding(ss, t, k, r)
  {
  }

  // The head of the loop.
  lemma TurnStart(ss: seq<State>, es: seq<Event>, t: Tid, k: nat, b: nat) returns (m: nat)
    requires IsRun(ss, es) && k < b < |ss| && At(ss[b], t) == Rest && At(ss[k], t).BroadcastLoop?
    ensures k < m <= b && ss[m].sh.registry == ss[k].sh.registry && Idle(ss, es, t, {}, k, m)
    ensures At(ss[m], t) == ApiNext(At(ss[k], t), false, ss[k].sh.registry)
  {
    hide IsRun, Idle, At, On, ApiNext, Waits, Holding;
    RunLength(ss, es);
    var q;
    q, m := ApiQuietly(ss, es, t, k, b);
    LoopHolds(ss, t, k, q, m);
    RegistryKept(ss, es, t, k, q);
    RegistryKept(ss, es, t, k, m);
  }

  // A message of the loop.
  lemma TurnPush(ss: seq<State>, es: seq<Event>, t: Tid, k: nat, b: nat) returns (r: nat)
    requires IsRun(ss, es) && k < b < |ss| && At(ss[b], t) == Rest && At(ss[k], t).Create? && At(ss[k], t).k.Broadcast?
    ensures k < r <= b && ss[r].sh.registry == ss[k].sh.registry && Idle(ss, es, t, {At(ss[k], t).c}, k, r)
    ensures Sent(ss, es, t, At(ss[k], t).c, At(ss[k], t).len, true, k, r)
    ensures At(ss[r], t) == Continue(At(ss[k], t).k, At(ss[k], t).c)
  {
    hide IsRun, Idle, Sent, At, Pushing, Holding, Continue;
    RunLength(ss, es);
    r := PushWalk(ss, es, t, k, b);
    PushHolds(ss, t, At(ss[k], t).k, At(ss[k], t).c, k, r);
    RegistryKept(ss, es, t, k, r);
  }

  // One turn of the loop: the message for the next registered connection, or the end of the table.
  lemma TurnWalk(ss: seq<State>, es: seq<Event>, t: Tid, k: nat, b: nat) returns (m: nat, r: nat)
    requires IsRun(ss, es) && k < b < |ss| && At(ss[b], t) == Rest && At(ss[k], t).BroadcastLoop?
    ensures k < m <= r <= b && ss[r].sh.registry == ss[k].sh.registry && Idle(ss, es, t, {}, k, m)
    ensures var i, len, registry := At(ss[k], t).i, At(ss[k], t).len, ss[k].sh.registry;
      if i < |registry| then
        && At(ss[r], t) == BroadcastLoop(i + 1, len)
        && Sent(ss, es, t, registry[i], len, true, m, r) && Idle(ss, es, t, {registry[i]}, m, r)
      else m == r && At(ss[r], t) == BroadcastUnlock
  {
    hide IsRun, Idle, Sent, At;
    RunLength(ss, es);
    m := TurnStart(ss, es, t, k, b);
    if At(ss[k], t).i < |ss[k].sh.registry| {
      r := TurnPush(ss, es, t, m, b);
    } else {
      r := m;
    }
  }

  // What the rest of the loop comes to.
  ghost predicate Reaches(ss: seq<State>, es: seq<Event>, t: Tid, to: seq<Cid>, len: nat, a: nat, b: nat)
    requires Spans(ss, es, a, b)
  {
    && (forall j :: 0 <= j < |to| ==> Sent(ss, es, t, to[j], len, true, a, b))
    && (forall d :: d !in to ==> Nothing(ss, es, t, d, a, b))
  }

  // A message to one more connection in front.
  lemma ReachesMore(ss: seq<State>, es: seq<Event>, t: Tid, c: Cid, to: seq<Cid>, len: nat,
                    a: nat, m: nat, r: nat, b: nat)
    requires Spans(ss, es, a, b) && a <= m <= r <= b && c !in to
    requires Idle(ss, es, t, {}, a, m) && Idle(ss, es, t, {c}, m, r) && Sent(ss, es, t, c, len, true, m, r)
    requires Reaches(ss, es, t, to, len, r, b)
    ensures Reaches(ss, es, t, [c] + to, len, a, b)
  {
    hide Sent, Nothing;
    assert Idle(ss, es, t, {c}, a, r) by { IdleConcat(ss, es, t, {c}, a, m, r); }
    SentWiden(ss, es, t, c, len, true, a, m, r, b);
    var all := [c] + to;
    forall j | 0 <= j < |all| ensures Sent(ss, es, t, all[j], len, true, a, b) {
      if j > 0 {
        assert all[j] == to[j - 1] && Nothing(ss, es, t, all[j], a, r);
        assert Nothing(ss, es, t, all[j], b, b) by { NothingHere(ss, es, t, all[j], b); }
        SentWiden(ss, es, t, all[j], len, true, a, r, b, b);
      }
    }
    forall d | d !in all ensures Nothing(ss, es, t, d, a, b) {
      NothingConcat(ss, es, t, d, a, r, b);
    }
  }

  lemma NothingHere(ss: seq<State>, es: seq<Event>, t: Tid, c: Cid, a: nat)
    requires Spans(ss, es, a, a)
    ensures Nothing(ss, es, t, c, a, a)
  {
  }

  // The entries of the table that the loop has yet to come to.
  function From(registry: seq<Cid>, i: nat): seq<Cid> {
    if i < |registry| then registry[i..] else []
  }

  lemma FromNext(registry: seq<Cid>, i: nat)
    requires i < |registry| && Distinct(registry)
    ensures From(registry, i) == [registry[i]] + From(registry, i + 1) && registry[i] !in From(registry, i + 1)
  {
  }

  lemma {:induction false} LoopWalk(ss: seq<State>, es: seq<Event>, t: Tid, k: nat, b: nat) returns (r: nat)
    requires IsRun(ss, es) && k < b < |ss| && At(ss[b], t) == Rest && At(ss[k], t).BroadcastLoop?
    requires Distinct(ss[k].sh.registry)
    ensures k < r <= b && At(ss[r], t) == BroadcastUnlock
    ensures Reaches(ss, es, t, From(ss[k].sh.registry, At(ss[k], t).i), At(ss[k], t).len, k, r)
    decreases b - k
  {
    hide IsRun, Idle, Sent, Nothing, At, Reaches, From, Distinct;
    RunLength(ss, es);
    var m, n := TurnWalk(ss, es, t, k, b);
    var i, registry := At(ss[k], t).i, ss[k].sh.registry;
    if i < |registry| {
      r := LoopWalk(ss, es, t, n, b);
      FromNext(registry, i);
      ReachesMore(ss, es, t, registry[i], From(registry, i + 1), At(ss[k], t).len, k, m, n, r);
    } else {
      r := n;
      FromNone(registry, i);
      ReachesNone(ss, es, t, At(ss[k], t).len, k, r);
    }
  }

  lemma FromNone(registry: seq<Cid>, i: nat)
    requires |registry| <= i
    ensures From(registry, i) == []
  {
  }

  lemma ReachesNone(ss: seq<State>, es: seq<Event>, t: Tid, len: nat, a: nat, b: nat)
    requires Spans(ss, es, a, b) && Idle(ss, es, t, {}, a, b)
    ensures Reaches(ss, es, t, [], len, a, b)
  {
    hide Nothing;
  }

  lemma ReachesWiden(ss: seq<State>, es: seq<Event>, t: Tid, to: seq<Cid>, len: nat, a: nat, k: nat, r: nat, b: nat)
    requires Spans(ss, es, a, b) && a <= k <= r <= b
    requires Idle(ss, es, t, {}, a, k) && Reaches(ss, es, t, to, len, k, r) && Idle(ss, es, t, {}, r, b)
    ensures Reaches(ss, es, t, to, len, a, b)
  {
    hide Sent, Nothing;
    forall j | 0 <= j < |to| ensures Sent(ss, es, t, to[j], len, true, a, b) {
      SentWiden(ss, es, t, to[j], len, true, a, k, r, b);
    }
    forall d | d !in to ensures Nothing(ss, es, t, d, a, b) {
      NothingConcat(ss, es, t, d, a, k, r);
      NothingConcat(ss, es, t, d, a, r, b);
    }
  }

  lemma LoopStarts(ss: seq<State>, es: seq<Event>, t: Tid, l: nat)
    requires IsRun(ss, es) && l < |ss| && At(ss[l], t).BroadcastLoop?
    ensures ss[l].sh.wsLock == Some(t) && Distinct(ss[l].sh.registry)
  {
    Reachable(ss, es, l);
    assert HoldsWs(ss[l].pc[t]);
  }

  // From the lock to the unlock.
  lemma BroadcastWalk(ss: seq<State>, es: seq<Event>, t: Tid, a: nat, b: nat) returns (l: nat, e: nat)
    requires IsRun(ss, es) && a < b < |ss| && At(ss[b], t) == Rest && At(ss[a], t).BroadcastLock?
    ensures a < l < e <= b && At(ss[e], t) == Rest && ss[l].sh.wsLock == Some(t)
    ensures Reaches(ss, es, t, ss[l].sh.registry, At(ss[a], t).len, a, e)
  {
    hide IsRun, Idle, Waits, At, Reaches, Distinct;
    RunLength(ss, es);
    var q;
    q, l := ApiQuietly(ss, es, t, a, b);
    LoopStarts(ss, es, t, l);
    var r := LoopWalk(ss, es, t, l, b);
    q, e := ApiQuietly(ss, es, t, r, b);
    ReachesWiden(ss, es, t, From(ss[l].sh.registry, 0), At(ss[a], t).len, a, l, r, e);
  }

  // A broadcast sends one message to every connection in the table while it holds ws_mutex, and none to any other.
  lemma BroadcastDelivers(ss: seq<State>, es: seq<Event>, a: nat, b: nat, t: Tid, len: nat)
    requires IsRun(ss, es) && a < |es| && es[a] == CallBroadcast(t, len) && Returns(ss, es, t, a, b)
    ensures exists l :: a < l < b && ss[l].sh.wsLock == Some(t) &&
              var registry := ss[l].sh.registry;
              && (forall j :: 0 <= j < |registry| ==> Sent(ss, es, t, registry[j], len, true, a, b))
              && (forall d :: d !in registry ==> Nothing(ss, es, t, d, a, b))
  {
    hide IsRun, Idle, Sent, Nothing, At;
    CallStarts(ss, es, a);
    var l, e := BroadcastWalk(ss, es, t, a + 1, b);
    assert e == b;
    ReachesAfter(ss, es, t, ss[l].sh.registry, len, a, b);
  }

  lemma ReachesAfter(ss: seq<State>, es: seq<Event>, t: Tid, to: seq<Cid>, len: nat, a: nat, b: nat)
    requires Spans(ss, es, a, b) && a < b && Idle(ss, es, t, {}, a, a + 1) && Reaches(ss, es, t, to, len, a + 1, b)
    ensures Reaches(ss, es, t, to, len, a, b)
  {
    hide Nothing, Reaches;
    assert Idle(ss, es, t, {}, b, b) by {
      forall c ensures Nothing(ss, es, t, c, b, b) { NothingHere(ss, es, t, c, b); }
    }
    ReachesWiden(ss, es, t, to, len, a, a + 1, b, b);
  }
}
