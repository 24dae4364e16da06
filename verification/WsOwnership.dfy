/** Every message has one owner at a time and is handed to ws_msg_free at most once. */
module WsOwnership {
  import opened MessageQueue
  import opened WsSteps

  predicate Distinct<T(==)>(s: seq<T>) {
    forall i, j :: 0 <= i < j < |s| ==> s[i] != s[j]
  }

  predicate IsFreed(f: Fate) {
    f.FreedWritten? || f.FreedFailed? || f.FreedRejected? || f.FreedDrained?
  }

  // A list of messages is exactly what the history assigns to its owner.
  ghost predicate Owns(fate: map<Message, Fate>, f: Fate, msgs: seq<Message>) {
    Distinct(msgs) && forall m :: m in msgs <==> m in fate && fate[m] == f
  }

  // The log of ws_msg_free calls has no message twice and is exactly what the history calls freed.
  ghost predicate FreedOnce(sh: Shared) {
    Distinct(sh.freed) && forall m :: m in sh.freed <==> m in sh.fate && IsFreed(sh.fate[m])
  }

  // Two allocations never share an identity.
  ghost predicate Allocated(sh: Shared) {
    && (forall m :: m in sh.fate ==> m.id < sh.nextId)
    && (forall m, n :: m in sh.fate && n in sh.fate && m.id == n.id ==> m == n)
  }

  // `hand` is what thread t holds, `queue` the list of connection c.
  ghost predicate Owned(sh: Shared, t: Tid, hand: seq<Message>, c: Cid, queue: seq<Message>) {
    Allocated(sh) && FreedOnce(sh) && Owns(sh.fate, Held(t), hand) && Owns(sh.fate, InQueue(c), queue)
  }

  ghost predicate OwnView(v: View, t: Tid, c: Cid) {
    Owned(v.sh, t, Hand(v.pc), c, v.conn.q.msgs)
  }

  // Only messages of this thread and this queue move, and only between the two or to the heap.
  ghost predicate FateMove(fate: map<Message, Fate>, fate': map<Message, Fate>, t: Tid, c: Cid) {
    && (forall m :: m in fate ==> m in fate')
    && (forall m :: m in fate' && !(m in fate && fate'[m] == fate[m]) ==>
          && (m in fate ==> fate[m] == Held(t) || fate[m] == InQueue(c))
          && (fate'[m] == Held(t) || fate'[m] == InQueue(c) || IsFreed(fate'[m])))
  }

  // What belongs to nobody the step touches stays where it is.
  lemma OwnsKept(fate: map<Message, Fate>, fate': map<Message, Fate>, f: Fate, msgs: seq<Message>, t: Tid, c: Cid)
    requires Owns(fate, f, msgs) && FateMove(fate, fate', t, c)
    requires f != Held(t) && f != InQueue(c) && !IsFreed(f)
    ensures Owns(fate', f, msgs)
  {
  }

  // The steps that do not touch a message.
  predicate Untouched(v: View, v': View) {
    && Hand(v'.pc) == Hand(v.pc) && v'.conn.q.msgs == v.conn.q.msgs
    && v'.sh.fate == v.sh.fate && v'.sh.freed == v.sh.freed && v'.sh.nextId == v.sh.nextId
  }

  lemma CreateOwn(sh: Shared, t: Tid, c: Cid, queue: seq<Message>, m: Message, sh': Shared)
    requires Owned(sh, t, [], c, queue) && m.id == sh.nextId
    requires sh' == sh.(nextId := sh.nextId + 1, fate := sh.fate[m := Held(t)])
    ensures Owned(sh', t, [m], c, queue) && FateMove(sh.fate, sh'.fate, t, c)
  {
  }

  lemma PushOwn(sh: Shared, t: Tid, c: Cid, queue: seq<Message>, m: Message, sh': Shared)
    requires Owned(sh, t, [m], c, queue) && sh' == sh.(fate := sh.fate[m := InQueue(c)])
    ensures Owned(sh', t, [], c, queue + [m]) && FateMove(sh.fate, sh'.fate, t, c)
  {
    assert m in [m];
  }

  lemma PopOwn(sh: Shared, t: Tid, c: Cid, queue: seq<Message>, sh': Shared)
    requires queue != [] && Owned(sh, t, [], c, queue) && sh' == sh.(fate := sh.fate[queue[0] := Held(t)])
    ensures Owned(sh', t, [queue[0]], c, queue[1..]) && FateMove(sh.fate, sh'.fate, t, c)
  {
    DistinctCons(queue);
  }

  lemma DrainOwn(sh: Shared, t: Tid, c: Cid, queue: seq<Message>, sh': Shared)
    requires Owned(sh, t, [], c, queue) && sh' == sh.(fate := TakeAll(sh.fate, c, t))
    ensures Owned(sh', t, queue, c, []) && FateMove(sh.fate, sh'.fate, t, c)
  {
    forall m ensures m in queue <==> m in sh'.fate && sh'.fate[m] == Held(t) {
      assert m !in [];
    }
  }

  // Freeing the first message in hand.
  lemma FreeOwn(sh: Shared, t: Tid, c: Cid, hand: seq<Message>, queue: seq<Message>, f: Fate)
    requires hand != [] && Owned(sh, t, hand, c, queue) && IsFreed(f)
    ensures Owned(Free(sh, hand[0], f), t, hand[1..], c, queue)
    ensures FateMove(sh.fate, Free(sh, hand[0], f).fate, t, c)
  {
    DistinctCons(hand);
  }

  lemma DistinctCons<T>(s: seq<T>)
    requires s != []
    ensures forall x :: x in s <==> x == s[0] || x in s[1..]
    ensures Distinct(s) ==> Distinct(s[1..]) && s[0] !in s[1..]
  {
    assert s == [s[0]] + s[1..];
  }

  predicate MovesMessage(p: Pc) {
    p.Create? || p.PushTest? || p.RejectFree? || p.PopTake? || p.FailedFree? || p.WrittenFree?
    || p.DrainTake? || (p.DrainFree? && p.list != [])
  }

  lemma OtherEvents(v: View, e: Event)
    requires ViewEnabled(v, e) && !e.Exec?
    ensures Untouched(v, ViewNext(v, e))
  {
  }

  lemma OtherSteps(v: View, t: Tid, ok: bool, partial: bool)
    requires CanStep(v) && !MovesMessage(v.pc)
    ensures Untouched(v, Step(v, t, ok, partial))
  {
    hide Push, Pop, Drain, Full, Register, Unregister, TakeAll, Free;
  }

  lemma FreeSteps(v: View, t: Tid, ok: bool, partial: bool)
    requires v.pc.RejectFree? || v.pc.FailedFree? || v.pc.WrittenFree? || (v.pc.DrainFree? && v.pc.list != [])
    ensures var v' := Step(v, t, ok, partial);
      && Hand(v.pc) != [] && Hand(v'.pc) == Hand(v.pc)[1..] && v'.conn == v.conn
      && v'.sh == Free(v.sh, Hand(v.pc)[0], FreedBy(v.pc))
  {
  }

  function FreedBy(p: Pc): (f: Fate)
    ensures IsFreed(f)
  {
    if p.RejectFree? then FreedRejected
    else if p.FailedFree? then FreedFailed
    else if p.WrittenFree? then FreedWritten
    else FreedDrained
  }

  lemma FateStays(fate: map<Message, Fate>, t: Tid, c: Cid)
    ensures FateMove(fate, fate, t, c)
  {
  }

  lemma PushSteps(v: View, t: Tid, ok: bool, c: Cid)
    requires (v.pc.Create? || v.pc.PushTest?) && OwnView(v, t, c) && v.pc.c == c
    ensures OwnView(StepPush(v, t, ok), t, c) && FateMove(v.sh.fate, StepPush(v, t, ok).sh.fate, t, c)
  {
    FateStays(v.sh.fate, t, c);
    hide Owned, FateMove;
    match v.pc {
      case Create(k, _, len) =>
        if ok {
          CreateOwn(v.sh, t, c, v.conn.q.msgs, Message(v.sh.nextId, len, k.Broadcast?), StepPush(v, t, ok).sh);
        }
      case PushTest(_, _, m) =>
        if !Full(v.conn.q, m.len) { PushOwn(v.sh, t, c, v.conn.q.msgs, m, StepPush(v, t, ok).sh); }
    }
  }

  lemma PopSteps(v: View, t: Tid, ok: bool, partial: bool, c: Cid)
    requires v.pc.PopTake? && OwnView(v, t, c) && v.pc.c == c
    ensures OwnView(StepPop(v, t, ok, partial), t, c)
    ensures FateMove(v.sh.fate, StepPop(v, t, ok, partial).sh.fate, t, c)
  {
    FateStays(v.sh.fate, t, c);
    hide Owned, FateMove;
    if v.conn.q.msgs != [] { PopOwn(v.sh, t, c, v.conn.q.msgs, StepPop(v, t, ok, partial).sh); }
  }

  lemma DrainSteps(v: View, t: Tid, c: Cid)
    requires v.pc.DrainTake? && OwnView(v, t, c) && v.pc.c == c
    ensures OwnView(StepClosed(v, t), t, c) && FateMove(v.sh.fate, StepClosed(v, t).sh.fate, t, c)
  {
    hide Owned, FateMove;
    DrainOwn(v.sh, t, c, v.conn.q.msgs, StepClosed(v, t).sh);
  }

  lemma OwnStays(v: View, v': View, t: Tid, c: Cid)
    requires OwnView(v, t, c) && Untouched(v, v')
    ensures OwnView(v', t, c)
  {
  }

  lemma StepOwn(v: View, e: Event, c: Cid)
    requires ViewEnabled(v, e) && OwnView(v, Actor(e), c) && (HasConn(v.pc) ==> v.pc.c == c)
    ensures OwnView(ViewNext(v, e), Actor(e), c)
    ensures FateMove(v.sh.fate, ViewNext(v, e).sh.fate, Actor(e), c)
  {
    hide Owned, FateMove, Hand, StepApi, StepPush, StepEstablished, StepPop, StepMore, StepClosed;
    FateStays(v.sh.fate, Actor(e), c);
    if !e.Exec? {
      OtherEvents(v, e);
      OwnStays(v, ViewNext(v, e), Actor(e), c);
    } else if !MovesMessage(v.pc) {
      OtherSteps(v, e.t, e.ok, e.partial);
      OwnStays(v, ViewNext(v, e), Actor(e), c);
    } else if v.pc.Create? || v.pc.PushTest? {
      PushSteps(v, e.t, e.ok, c);
    } else if v.pc.PopTake? {
      PopSteps(v, e.t, e.ok, e.partial, c);
    } else if v.pc.DrainTake? {
      DrainSteps(v, e.t, c);
    } else {
      FreeSteps(v, e.t, e.ok, e.partial);
      FreeOwn(v.sh, e.t, c, Hand(v.pc), v.conn.q.msgs, FreedBy(v.pc));
    }
  }
}
