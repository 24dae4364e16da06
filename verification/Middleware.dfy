/** The middleware around dispatch: before hooks in order, after hooks in reverse. */
module Middleware {
  import opened Dispatch
  import opened MethodMask
  import opened Options
  import opened Router

  const MAX_MIDDLEWARE := 256

  // A slot has no path when it is global. The hooks are user code; after may be NULL.
  datatype Slot = Slot(path: Option<string>, hasAfter: bool)

  // Handler(i) is the handler of route i.
  datatype Call = Before(slot: nat) | Handler(route: nat) | After(slot: nat)

  datatype Response = Refused(slot: nat) | TooLarge | Served(outcome: Outcome)

  // strncmp over the slot's length: the slot's path is a prefix of the request's
  predicate Applies(s: Slot, path: string) {
    s.path.Some? ==> s.path.value <= path
  }

  // The before calls of the first k slots.
  function Befores(slots: seq<Slot>, path: string, k: nat): seq<Call>
    requires k <= |slots|
  {
    if k == 0 then []
    else Befores(slots, path, k - 1) + if Applies(slots[k - 1], path) then [Before(k - 1)] else []
  }

  // The after calls that answer these before calls: last in, first out.
  function Mirror(slots: seq<Slot>, calls: seq<Call>): seq<Call> {
    if calls == [] then []
    else
      var last := calls[|calls| - 1];
      (if last.Before? && last.slot < |slots| && slots[last.slot].hasAfter then [After(last.slot)] else [])
      + Mirror(slots, calls[..|calls| - 1])
  }

  // Every hook that applies, among the first k, let the request through.
  ghost predicate AllPass(slots: seq<Slot>, path: string, passes: nat -> bool, k: nat)
    requires k <= |slots|
  {
    forall j :: 0 <= j < k && Applies(slots[j], path) ==> passes(j)
  }

  lemma BeforesStep(slots: seq<Slot>, path: string, k: nat)
    requires k < |slots|
    ensures var calls, calls' := Befores(slots, path, k), Befores(slots, path, k + 1);
      && calls' == (if Applies(slots[k], path) then calls + [Before(k)] else calls)
      && Mirror(slots, calls') == (if Applies(slots[k], path) && slots[k].hasAfter then [After(k)] else [])
                                  + Mirror(slots, calls)
  {
    var calls := Befores(slots, path, k);
    assert calls + [] == calls && [] + Mirror(slots, calls) == Mirror(slots, calls);
    assert (calls + [Before(k)])[..|calls|] == calls;
  }

  ghost predicate Rises(calls: seq<Call>, k: nat) {
    && (forall i :: 0 <= i < |calls| ==> calls[i].Before? && calls[i].slot < k)
    && forall i, j :: 0 <= i < j < |calls| ==> calls[i].Before? && calls[j].Before? && calls[i].slot < calls[j].slot
  }

  lemma BeforeLast(calls: seq<Call>, k: nat)
    requires Rises(calls, k)
    ensures Rises(calls + [Before(k)], k + 1) && Rises(calls, k + 1)
  {
    var all := calls + [Before(k)];
    assert all[|calls|] == Before(k) && forall i :: 0 <= i < |calls| ==> all[i] == calls[i];
  }

  lemma BeforesNone(slots: seq<Slot>, path: string)
    ensures Befores(slots, path, 0) == [] && Rises([], 0)
  {
  }

  // The before calls are those of the slots that apply, each once, in the order of registration.
  lemma {:induction false} BeforesMeans(slots: seq<Slot>, path: string, k: nat)
    requires k <= |slots|
    ensures var calls := Befores(slots, path, k);
      Rises(calls, k) && forall c :: c in calls <==> c.Before? && c.slot < k && Applies(slots[c.slot], path)
  {
    hide Befores, Mirror, Applies, Rises;
    if k == 0 {
      BeforesNone(slots, path);
    } else {
      BeforesMeans(slots, path, k - 1);
      BeforesStep(slots, path, k - 1);
      BeforeLast(Befores(slots, path, k - 1), k - 1);
    }
  }

  // Every after call answers a before call, and every before call of a slot with an after hook is answered.
  lemma {:induction false} MirrorMeans(slots: seq<Slot>, calls: seq<Call>)
    requires forall c :: c in calls ==> c.Before? && c.slot < |slots|
    ensures forall c :: c in Mirror(slots, calls) <==> c.After? && Before(c.slot) in calls && slots[c.slot].hasAfter
  {
    if calls != [] {
      var front, last := calls[..|calls| - 1], calls[|calls| - 1];
      assert calls == front + [last] && last in calls;
      MirrorMeans(slots, front);
    }
  }

  ghost predicate Falls(calls: seq<Call>, k: nat) {
    && (forall i :: 0 <= i < |calls| ==> calls[i].After? && calls[i].slot < k)
    && forall i, j :: 0 <= i < j < |calls| ==> calls[i].After? && calls[j].After? && calls[i].slot > calls[j].slot
  }

  lemma AfterFirst(rest: seq<Call>, k: nat)
    requires Falls(rest, k)
    ensures Falls([After(k)] + rest, k + 1)
  {
    var all := [After(k)] + rest;
    forall i | 0 <= i < |all| ensures all[i].After? && all[i].slot < k + 1 {
      if i > 0 { assert all[i] == rest[i - 1]; }
    }
    forall i, j | 0 <= i < j < |all| ensures all[i].slot > all[j].slot {
      assert all[j] == rest[j - 1];
      if i > 0 { assert all[i] == rest[i - 1]; }
    }
  }

  lemma NoAfterFirst(rest: seq<Call>, k: nat)
    requires Falls(rest, k)
    ensures Falls([] + rest, k + 1)
  {
    assert [] + rest == rest;
  }

  // The hooks run as they nest: of two slots that both ran, the one entered last is left first.
  lemma {:induction false} MirrorReverses(slots: seq<Slot>, path: string, k: nat)
    requires k <= |slots|
    ensures Falls(Mirror(slots, Befores(slots, path, k)), k)
  {
    hide Befores, Mirror, Applies, Falls;
    if k == 0 {
      NoCalls(slots, path);
    } else {
      MirrorReverses(slots, path, k - 1);
      BeforesStep(slots, path, k - 1);
      AfterFirst(Mirror(slots, Befores(slots, path, k - 1)), k - 1);
      NoAfterFirst(Mirror(slots, Befores(slots, path, k - 1)), k - 1);
    }
  }

  // Dispatch runs a handler, or answers by itself.
  function Handlers(o: Outcome): seq<Call> {
    match o
    case Handled(route, _) => [Handler(route)]
    case _ => []
  }

  // What a request owes its hooks. No hook after the refusing one runs, and a refused or an oversized
  // request is not dispatched and gets no after hook at all.
  ghost predicate Ran(slots: seq<Slot>, m: Method, path: string, routes: seq<Route>, tooLarge: bool,
                      passes: nat -> bool, mem: nat -> bool, calls: seq<Call>, r: Response)
  {
    var befores := Befores(slots, path, |slots|);
    match r
    case Refused(j) =>
      && j < |slots| && Applies(slots[j], path) && !passes(j) && AllPass(slots, path, passes, j)
      && calls == Befores(slots, path, j + 1)
    case TooLarge => tooLarge && AllPass(slots, path, passes, |slots|) && calls == befores
    case Served(o) =>
      && !tooLarge && AllPass(slots, path, passes, |slots|) && Dispatched(routes, m, path, mem, o)
      && calls == befores + Handlers(o) + Mirror(slots, befores)
  }

  // Dispatch runs exactly when every before hook that applies passes and the body fits.
  lemma ServedExactly(slots: seq<Slot>, m: Method, path: string, routes: seq<Route>, tooLarge: bool,
                      passes: nat -> bool, mem: nat -> bool, calls: seq<Call>, r: Response)
    requires Ran(slots, m, path, routes, tooLarge, passes, mem, calls, r)
    ensures r.Served? <==> AllPass(slots, path, passes, |slots|) && !tooLarge
  {
    hide Befores, Mirror, Dispatched;
  }

  // No slot with an after hook applies and is reached by the before hooks.
  ghost predicate NoneReached(slots: seq<Slot>, path: string, passes: nat -> bool) {
    forall s :: 0 <= s < |slots| && Applies(slots[s], path) && AllPass(slots, path, passes, s) ==> !slots[s].hasAfter
  }

  // Every before hook that ran, of a slot with an after hook, is answered.
  ghost predicate AllAnswered(slots: seq<Slot>, calls: seq<Call>) {
    forall s :: 0 <= s < |slots| && Before(s) in calls && slots[s].hasAfter ==> After(s) in calls
  }

  // After hooks answer before hooks exactly when all before hooks pass and the body fits, or no slot that
  // applies and is reached has an after hook.
  lemma AnsweredExactly(slots: seq<Slot>, m: Method, path: string, routes: seq<Route>, tooLarge: bool,
                        passes: nat -> bool, mem: nat -> bool, calls: seq<Call>, r: Response)
    requires Ran(slots, m, path, routes, tooLarge, passes, mem, calls, r)
    ensures AllAnswered(slots, calls) <==>
              || (AllPass(slots, path, passes, |slots|) && !tooLarge)
              || NoneReached(slots, path, passes)
  {
    hide Befores, Mirror, Dispatched, AllAnswered, NoneReached, Rises, Handlers;
    ServedExactly(slots, m, path, routes, tooLarge, passes, mem, calls, r);
    match r {
      case Refused(j) =>
        ReachedRefused(slots, path, passes, j);
        NoneAnswered(slots, path, passes, calls);
      case TooLarge =>
        BeforesMeans(slots, path, |slots|);
        NoneAnswered(slots, path, passes, calls);
      case Served(o) =>
        ServedAnswered(slots, path, o);
    }
  }

  lemma ReachedRefused(slots: seq<Slot>, path: string, passes: nat -> bool, j: nat)
    requires j < |slots| && Applies(slots[j], path) && !passes(j) && AllPass(slots, path, passes, j)
    ensures forall c :: c in Befores(slots, path, j + 1) ==> c.Before?
    ensures forall s :: 0 <= s < |slots| ==>
              (Before(s) in Befores(slots, path, j + 1) <==>
                 Applies(slots[s], path) && AllPass(slots, path, passes, s))
  {
    hide Befores, Applies, Rises;
    BeforesMeans(slots, path, j + 1);
  }

  lemma NoneAnswered(slots: seq<Slot>, path: string, passes: nat -> bool, calls: seq<Call>)
    requires forall c :: c in calls ==> c.Before?
    requires forall s :: 0 <= s < |slots| ==>
               (Before(s) in calls <==> Applies(slots[s], path) && AllPass(slots, path, passes, s))
    ensures AllAnswered(slots, calls) <==> NoneReached(slots, path, passes)
  {
    hide Applies, AllPass;
    if AllAnswered(slots, calls) {
      forall s | 0 <= s < |slots| && Applies(slots[s], path) && AllPass(slots, path, passes, s)
        ensures !slots[s].hasAfter
      {
        assert Before(s) in calls && After(s) !in calls;
      }
    }
  }

  lemma ServedAnswered(slots: seq<Slot>, path: string, o: Outcome)
    ensures var befores := Befores(slots, path, |slots|);
      AllAnswered(slots, befores + Handlers(o) + Mirror(slots, befores))
  {
    hide Befores, Mirror, Rises, Applies;
    var befores := Befores(slots, path, |slots|);
    BeforesMeans(slots, path, |slots|);
    MirrorMeans(slots, befores);
  }

  // The slot is global, or its path is the beginning of the request's, whatever follows.
  predicate Covers(s: Slot, path: string) {
    match s.path
    case None => true
    case Some(p) => |p| <= |path| && forall k :: 0 <= k < |p| ==> path[k] == p[k]
  }

  lemma CoversApplies(s: Slot, path: string)
    ensures Covers(s, path) <==> Applies(s, path)
  {
  }

  // When every hook whose path is a prefix passes, exactly those run, and dispatch after them unless the body is
  // too large; then exactly those of them that have an after hook are answered.
  lemma HooksPass(slots: seq<Slot>, m: Method, path: string, routes: seq<Route>, tooLarge: bool,
                  passes: nat -> bool, mem: nat -> bool, calls: seq<Call>, r: Response)
    requires Ran(slots, m, path, routes, tooLarge, passes, mem, calls, r)
    requires forall j :: 0 <= j < |slots| && Covers(slots[j], path) ==> passes(j)
    ensures if tooLarge then r == TooLarge else r.Served? && Dispatched(routes, m, path, mem, r.outcome)
    ensures forall j: nat :: Before(j) in calls <==> j < |slots| && Covers(slots[j], path)
    ensures forall j: nat :: After(j) in calls <==>
              !tooLarge && j < |slots| && Covers(slots[j], path) && slots[j].hasAfter
    ensures forall i: nat :: Handler(i) in calls <==> r.Served? && r.outcome.Handled? && r.outcome.route == i
  {
    hide Befores, Mirror, Dispatched, Rises, Covers, Applies;
    forall j | 0 <= j < |slots| ensures Covers(slots[j], path) <==> Applies(slots[j], path) {
      CoversApplies(slots[j], path);
    }
    BeforesMeans(slots, path, |slots|);
    MirrorMeans(slots, Befores(slots, path, |slots|));
  }

  // A slot whose path is a prefix and whose hook refuses, with only passing ones before it, ends the request: the
  // hooks up to it have run, no handler and no after hook does.
  lemma HookRefuses(slots: seq<Slot>, m: Method, path: string, routes: seq<Route>, tooLarge: bool,
                    passes: nat -> bool, mem: nat -> bool, calls: seq<Call>, r: Response, j: nat)
    requires Ran(slots, m, path, routes, tooLarge, passes, mem, calls, r)
    requires j < |slots| && Covers(slots[j], path) && !passes(j)
    requires forall i :: 0 <= i < j && Covers(slots[i], path) ==> passes(i)
    ensures r == Refused(j)
    ensures forall i: nat :: Before(i) in calls <==> i <= j && Covers(slots[i], path)
    ensures forall c :: c in calls ==> c.Before?
  {
    hide Befores, Mirror, Dispatched, Rises, Covers, Applies;
    forall i | 0 <= i < |slots| ensures Covers(slots[i], path) <==> Applies(slots[i], path) {
      CoversApplies(slots[i], path);
    }
    BeforesMeans(slots, path, j + 1);
  }

  // For one, when the second of two global hooks refuses, the first is left without its after hook.
  lemma RefusedUnanswered(m: Method, path: string, routes: seq<Route>, passes: nat -> bool, mem: nat -> bool)
    requires passes(0) && !passes(1)
    ensures var slots, calls := [Slot(None, true), Slot(None, true)], [Before(0), Before(1)];
      Ran(slots, m, path, routes, false, passes, mem, calls, Refused(1)) && !AllAnswered(slots, calls)
  {
    var slots, calls := [Slot(None, true), Slot(None, true)], [Before(0), Before(1)];
    assert Befores(slots, path, 1) == [Before(0)];
    assert Befores(slots, path, 2) == calls;
    assert calls[0] == Before(0) && After(0) !in calls;
  }

  class Pipeline {
    const server: Server
    var slots: seq<Slot>

    constructor (server: Server)
      ensures this.server == server && slots == []
    {
      this.server, slots := server, [];
    }

    // papago_middleware_path_add; the copy of the path may fail to be allocated
    method Add(path: Option<string>, hasBefore: bool, hasAfter: bool, mallocOk: bool) returns (rc: int)
      modifies this
      ensures rc == (if !hasBefore || |old(slots)| >= 256 || (path.Some? && !mallocOk) then 1 else 0)
      ensures slots == old(slots) + if rc == 0 then [Slot(path, hasAfter)] else []
    {
      if !hasBefore || |slots| >= MAX_MIDDLEWARE {
        return 1;
      }
      slots := slots + [Slot(path, hasAfter)];
      if path.Some? && !mallocOk {
        slots := slots[..|slots| - 1];
        return 1;
      }
      return 0;
    }

    // The hooks and the dispatch of mhd_handler; passes(j) is what the before hook of slot j answers.
    method Run(m: Method, req: Request, tooLarge: bool, passes: nat -> bool, mem: nat -> bool)
      returns (calls: seq<Call>, r: Response)
      requires server.Valid() && req.params == []
      modifies req
      ensures Ran(slots, m, req.path, server.routes, tooLarge, passes, mem, calls, r)
      ensures req.params == if r.Served? && r.outcome.Handled? then r.outcome.params else []
    {
      hide Dispatched, Selected, Befores, Mirror, Applies;
      calls := [];
      NoCalls(slots, req.path);
      for j := 0 to |slots|
        invariant server.Valid() && req.params == []
        invariant calls == Befores(slots, req.path, j) && AllPass(slots, req.path, passes, j)
      {
        BeforesStep(slots, req.path, j);
        if !Applies(slots[j], req.path) {
          continue;
        }
        calls := calls + [Before(j)];
        if !passes(j) {
          return calls, Refused(j);
        }
      }
      if tooLarge {
        return calls, TooLarge;
      }
      ghost var befores := calls;
      var o := server.Dispatch(m, req, mem);
      r := Served(o);
      calls := calls + Handlers(o);
      var i := |slots|;
      while i > 0
        invariant 0 <= i <= |slots| && req.params == if o.Handled? then o.params else []
        invariant calls + Mirror(slots, Befores(slots, req.path, i)) == befores + Handlers(o) + Mirror(slots, befores)
      {
        i := i - 1;
        BeforesStep(slots, req.path, i);
        Regroup(calls, After(i), Mirror(slots, Befores(slots, req.path, i)));
        if !slots[i].hasAfter || !Applies(slots[i], req.path) {
          continue;
        }
        calls := calls + [After(i)];
      }
      assert calls + [] == calls;
    }
  }

  lemma Regroup(calls: seq<Call>, c: Call, rest: seq<Call>)
    ensures calls + ([c] + rest) == calls + [c] + rest && calls + ([] + rest) == calls + rest
  {
    assert [] + rest == rest;
  }

  lemma NoCalls(slots: seq<Slot>, path: string)
    ensures Befores(slots, path, 0) == [] && Mirror(slots, []) == [] && Falls([], 0)
  {
  }
}
