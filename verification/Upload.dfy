/** The body of a request that is not multipart, as its upload chunks arrive. */
module Upload {
  import opened Dispatch
  import opened MethodMask
  import opened Middleware

  // A chunk, and whether realloc finds room for it.
  datatype Chunk = Chunk(data: string, memOk: bool)

  // What has been received.
  function Sent(history: seq<Chunk>): string {
    if history == [] then "" else Sent(history[..|history| - 1]) + history[|history| - 1].data
  }

  // The cap was passed at some point.
  predicate Overflows(history: seq<Chunk>, max: nat) {
    history != [] &&
    var front, last := history[..|history| - 1], history[|history| - 1];
    Overflows(front, max) || |Kept(front, max)| + |last.data| > max
  }

  // What is in memory: passing the cap frees it all, and later chunks start over.
  function Kept(history: seq<Chunk>, max: nat): string {
    if history == [] then ""
    else
      var kept, last := Kept(history[..|history| - 1], max), history[|history| - 1];
      if |kept| + |last.data| > max then "" else if last.memOk then kept + last.data else kept
  }

  // No chunk was lost to a failed realloc.
  predicate MemoryHolds(history: seq<Chunk>) {
    forall i :: 0 <= i < |history| ==> history[i].data == "" || history[i].memOk
  }

  // Below the cap the whole body is kept exactly when no chunk met a failed realloc.
  lemma {:induction false} BodyWhole(history: seq<Chunk>, max: nat)
    requires !Overflows(history, max)
    ensures |Kept(history, max)| <= |Sent(history)| && |Kept(history, max)| <= max
    ensures Kept(history, max) == Sent(history) <==> MemoryHolds(history)
    ensures |Kept(history, max)| == |Sent(history)| ==> MemoryHolds(history)
  {
    if history != [] {
      var front, last := history[..|history| - 1], history[|history| - 1];
      BodyWhole(front, max);
      assert MemoryHolds(history) <==> MemoryHolds(front) && (last.data == "" || last.memOk);
    }
  }

  // With memory, the flag says exactly that the total is over the cap, however the body is cut into chunks.
  lemma {:induction false} OverflowExact(history: seq<Chunk>, max: nat)
    requires MemoryHolds(history)
    ensures Overflows(history, max) <==> |Sent(history)| > max
  {
    if history != [] {
      var front := history[..|history| - 1];
      OverflowExact(front, max);
      if !Overflows(front, max) { BodyWhole(front, max); }
    }
  }

  // Once set, the flag stays.
  lemma {:induction false} OverflowStays(history: seq<Chunk>, more: seq<Chunk>, max: nat)
    requires Overflows(history, max)
    ensures Overflows(history + more, max)
  {
    if more == [] {
      assert history + more == history;
    } else {
      var front := more[..|more| - 1];
      OverflowStays(history, front, max);
      assert (history + more)[..|history + more| - 1] == history + front;
    }
  }

  // A request that is dispatched, and so any that reaches a handler, has its whole body, within the cap,
  // unless memory ran out.
  lemma HandlerBody(history: seq<Chunk>, max: nat, slots: seq<Slot>, m: Method, path: string, routes: seq<Route>,
                    passes: nat -> bool, mem: nat -> bool, calls: seq<Call>, r: Response,
                    route: nat)
    requires Ran(slots, m, path, routes, Overflows(history, max), passes, mem, calls, r)
    requires r.Served? || Handler(route) in calls
    ensures |Kept(history, max)| <= max && AllPass(slots, path, passes, |slots|)
    ensures Kept(history, max) == Sent(history) <==> MemoryHolds(history)
  {
    if !r.Served? {
      BeforesMeans(slots, path, if r.Refused? then r.slot + 1 else |slots|);
    } else {
      BodyWhole(history, max);
    }
  }

  // For one, a chunk in the middle that finds no memory: the request is served a body with a hole.
  lemma HoleServed(a: string, b: string, c: string, max: nat, m: Method, path: string, routes: seq<Route>,
                   passes: nat -> bool, mem: nat -> bool, calls: seq<Call>, r: Response)
    requires a != "" && b != "" && c != "" && |a| + |b| <= max && |a| + |c| <= max
    requires var history := [Chunk(a, true), Chunk(b, false), Chunk(c, true)];
      Ran([], m, path, routes, Overflows(history, max), passes, mem, calls, r)
    ensures var history := [Chunk(a, true), Chunk(b, false), Chunk(c, true)];
      r.Served? && Kept(history, max) == a + c != Sent(history)
  {
    var none: seq<Chunk> := [];
    var h1, h2 := [Chunk(a, true)], [Chunk(a, true), Chunk(b, false)];
    var history := [Chunk(a, true), Chunk(b, false), Chunk(c, true)];
    assert none + [Chunk(a, true)] == h1 && h1 + [Chunk(b, false)] == h2 && h2 + [Chunk(c, true)] == history;
    ReceivedStep(none, Chunk(a, true), max);
    ReceivedStep(h1, Chunk(b, false), max);
    ReceivedStep(h2, Chunk(c, true), max);
    assert "" + a == a;
    hide Kept, Sent, Overflows, Ran;
    ServedExactly([], m, path, routes, Overflows(history, max), passes, mem, calls, r);
  }

  lemma ReceivedStep(history: seq<Chunk>, c: Chunk, max: nat)
    ensures Sent(history + [c]) == Sent(history) + c.data
    ensures Overflows(history + [c], max) <==> Overflows(history, max) || |Kept(history, max)| + |c.data| > max
    ensures Kept(history + [c], max)
         == if |Kept(history, max)| + |c.data| > max then ""
            else if c.memOk then Kept(history, max) + c.data else Kept(history, max)
  {
    assert (history + [c])[..|history|] == history;
  }

  // The chunk at the end of the history is the one the cap branch turns away.
  predicate TurnedAway(history: seq<Chunk>, max: nat) {
    history != [] && |Kept(history[..|history| - 1], max)| + |history[|history| - 1].data| > max
  }

  lemma {:induction false} KeptShorter(history: seq<Chunk>, max: nat)
    ensures |Kept(history, max)| <= |Sent(history)|
    ensures Overflows(history, max) ==> |Kept(history, max)| < |Sent(history)|
  {
    if history != [] { KeptShorter(history[..|history| - 1], max); }
  }

  // Before hooks run before the 413. What they see is nothing or the whole body, exactly unless the cap was
  // passed and the chunk that came last was not the one to pass it.
  lemma FragmentSeen(history: seq<Chunk>, max: nat)
    requires MemoryHolds(history) && forall i :: 0 <= i < |history| ==> history[i].data != ""
    ensures Kept(history, max) == "" || Kept(history, max) == Sent(history)
       <==> !Overflows(history, max) || TurnedAway(history, max)
  {
    KeptShorter(history, max);
    if !Overflows(history, max) { BodyWhole(history, max); }
  }

  // For one, a short chunk after an overflow is kept by itself.
  lemma FragmentKept(first: string, rest: string, max: nat)
    requires |first| > max && |rest| <= max
    ensures var history := [Chunk(first, true), Chunk(rest, true)];
      Overflows(history, max) && !TurnedAway(history, max) && Kept(history, max) == rest != Sent(history)
  {
    var history := [Chunk(first, true), Chunk(rest, true)];
    assert history[..1] == [Chunk(first, true)] && history[..1][..0] == [];
    assert Kept(history[..1][..0], max) == "";
    assert Kept(history[..1], max) == "" && Sent(history[..1]) == first;
  }

  // realloc, memcpy and the terminator
  method Grown(bytes: array?<char>, length: nat, data: string) returns (grown: array<char>)
    requires if bytes == null then length == 0 else length <= bytes.Length
    ensures fresh(grown) && grown.Length == length + |data| + 1
    ensures grown[..length + |data|] == (if bytes == null then "" else bytes[..length]) + data
    ensures grown[length + |data|] == '\0'
  {
    grown := new char[length + |data| + 1];
    forall i | 0 <= i < length {
      grown[i] := if bytes != null then bytes[i] else '\0';
    }
    forall i | 0 <= i < |data| {
      grown[length + i] := data[i];
    }
    grown[length + |data|] := '\0';
  }

  class Body {
    const max: nat
    var bytes: array?<char>
    var length: nat
    var tooLarge: bool
    ghost var history: seq<Chunk>

    ghost predicate Valid()
      reads this, bytes
    {
      && length == |Kept(history, max)| && tooLarge == Overflows(history, max)
      && (bytes == null ==> length == 0)
      && (bytes != null ==>
            length < bytes.Length && bytes[..length] == Kept(history, max) && bytes[length] == '\0')
    }

    constructor (max: nat)
      ensures Valid() && this.max == max && history == []
    {
      this.max, bytes, length, tooLarge, history := max, null, 0, false, [];
    }

    // The upload branch of mhd_handler.
    method Receive(c: Chunk)
      requires Valid() && c.data != ""
      modifies this
      ensures Valid() && history == old(history) + [c]
      ensures bytes == null || bytes == old(bytes) || fresh(bytes)
    {
      ghost var before := history;
      history := history + [c];
      assert history[..|history| - 1] == before;
      if length + |c.data| > max {
        bytes, length, tooLarge := null, 0, true;
        return;
      }
      if !c.memOk {
        return;
      }
      bytes := Grown(bytes, length, c.data);
      length := length + |c.data|;
    }
  }
}
