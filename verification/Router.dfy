/** The route matcher: two pointers over raw strings, against a recursive matcher over segments. */
module Router {
  import opened KeyValues
  import opened Options
  import opened PathSegments
  import Splitting

  const MAX_PARAMS := 16

  // A capture: positions in the pattern and in the path; the key of a wildcard is "*".
  datatype ParamSpan = ParamSpan(keyAt: nat, keyLen: nat, valAt: nat, valLen: nat, wildcard: bool)

  // The reference matcher. ':' matches any one segment, a lone '*' any remainder including none,
  // and nothing after a '*' is looked at.
  function Match(pattern: seq<string>, path: seq<string>): Option<seq<KeyValue>> {
    if pattern != [] && pattern[0] == "*" then Some([KeyValue("*", Join(path))])
    else if pattern == [] || path == [] then
      if pattern == [] && path == [] then Some([]) else None
    else if pattern[0] != "" && pattern[0][0] == ':' then
      Prepend([KeyValue(pattern[0][1..], path[0])], Match(pattern[1..], path[1..]))
    else if pattern[0] == path[0] then Match(pattern[1..], path[1..])
    else None
  }

  function Prepend(first: seq<KeyValue>, rest: Option<seq<KeyValue>>): Option<seq<KeyValue>> {
    match rest
    case Some(ps) => Some(first + ps)
    case None => None
  }

  function MatchPath(pattern: string, path: string): Option<seq<KeyValue>> {
    Match(Segments(pattern), Segments(path))
  }

  predicate IsCapture(seg: string) {
    (seg != "" && seg[0] == ':') || seg == "*"
  }

  function CountCaptures(segs: seq<string>): nat {
    if segs == [] then 0 else (if IsCapture(segs[0]) then 1 else 0) + CountCaptures(segs[1..])
  }

  // count_route_params
  method CountRouteParams(pattern: string) returns (n: nat)
    ensures n == CountCaptures(Segments(pattern))
  {
    hide Segments;
    n := 0;
    var at: nat, len: nat := NextSegment(pattern, 0);
    assert pattern[0..] == pattern;
    while len > 0
      invariant at + len <= |pattern| && (len > 0 ==> IsSegment(pattern[at..at + len]))
      invariant n + CountCaptures(Rest(pattern, at, len)) == CountCaptures(Segments(pattern))
      decreases |pattern| - at, len
    {
      ghost var rest := Rest(pattern, at, len);
      assert rest[0] == pattern[at..at + len] && rest[1..] == Segments(pattern[at + len..]);
      assert IsCapture(rest[0]) <==> pattern[at] == ':' || (len == 1 && pattern[at] == '*');
      if pattern[at] == ':' || (len == 1 && pattern[at] == '*') {
        n := n + 1;
      }
      at, len := NextSegment(pattern, at + len);
    }
  }

  // No route the server accepts can lose a capture to the 16-span guard.
  lemma {:induction false} CapturesCounted(pattern: seq<string>, path: seq<string>)
    requires Match(pattern, path).Some?
    ensures |Match(pattern, path).value| <= CountCaptures(pattern)
  {
    if pattern != [] && pattern[0] != "*" {
      CapturesCounted(pattern[1..], path[1..]);
    }
  }

  // ---------------------------------------------------------------- what a match is

  predicate Fits(p: string, q: string) {
    (p != "" && p[0] == ':') || p == q
  }

  // The first n segments of the pattern come before its first lone '*' and fit those of the path one by one;
  // then the pattern goes on with that '*', or both end.
  predicate Covers(pattern: seq<string>, path: seq<string>, n: nat) {
    && n <= |pattern| && n <= |path|
    && (forall i :: 0 <= i < n ==> pattern[i] != "*" && Fits(pattern[i], path[i]))
    && if n < |pattern| then pattern[n] == "*" else n == |path|
  }

  // Each ':' segment before n has its name and the segment of the path, in their order; a '*' has the rest.
  ghost predicate Captured(pattern: seq<string>, path: seq<string>, n: nat, ps: seq<KeyValue>)
    requires Covers(pattern, path, n)
  {
    && |ps| == CountCaptures(pattern[..n]) + (if n < |pattern| then 1 else 0)
    && (forall i :: 0 <= i < n && pattern[i] != "" && pattern[i][0] == ':' ==>
          && CountCaptures(pattern[..i]) < |ps|
          && ps[CountCaptures(pattern[..i])] == KeyValue(pattern[i][1..], path[i]))
    && (n < |pattern| ==> ps[|ps| - 1] == KeyValue("*", Join(path[n..])))
  }

  ghost predicate Means(pattern: seq<string>, path: seq<string>, r: Option<seq<KeyValue>>) {
    match r
    case Some(ps) => exists n :: Covers(pattern, path, n) && Captured(pattern, path, n, ps)
    case None => forall n :: !Covers(pattern, path, n)
  }

  // A pattern matches exactly when it covers the path, and then yields exactly those captures.
  lemma {:induction false} MatchMeans(pattern: seq<string>, path: seq<string>)
    ensures match Match(pattern, path)
      case Some(ps) => exists n :: Covers(pattern, path, n) && Captured(pattern, path, n, ps)
      case None => forall n :: !Covers(pattern, path, n)
  {
    assert Means(pattern, path, Match(pattern, path)) by {
      hide Captured;
      if pattern != [] && pattern[0] == "*" {
        MatchWildcard(pattern, path);
      } else if pattern == [] && path == [] {
        MatchEnds();
      } else if pattern != [] && path != [] {
        MatchMeans(pattern[1..], path[1..]);
        if Fits(pattern[0], path[0]) {
          FitsHead(pattern, path, Match(pattern[1..], path[1..]));
        }
      }
    }
  }

  lemma MatchWildcard(pattern: seq<string>, path: seq<string>)
    requires pattern != [] && pattern[0] == "*"
    ensures Covers(pattern, path, 0) && Captured(pattern, path, 0, [KeyValue("*", Join(path))])
  {
    assert path[0..] == path;
  }

  lemma MatchEnds()
    ensures Covers([], [], 0) && Captured([], [], 0, [])
  {
  }

  // One segment that fits, in front.
  lemma FitsHead(pattern: seq<string>, path: seq<string>, rest: Option<seq<KeyValue>>)
    requires pattern != [] && path != [] && pattern[0] != "*" && Fits(pattern[0], path[0])
    requires Means(pattern[1..], path[1..], rest)
    ensures var first := if pattern[0] != "" && pattern[0][0] == ':' then [KeyValue(pattern[0][1..], path[0])] else [];
      Means(pattern, path, Prepend(first, rest))
  {
    hide Covers, Captured, Fits;
    if rest.None? {
      forall n ensures !Covers(pattern, path, n) {
        NotCovers(pattern, path, n);
      }
    } else {
      var n :| Covers(pattern[1..], path[1..], n) && Captured(pattern[1..], path[1..], n, rest.value);
      CoversMore(pattern, path, n);
      CapturedMore(pattern, path, n, rest.value);
    }
  }

  lemma NotCovers(pattern: seq<string>, path: seq<string>, n: nat)
    requires pattern != [] && path != [] && pattern[0] != "*"
    ensures n > 0 && Covers(pattern, path, n) ==> Covers(pattern[1..], path[1..], n - 1)
    ensures n == 0 ==> !Covers(pattern, path, n)
  {
  }

  lemma CoversMore(pattern: seq<string>, path: seq<string>, n: nat)
    requires pattern != [] && path != [] && pattern[0] != "*" && Fits(pattern[0], path[0])
    requires Covers(pattern[1..], path[1..], n)
    ensures Covers(pattern, path, n + 1)
  {
    forall i | 0 <= i < n + 1 ensures pattern[i] != "*" && Fits(pattern[i], path[i]) {
      if i > 0 { assert pattern[i] == pattern[1..][i - 1] && path[i] == path[1..][i - 1]; }
    }
  }

  lemma CountMore(pattern: seq<string>, i: nat)
    requires i < |pattern|
    ensures CountCaptures(pattern[..i + 1])
         == CountCaptures(pattern[1..][..i]) + if IsCapture(pattern[0]) then 1 else 0
  {
    assert pattern[..i + 1][1..] == pattern[1..][..i];
  }

  lemma CapturedMore(pattern: seq<string>, path: seq<string>, n: nat, rest: seq<KeyValue>)
    requires pattern != [] && path != [] && pattern[0] != "*" && Covers(pattern, path, n + 1)
    requires Covers(pattern[1..], path[1..], n) && Captured(pattern[1..], path[1..], n, rest)
    ensures var first := if pattern[0] != "" && pattern[0][0] == ':' then [KeyValue(pattern[0][1..], path[0])] else [];
      Captured(pattern, path, n + 1, first + rest)
  {
    hide CountCaptures, Join;
    var first := if pattern[0] != "" && pattern[0][0] == ':' then [KeyValue(pattern[0][1..], path[0])] else [];
    var ps := first + rest;
    CountMore(pattern, n);
    assert path[1..][n..] == path[n + 1..];
    forall i | 0 <= i < n + 1 && pattern[i] != "" && pattern[i][0] == ':'
      ensures CountCaptures(pattern[..i]) < |ps|
      ensures ps[CountCaptures(pattern[..i])] == KeyValue(pattern[i][1..], path[i])
    {
      if i == 0 {
        NoneCounted(pattern);
      } else {
        CountMore(pattern, i - 1);
        assert pattern[i] == pattern[1..][i - 1] && path[i] == path[1..][i - 1];
      }
    }
  }

  lemma NoneCounted(pattern: seq<string>)
    ensures CountCaptures(pattern[..0]) == 0
  {
  }

  // ---------------------------------------------------------------- match_route

  // What commit_params stores for a capture.
  predicate SpanOk(pattern: string, path: string, s: ParamSpan) {
    s.keyAt + s.keyLen <= |pattern| && s.valAt + s.valLen <= |path|
  }

  function SpanParam(pattern: string, path: string, s: ParamSpan): KeyValue
    requires SpanOk(pattern, path, s)
  {
    var value := path[s.valAt..s.valAt + s.valLen];
    if s.wildcard then KeyValue("*", Join(Segments(value))) else KeyValue(pattern[s.keyAt..s.keyAt + s.keyLen], value)
  }

  // The spans written so far are the first 16 of these captures.
  ghost predicate Written(pattern: string, path: string, spans: array?<ParamSpan>, n: nat, ps: seq<KeyValue>)
    reads spans
  {
    if spans == null then n == 0
    else
      && spans.Length == MAX_PARAMS && n == (if |ps| < MAX_PARAMS then |ps| else MAX_PARAMS)
      && forall i :: 0 <= i < n ==> SpanOk(pattern, path, spans[i]) && SpanParam(pattern, path, spans[i]) == ps[i]
  }

  method AddSpan(pattern: string, path: string, spans: array?<ParamSpan>, n: nat, s: ParamSpan, ghost ps: seq<KeyValue>)
    returns (n': nat)
    requires Written(pattern, path, spans, n, ps) && SpanOk(pattern, path, s)
    modifies spans
    ensures Written(pattern, path, spans, n', ps + [SpanParam(pattern, path, s)])
  {
    n' := n;
    if spans != null && n < MAX_PARAMS {
      spans[n] := s;
      n' := n + 1;
    }
  }

  method MatchRoute(pattern: string, path: string, spans: array?<ParamSpan>) returns (ok: bool, count: nat)
    requires spans != null ==> spans.Length == MAX_PARAMS
    modifies spans
    ensures ok <==> MatchPath(pattern, path).Some?
    ensures ok ==> Written(pattern, path, spans, count, MatchPath(pattern, path).value)
  {
    hide Segments, Join, Written, Match, Prepend, SpanParam, Rest;
    WrittenNone(pattern, path, spans);
    PrependNone(MatchPath(pattern, path));
    var n := 0;
    ghost var ps: seq<KeyValue> := [];
    assert pattern[0..] == pattern && path[0..] == path;
    var pt: nat, plen: nat := NextSegment(pattern, 0);
    var qt: nat, qlen: nat := NextSegment(path, 0);
    ghost var P, Q := Rest(pattern, pt, plen), Rest(path, qt, qlen);
    while plen > 0 && qlen > 0
      invariant pt + plen <= |pattern| && qt + qlen <= |path|
      invariant P == Rest(pattern, pt, plen) && Q == Rest(path, qt, qlen) == Segments(path[qt..])
      invariant qlen == 0 ==> qt == |path|
      invariant Written(pattern, path, spans, n, ps)
      invariant MatchPath(pattern, path) == Prepend(ps, Match(P, Q))
      decreases |pattern| - pt, plen
    {
      MatchStep(ps, P, Q);
      RestHead(pattern, pt, plen);
      RestHead(path, qt, qlen);
      if plen == 1 && pattern[pt] == '*' {
        WildcardSpan(pattern, path, pt, qt, |path| - qt);
        count := AddSpan(pattern, path, spans, n, ParamSpan(pt, 1, qt, |path| - qt, true), ps);
        return true, count;
      }
      if pattern[pt] == ':' {
        SegmentSpan(pattern, path, pt, plen, qt, qlen);
        n := AddSpan(pattern, path, spans, n, ParamSpan(pt + 1, plen - 1, qt, qlen, false), ps);
        ps := ps + [KeyValue(P[0][1..], Q[0])];
      } else if pattern[pt..pt + plen] != path[qt..qt + qlen] {
        return false, n;
      }
      pt, plen := NextSegment(pattern, pt + plen);
      qt, qlen := NextSegment(path, qt + qlen);
      P, Q := P[1..], Q[1..];
    }
    MatchStep(ps, P, Q);
    RestHead(pattern, pt, plen);
    RestHead(path, qt, qlen);
    if qlen > 0 || (plen > 0 && !(plen == 1 && pattern[pt] == '*')) {
      return false, n;
    }
    if plen == 1 && pattern[pt] == '*' {
      WildcardSpan(pattern, path, pt, qt, 0);
      n := AddSpan(pattern, path, spans, n, ParamSpan(pt, 1, qt, 0, true), ps);
    }
    return true, n;
  }

  lemma RestHead(s: string, at: nat, len: nat)
    requires at + len <= |s|
    ensures len == 0 <==> Rest(s, at, len) == []
    ensures len > 0 ==> var r := Rest(s, at, len);
              && r[0] == s[at..at + len] && r[1..] == Segments(s[at + len..])
              && r[0] != "" && r[0][0] == s[at] && (r[0] == "*" <==> len == 1 && s[at] == '*')
  {
    if len > 0 {
      var seg := s[at..at + len];
      assert seg[0] == s[at] && |seg| == len;
    }
  }

  lemma WildcardSpan(pattern: string, path: string, pt: nat, qt: nat, len: nat)
    requires pt < |pattern| && qt + len == |path|
    ensures SpanParam(pattern, path, ParamSpan(pt, 1, qt, len, true)) == KeyValue("*", Join(Segments(path[qt..])))
  {
    assert path[qt..qt + len] == path[qt..];
  }

  lemma SegmentSpan(pattern: string, path: string, pt: nat, plen: nat, qt: nat, qlen: nat)
    requires 0 < plen && pt + plen <= |pattern| && qt + qlen <= |path|
    ensures SpanParam(pattern, path, ParamSpan(pt + 1, plen - 1, qt, qlen, false))
         == KeyValue(pattern[pt..pt + plen][1..], path[qt..qt + qlen])
  {
    assert pattern[pt + 1..pt + 1 + (plen - 1)] == pattern[pt..pt + plen][1..];
  }

  // The reference matcher one segment further, with the captures so far in front.
  lemma MatchStep(ps: seq<KeyValue>, P: seq<string>, Q: seq<string>)
    ensures Prepend(ps, Match(P, Q)) ==
            if P != [] && P[0] == "*" then Some(ps + [KeyValue("*", Join(Q))])
            else if P == [] || Q == [] then if P == [] && Q == [] then Some(ps) else None
            else if P[0] != "" && P[0][0] == ':' then
              Prepend(ps + [KeyValue(P[0][1..], Q[0])], Match(P[1..], Q[1..]))
            else if P[0] == Q[0] then Prepend(ps, Match(P[1..], Q[1..]))
            else None
  {
    assert ps + [] == ps;
    if P != [] && Q != [] && P[0] != "*" && P[0] != "" && P[0][0] == ':' {
      PrependTwice(ps, [KeyValue(P[0][1..], Q[0])], Match(P[1..], Q[1..]));
    }
  }

  lemma WrittenNone(pattern: string, path: string, spans: array?<ParamSpan>)
    requires spans != null ==> spans.Length == MAX_PARAMS
    ensures Written(pattern, path, spans, 0, [])
  {
  }

  lemma PrependNone(r: Option<seq<KeyValue>>)
    ensures Prepend([], r) == r
  {
    if r.Some? {
      assert [] + r.value == r.value;
    }
  }

  lemma PrependTwice(a: seq<KeyValue>, b: seq<KeyValue>, r: Option<seq<KeyValue>>)
    ensures Prepend(a, Prepend(b, r)) == Prepend(a + b, r)
  {
    if r.Some? {
      assert a + (b + r.value) == (a + b) + r.value;
    }
  }

  // ---------------------------------------------------------------- static patterns

  predicate IsStatic(pattern: string) {
    ':' !in pattern && '*' !in pattern
  }

  lemma {:induction false} StaticSegments(pattern: string)
    requires IsStatic(pattern)
    ensures forall seg :: seg in Segments(pattern) ==> !IsCapture(seg)
    decreases |pattern|
  {
    if pattern != "" {
      if pattern[0] == '/' {
        StaticSegments(pattern[1..]);
      } else {
        var n := Splitting.Cspn(pattern, '/');
        assert pattern[..n][0] in pattern;
        StaticSegments(pattern[n..]);
      }
    }
  }

  lemma {:induction false} PlainMatch(pattern: seq<string>, path: seq<string>)
    requires forall seg :: seg in pattern ==> !IsCapture(seg)
    ensures Match(pattern, path) == if pattern == path then Some([]) else None
  {
    if pattern != [] {
      assert pattern[0] in pattern;
    }
    if pattern != [] && path != [] {
      assert pattern == [pattern[0]] + pattern[1..] && path == [path[0]] + path[1..];
      PlainMatch(pattern[1..], path[1..]);
    }
  }

  // One leading slash, no empty and no trailing segment.
  predicate Canonical(s: string) {
    s == "/" + Join(Segments(s))
  }

  // A static pattern matches exactly the paths with its segments. strcmp agrees on equal strings always,
  // on canonical strings in both directions, and for a canonical pattern exactly on the paths that are
  // canonical or have other segments.
  lemma StaticFastPath(pattern: string, path: string)
    requires IsStatic(pattern)
    ensures MatchPath(pattern, path) == if Segments(pattern) == Segments(path) then Some([]) else None
    ensures pattern == path ==> MatchPath(pattern, path) == Some([])
    ensures Canonical(pattern) && Canonical(path) ==> (pattern == path <==> MatchPath(pattern, path).Some?)
    ensures Canonical(pattern) ==>
              ((pattern == path <==> MatchPath(pattern, path).Some?) <==>
                 Canonical(path) || Segments(pattern) != Segments(path))
  {
    StaticSegments(pattern);
    PlainMatch(Segments(pattern), Segments(path));
  }

  // Where strcmp and the matcher part: any static pattern matches itself with a slash behind it.
  lemma StaticTrailingSlash(pattern: string)
    requires IsStatic(pattern)
    ensures pattern != pattern + "/" && MatchPath(pattern, pattern + "/") == Some([])
  {
    Splitting.ExtraSeparators(pattern, "", '/');
    StaticFastPath(pattern, pattern + "/");
  }

  // Doubled, leading and trailing slashes in the path change neither verdict nor params.
  lemma SlashInsensitive(pattern: string, a: string, b: string)
    ensures MatchPath(pattern, a + "/" + "/" + b) == MatchPath(pattern, a + "/" + b)
    ensures MatchPath(pattern, "/" + a) == MatchPath(pattern, a) == MatchPath(pattern, a + "/")
  {
    Splitting.ExtraSeparators(a, b, '/');
  }

  // ---------------------------------------------------------------- commit_params

  predicate AllFit(n: nat, mem: nat -> bool) {
    forall i :: 0 <= i < n ==> mem(i)
  }

  class Request {
    const path: string
    var params: seq<KeyValue>

    constructor (path: string)
      ensures this.path == path && params == []
    {
      this.path, params := path, [];
    }

    // Stores what the spans stand for; mem(i) is whether capture i finds the memory it needs.
    method CommitParams(pattern: string, spans: array<ParamSpan>, n: nat, mem: nat -> bool, ghost ps: seq<KeyValue>)
      returns (rc: int)
      requires n == |ps| && Written(pattern, path, spans, n, ps) && n <= MAX_PARAMS
      modifies this
      ensures rc == if AllFit(n, mem) then 0 else 1
      ensures params == if AllFit(n, mem) then old(params) + ps else []
    {
      for i := 0 to n
        invariant params == old(params) + ps[..i] && AllFit(i, mem)
      {
        var s := spans[i];
        var value := path[s.valAt..s.valAt + s.valLen];
        var key := "*";
        if s.wildcard {
          var r := CollapseSlashes(value, mem(i));
          if r.None? {
            params := [];
            return 1;
          }
          value := r.value;
        } else {
          key := pattern[s.keyAt..s.keyAt + s.keyLen];
        }
        if !mem(i) {
          params := [];
          return 1;
        }
        params := params + [KeyValue(key, value)];
        assert ps[..i + 1] == ps[..i] + [ps[i]];
      }
      return 0;
    }
  }
}
