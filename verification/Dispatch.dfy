/** Registration, first-match dispatch and the 404/405/Allow decision. */
module Dispatch {
  import opened KeyValues
  import opened Options
  import opened PathSegments
  import opened Router
  import opened MethodMask
  import Splitting

  const MAX_ROUTES := 512
  const ALLOW_BUFFER := 64

  // The methods table, in its own order: OPTIONS before CONNECT.
  const TABLE: seq<Method> := [Get, Post, Put, Delete, Patch, Head, Options, Connect, Trace]

  function Name(m: Method): string {
    match m
    case Get => "GET"
    case Post => "POST"
    case Put => "PUT"
    case Delete => "DELETE"
    case Patch => "PATCH"
    case Head => "HEAD"
    case Options => "OPTIONS"
    case Connect => "CONNECT"
    case Trace => "TRACE"
    case Unknown => "UNKNOWN"
  }

  // parse_method: case-sensitive, anything else is Unknown.
  method ParseMethod(token: string) returns (m: Method)
    ensures token == match m
      case Get => "GET"
      case Post => "POST"
      case Put => "PUT"
      case Delete => "DELETE"
      case Patch => "PATCH"
      case Head => "HEAD"
      case Options => "OPTIONS"
      case Connect => "CONNECT"
      case Trace => "TRACE"
      case Unknown => token
    ensures m == Unknown ==>
              token !in {"GET", "POST", "PUT", "DELETE", "PATCH", "HEAD", "OPTIONS", "CONNECT", "TRACE"}
  {
    for i := 0 to |TABLE|
      invariant forall j :: 0 <= j < i ==> token != Name(TABLE[j])
    {
      if token == Name(TABLE[i]) {
        return TABLE[i];
      }
    }
    TableComplete();
    forall n | n != Unknown ensures token != Name(n) {
      assert n in TABLE;
      var j :| 0 <= j < |TABLE| && TABLE[j] == n;
    }
    assert token != Name(Get) && token != Name(Post) && token != Name(Put) && token != Name(Delete);
    assert token != Name(Patch) && token != Name(Head) && token != Name(Options) && token != Name(Connect);
    assert token != Name(Trace);
    return Unknown;
  }

  lemma TableComplete()
    ensures forall n :: n != Unknown ==> n in TABLE
  {
    assert TABLE[0] == Get && TABLE[1] == Post && TABLE[2] == Put && TABLE[3] == Delete && TABLE[4] == Patch;
    assert TABLE[5] == Head && TABLE[6] == Options && TABLE[7] == Connect && TABLE[8] == Trace;
  }

  // ---------------------------------------------------------------- Allow

  // The names of the methods of the mask among the first k of the table, in its order.
  function Allowed(mask: nat, k: nat): seq<string>
    requires k <= |TABLE|
  {
    if k == 0 then [] else Allowed(mask, k - 1) + if Has(mask, TABLE[k - 1]) then [Name(TABLE[k - 1])] else []
  }

  // The value RFC 9110, section 10.2.1, asks for: the allowed methods in a comma-separated list.
  function AllowList(mask: nat): string {
    Splitting.Join(Allowed(mask, |TABLE|), ", ")
  }

  // A name is on the list exactly when its method is in the mask.
  lemma {:induction false} AllowedHas(mask: nat, k: nat, m: Method)
    requires k <= |TABLE|
    ensures Name(m) in Allowed(mask, k) <==> Has(mask, m) && m in TABLE[..k]
  {
    if k > 0 {
      AllowedHas(mask, k - 1, m);
      assert TABLE[..k] == TABLE[..k - 1] + [TABLE[k - 1]];
      NamesDiffer(m, TABLE[k - 1]);
    }
  }

  lemma NamesDiffer(m: Method, n: Method)
    ensures Name(m) == Name(n) <==> m == n
  {
    assert |Name(m)| == |Name(n)| ==> (Name(m) == Name(n) ==> Name(m)[0] == Name(n)[0] && Name(m)[1] == Name(n)[1]);
  }

  // The room the first k names and their separators can take.
  function TableWidth(k: nat): nat
    requires k <= |TABLE|
  {
    if k == 0 then 0 else TableWidth(k - 1) + 2 + |Name(TABLE[k - 1])|
  }

  lemma TableFits(k: nat)
    requires k <= |TABLE|
    ensures TableWidth(k) <= 62
  {
    assert TableWidth(3) == 16;
    assert TableWidth(5) == 31;
    assert TableWidth(7) == 46;
    assert TableWidth(9) == 62;
    TableGrows(k);
  }

  lemma TableGrows(k: nat)
    requires k <= |TABLE|
    ensures TableWidth(k) <= TableWidth(|TABLE|)
    decreases |TABLE| - k
  {
    if k < |TABLE| { TableGrows(k + 1); }
  }

  // What the buffer holds after k methods.
  function AllowText(mask: nat, k: nat): string
    requires k <= |TABLE|
  {
    Splitting.Join(Allowed(mask, k), ", ")
  }

  lemma {:induction false} AllowWidth(mask: nat, k: nat)
    requires k <= |TABLE|
    ensures |AllowText(mask, k)| <= TableWidth(k) && (AllowText(mask, k) == "" <==> Allowed(mask, k) == [])
  {
    if k > 0 {
      AllowWidth(mask, k - 1);
      AllowStep(mask, k - 1);
    }
  }

  lemma NameNotEmpty(m: Method)
    ensures Name(m) != ""
  {
  }

  lemma AllowFits(mask: nat, k: nat)
    requires k < |TABLE|
    ensures |AllowText(mask, k)| + 2 + |Name(TABLE[k])| <= 62
  {
    hide Name, AllowText;
    AllowWidth(mask, k);
    TableFits(k + 1);
  }

  lemma AllowStep(mask: nat, k: nat)
    requires k < |TABLE|
    ensures AllowText(mask, k + 1)
         == if !Has(mask, TABLE[k]) then AllowText(mask, k)
            else AllowText(mask, k) + (if Allowed(mask, k) != [] then ", " else "") + Name(TABLE[k])
    ensures Name(TABLE[k]) != ""
  {
    hide Name, Has, Splitting.Join;
    NameNotEmpty(TABLE[k]);
    JoinMore(Allowed(mask, k), Name(TABLE[k]));
    assert Allowed(mask, k) + [] == Allowed(mask, k);
  }

  lemma JoinMore(parts: seq<string>, part: string)
    ensures Splitting.Join(parts + [part], ", ")
         == (if parts != [] then Splitting.Join(parts, ", ") + ", " else "") + part
    ensures parts == [] ==> Splitting.Join(parts, ", ") == ""
  {
    assert (parts + [part])[..|parts|] == parts;
  }

  // set_allow_header: whatever the subset, the 64-byte buffer holds the whole list.
  method SetAllowHeader(allowed: nat) returns (value: string)
    ensures value == AllowList(allowed)
  {
    hide Name, AllowText, Has;
    var buf := "";
    AllowNone(allowed);
    for i := 0 to |TABLE|
      invariant buf == AllowText(allowed, i)
    {
      AllowStep(allowed, i);
      AllowFits(allowed, i);
      AllowWidth(allowed, i);
      if !Has(allowed, TABLE[i]) {
        continue;
      }
      // snprintf reports the length it needs and would truncate at the end of the buffer
      var separator := if |buf| > 0 then ", " else "";
      if |separator + Name(TABLE[i])| >= ALLOW_BUFFER - |buf| {
        break;
      }
      buf := buf + separator + Name(TABLE[i]);
    }
    AllowAll(allowed);
    value := buf;
  }

  // The list as it is sent: in the order of the table, not in that of the bits or of the routes.
  lemma AllowWhole(mask: nat)
    requires forall m :: m != Unknown ==> Has(mask, m)
    ensures AllowList(mask) == "GET, POST, PUT, DELETE, PATCH, HEAD, OPTIONS, CONNECT, TRACE"
  {
    hide Has, AllowText, AllowList;
    AllowAll(mask);
    AllowFront(mask);
    AllowMore(mask, 5, "GET, POST, PUT, DELETE, PATCH");
    AllowMore(mask, 6, "GET, POST, PUT, DELETE, PATCH, HEAD");
    AllowMore(mask, 7, "GET, POST, PUT, DELETE, PATCH, HEAD, OPTIONS");
    AllowMore(mask, 8, "GET, POST, PUT, DELETE, PATCH, HEAD, OPTIONS, CONNECT");
  }

  lemma AllowFront(mask: nat)
    requires forall m :: m != Unknown ==> Has(mask, m)
    ensures AllowText(mask, 5) == "GET, POST, PUT, DELETE, PATCH"
  {
    hide Has, AllowText;
    AllowHead(mask);
    AllowMore(mask, 3, "GET, POST, PUT");
    AllowMore(mask, 4, "GET, POST, PUT, DELETE");
  }

  lemma AllowHead(mask: nat)
    requires forall m :: m != Unknown ==> Has(mask, m)
    ensures AllowText(mask, 3) == "GET, POST, PUT"
  {
    hide Has, AllowText;
    AllowPair(mask);
    AllowMore(mask, 2, "GET, POST");
  }

  lemma AllowPair(mask: nat)
    requires forall m :: m != Unknown ==> Has(mask, m)
    ensures AllowText(mask, 2) == "GET, POST"
  {
    hide Has, AllowText;
    AllowNone(mask);
    AllowMore(mask, 0, "");
    AllowMore(mask, 1, "GET");
  }

  lemma AllowMore(mask: nat, k: nat, text: string)
    requires k < |TABLE| && (forall m :: m != Unknown ==> Has(mask, m)) && AllowText(mask, k) == text
    ensures AllowText(mask, k + 1) == text + (if text != "" then ", " else "") + Name(TABLE[k])
  {
    hide Has, Name, AllowText;
    AllowStep(mask, k);
    AllowWidth(mask, k);
  }

  lemma AllowNone(mask: nat)
    ensures AllowText(mask, 0) == ""
  {
  }

  lemma AllowAll(mask: nat)
    ensures AllowText(mask, |TABLE|) == AllowList(mask)
  {
  }

  // ---------------------------------------------------------------- routes

  datatype Route = Route(meth: Method, path: string, handler: nat, isStatic: bool)

  predicate RouteOk(r: Route) {
    r.meth != Unknown && CountCaptures(Segments(r.path)) <= MAX_PARAMS && r.isStatic == IsStatic(r.path)
  }

  // What a route makes of a path: its params, or None.
  function Verdict(r: Route, path: string): Option<seq<KeyValue>> {
    if r.isStatic then (if r.path == path then Some([]) else None) else MatchPath(r.path, path)
  }

  // The first route of the method that matches.
  function FirstMatch(routes: seq<Route>, m: Method, path: string): Option<nat> {
    if routes == [] then None
    else if routes[0].meth == m && Verdict(routes[0], path).Some? then Some(0)
    else
      match FirstMatch(routes[1..], m, path)
      case Some(i) => Some(i + 1)
      case None => None
  }

  lemma {:induction false} FirstMatchMeans(routes: seq<Route>, m: Method, path: string)
    ensures match FirstMatch(routes, m, path)
      case Some(i) =>
        && i < |routes| && routes[i].meth == m && Verdict(routes[i], path).Some?
        && (forall j :: 0 <= j < i ==> routes[j].meth != m || Verdict(routes[j], path).None?)
      case None => forall j :: 0 <= j < |routes| ==> routes[j].meth != m || Verdict(routes[j], path).None?
  {
    if routes != [] {
      FirstMatchMeans(routes[1..], m, path);
      assert forall j :: 0 < j < |routes| ==> routes[j] == routes[1..][j - 1];
    }
  }

  // Two spellings of a path with the same segments go to the same route with the same params,
  // unless a static route of the method is spelled like one of them and not the other.
  lemma {:induction false} SameSegments(routes: seq<Route>, m: Method, p: string, q: string)
    requires Segments(p) == Segments(q)
    requires forall i :: 0 <= i < |routes| && routes[i].meth == m && routes[i].isStatic ==>
               (routes[i].path == p <==> routes[i].path == q)
    ensures FirstMatch(routes, m, p) == FirstMatch(routes, m, q)
    ensures forall i :: 0 <= i < |routes| && routes[i].meth == m ==> Verdict(routes[i], p) == Verdict(routes[i], q)
  {
    hide Segments, Match;
    if routes != [] {
      var rest := routes[1..];
      assert forall i :: 0 < i < |routes| ==> routes[i] == rest[i - 1];
      SameSegments(rest, m, p, q);
    }
  }

  // Another method of the path has a route.
  ghost predicate OtherMatches(routes: seq<Route>, n: Method, m: Method, path: string) {
    n != m && exists j :: 0 <= j < |routes| && routes[j].meth == n && Verdict(routes[j], path).Some?
  }

  datatype Outcome =
    | Handled(route: nat, params: seq<KeyValue>)
    | OutOfMemory
    | NotAllowed(mask: nat, allow: string)
    | NotFound

  // The outcome by the first matching route; mem tells which captures find memory.
  ghost predicate Selected(routes: seq<Route>, m: Method, path: string, mem: nat -> bool, o: Outcome) {
    match o
    case Handled(i, ps) =>
      && m != Unknown && FirstMatch(routes, m, path) == Some(i) && i < |routes|
      && Verdict(routes[i], path) == Some(ps) && AllFit(|ps|, mem)
    case OutOfMemory =>
      && m != Unknown && FirstMatch(routes, m, path).Some?
      && var i := FirstMatch(routes, m, path).value;
         i < |routes| && Verdict(routes[i], path).Some? && !AllFit(|Verdict(routes[i], path).value|, mem)
    case NotAllowed(mask, allow) =>
      && (m == Unknown || FirstMatch(routes, m, path).None?)
      && (m == Unknown || exists n :: OtherMatches(routes, n, m, path))
      && (forall n :: Has(mask, n) <==> OtherMatches(routes, n, m, path))
      && allow == AllowList(mask)
    case NotFound =>
      m != Unknown && FirstMatch(routes, m, path).None? && forall n :: !OtherMatches(routes, n, m, path)
  }

  // A route without ':' and '*' is for the path that is spelled like it, any other for what its segments match.
  predicate Serves(r: Route, path: string) {
    if ':' !in r.path && '*' !in r.path then r.path == path else MatchPath(r.path, path).Some?
  }

  // Route i serves the path, and no earlier one of the method does.
  ghost predicate ServesFirst(routes: seq<Route>, m: Method, path: string, i: nat) {
    && i < |routes| && routes[i].meth == m && Serves(routes[i], path)
    && forall j :: 0 <= j < i && routes[j].meth == m ==> !Serves(routes[j], path)
  }

  // A capture of the route finds no memory.
  predicate Starves(r: Route, path: string, mem: nat -> bool) {
    MatchPath(r.path, path).Some? && exists k :: 0 <= k < |MatchPath(r.path, path).value| && !mem(k)
  }

  // What dispatch owes its caller.
  ghost predicate Dispatched(routes: seq<Route>, m: Method, path: string, mem: nat -> bool, o: Outcome) {
    match o
    case Handled(i, ps) =>
      && m != Unknown && ServesFirst(routes, m, path, i)
      && (if ':' !in routes[i].path && '*' !in routes[i].path then routes[i].path == path && ps == []
          else MatchPath(routes[i].path, path) == Some(ps))
      && forall k :: 0 <= k < |ps| ==> mem(k)
    case OutOfMemory =>
      m != Unknown && exists i: nat :: ServesFirst(routes, m, path, i) && Starves(routes[i], path, mem)
    case NotAllowed(mask, allow) =>
      && (m != Unknown ==> forall j :: 0 <= j < |routes| && routes[j].meth == m ==> !Serves(routes[j], path))
      && (m != Unknown ==> exists j :: 0 <= j < |routes| && Serves(routes[j], path))
      && (forall n :: Has(mask, n) <==>
            n != m && exists j :: 0 <= j < |routes| && routes[j].meth == n && Serves(routes[j], path))
      && allow == AllowList(mask)
    case NotFound =>
      m != Unknown && forall j :: 0 <= j < |routes| ==> !Serves(routes[j], path)
  }

  // Going by the first match and the static flags is what dispatch owes.
  lemma SelectedMeans(routes: seq<Route>, m: Method, path: string, mem: nat -> bool, o: Outcome)
    requires (forall i :: 0 <= i < |routes| ==> RouteOk(routes[i])) && Selected(routes, m, path, mem, o)
    ensures Dispatched(routes, m, path, mem, o)
  {
    hide FirstMatch, MatchPath, Has, AllowList;
    FirstMatchMeans(routes, m, path);
    forall i | 0 <= i < |routes| ensures Serves(routes[i], path) <==> Verdict(routes[i], path).Some? {
      assert RouteOk(routes[i]);
    }
    match o {
      case Handled(i, ps) =>
      case OutOfMemory =>
        var i := FirstMatch(routes, m, path).value;
        assert ServesFirst(routes, m, path, i) && RouteOk(routes[i]);
      case NotAllowed(_, _) =>
      case NotFound =>
        forall j | 0 <= j < |routes| ensures !Serves(routes[j], path) {
          assert !OtherMatches(routes, routes[j].meth, m, path);
        }
    }
  }

  // A request that is spelled like a route without ':' and '*', and that no earlier route serves, is handled by
  // that route, whatever memory there is.
  lemma StaticHandled(routes: seq<Route>, m: Method, path: string, mem: nat -> bool, o: Outcome, i: nat)
    requires Dispatched(routes, m, path, mem, o) && m != Unknown
    requires i < |routes| && routes[i].meth == m && routes[i].path == path && ':' !in path && '*' !in path
    requires forall j :: 0 <= j < i && routes[j].meth == m ==>
               routes[j].path != path && (':' in routes[j].path || '*' in routes[j].path ==>
                                            MatchPath(routes[j].path, path).None?)
    ensures o == Handled(i, [])
  {
    hide MatchPath;
    assert ServesFirst(routes, m, path, i);
    StaticFastPath(path, path);
  }

  class Server {
    var routes: seq<Route>

    ghost predicate Valid()
      reads this
    {
      |routes| <= MAX_ROUTES && forall i :: 0 <= i < |routes| ==> RouteOk(routes[i])
    }

    constructor ()
      ensures Valid() && routes == []
    {
      routes := [];
    }

    // papago_route; the copy of the path may fail to be allocated
    method AddRoute(m: Method, path: string, handler: nat, mallocOk: bool) returns (rc: int)
      requires Valid()
      modifies this
      ensures Valid()
      ensures rc == (if m == Unknown || |old(routes)| >= 512 || !mallocOk
                        || CountCaptures(Segments(path)) > 16 then 1 else 0)
      ensures routes == old(routes) +
        if rc == 0 then [Route(m, path, handler, forall k :: 0 <= k < |path| ==> path[k] != ':' && path[k] != '*')]
        else []
    {
      if m == Unknown || |routes| >= MAX_ROUTES {
        return 1;
      }
      var n := CountRouteParams(path);
      if n > MAX_PARAMS || !mallocOk {
        return 1;
      }
      routes := routes + [Route(m, path, handler, ':' !in path && '*' !in path)];
      return 0;
    }

    // route_matches
    method RouteMatches(r: Route, path: string, spans: array?<ParamSpan>) returns (ok: bool, count: nat)
      requires spans != null ==> spans.Length == MAX_PARAMS
      modifies spans
      ensures ok <==> Verdict(r, path).Some?
      ensures ok ==> Written(r.path, path, spans, count, Verdict(r, path).value)
      ensures ok <==> if r.isStatic then r.path == path else MatchPath(r.path, path).Some?
      ensures ok ==> Written(r.path, path, spans, count, if r.isStatic then [] else MatchPath(r.path, path).value)
    {
      if r.isStatic {
        ok, count := r.path == path, 0;
      } else {
        ok, count := MatchRoute(r.path, path, spans);
      }
    }

    // The route that matched first gets its params, if there is memory for them.
    method RunRoute(i: nat, req: Request, spans: array<ParamSpan>, count: nat, mem: nat -> bool, ghost m: Method)
      returns (o: Outcome)
      requires Valid() && req.params == [] && m != Unknown && FirstMatch(routes, m, req.path) == Some(i)
      requires i < |routes| && Verdict(routes[i], req.path).Some?
      requires Written(routes[i].path, req.path, spans, count, Verdict(routes[i], req.path).value)
      modifies req
      ensures Selected(routes, m, req.path, mem, o)
      ensures req.params == if o.Handled? then o.params else []
    {
      hide FirstMatch, Verdict, MatchPath;
      ghost var ps := Verdict(routes[i], req.path).value;
      CapturesFit(routes[i], req.path);
      var rc := req.CommitParams(routes[i].path, spans, count, mem, ps);
      if rc != 0 {
        return OutOfMemory;
      }
      assert [] + ps == ps;
      o := Handled(i, req.params);
    }

    // The dispatch part of mhd_handler; the handler itself is user code.
    method Dispatch(m: Method, req: Request, mem: nat -> bool) returns (o: Outcome)
      requires Valid() && req.params == []
      modifies req
      ensures Selected(routes, m, req.path, mem, o) && Dispatched(routes, m, req.path, mem, o)
      ensures req.params == if o.Handled? then o.params else []
    {
      hide FirstMatch, Verdict, MatchPath, Written, Selected, Dispatched;
      FirstMatchMeans(routes, m, req.path);
      if m != Unknown {
        var spans := new ParamSpan[MAX_PARAMS](_ => ParamSpan(0, 0, 0, 0, false));
        for i := 0 to |routes|
          invariant req.params == [] && fresh(spans)
          invariant forall j :: 0 <= j < i ==> routes[j].meth != m || Verdict(routes[j], req.path).None?
        {
          if routes[i].meth != m {
            continue;
          }
          var ok, count := RouteMatches(routes[i], req.path, spans);
          if !ok {
            continue;
          }
          o := RunRoute(i, req, spans, count, mem, m);
          SelectedMeans(routes, m, req.path, mem, o);
          return;
        }
      }
      o := Refuse(m, req.path, mem);
      SelectedMeans(routes, m, req.path, mem, o);
    }

    // No route will run: 405 when the path exists under other methods or the method is unknown, else 404.
    method Refuse(m: Method, path: string, ghost mem: nat -> bool) returns (o: Outcome)
      requires Valid()
      requires m == Unknown || FirstMatch(routes, m, path).None?
      ensures Selected(routes, m, path, mem, o) && (o.NotAllowed? || o.NotFound?)
    {
      hide Add, Has, Verdict, FirstMatch, Collects;
      var allowed: nat := 0;
      CollectsNone(m, path);
      for i := 0 to |routes|
        invariant Collects(allowed, routes[..i], m, path)
      {
        var route := routes[i];
        var ok, count := false, 0;
        if route.meth != m {
          ok, count := RouteMatches(route, path, null);
        }
        CollectsStep(allowed, routes, i, m, path);
        if ok {
          allowed := Add(allowed, route.meth);
        }
      }
      assert routes[..|routes|] == routes;
      CollectsEnd(allowed, routes, m, path);
      if allowed != 0 || m == Unknown {
        var allow := SetAllowHeader(allowed);
        o := NotAllowed(allowed, allow);
      } else {
        o := NotFound;
      }
    }
  }

  // The mask holds exactly the other methods with a matching route.
  ghost predicate Collects(mask: nat, routes: seq<Route>, m: Method, path: string) {
    && (forall n :: Has(mask, n) <==> OtherMatches(routes, n, m, path))
    && (mask != 0 ==> exists n :: Has(mask, n))
  }

  lemma CollectsNone(m: Method, path: string)
    ensures Collects(0, [], m, path)
  {
    forall n ensures !Has(0, n) { NoBits(Index(n)); }
  }

  lemma CollectsStep(mask: nat, routes: seq<Route>, i: nat, m: Method, path: string)
    requires i < |routes| && Collects(mask, routes[..i], m, path)
    ensures Collects(if routes[i].meth != m && Verdict(routes[i], path).Some? then Add(mask, routes[i].meth) else mask,
                     routes[..i + 1], m, path)
  {
    hide Add, Verdict, Has, OtherMatches;
    var r := routes[i];
    var add := r.meth != m && Verdict(r, path).Some?;
    var mask' := if add then Add(mask, r.meth) else mask;
    forall n ensures Has(mask', n) <==> OtherMatches(routes[..i + 1], n, m, path) {
      AddHas(mask, r.meth, n);
      OtherMatchesStep(routes, i, n, m, path);
    }
    AddHas(mask, r.meth, r.meth);
  }

  lemma CollectsEnd(mask: nat, routes: seq<Route>, m: Method, path: string)
    requires Collects(mask, routes, m, path)
    ensures mask != 0 <==> exists n :: OtherMatches(routes, n, m, path)
    ensures forall n :: Has(mask, n) <==> OtherMatches(routes, n, m, path)
  {
    hide OtherMatches;
  }

  lemma CapturesFit(r: Route, path: string)
    requires RouteOk(r) && Verdict(r, path).Some?
    ensures |Verdict(r, path).value| <= MAX_PARAMS
  {
    if !r.isStatic { CapturesCounted(Segments(r.path), Segments(path)); }
  }

  lemma OtherMatchesStep(routes: seq<Route>, i: nat, n: Method, m: Method, path: string)
    requires i < |routes|
    ensures OtherMatches(routes[..i + 1], n, m, path) <==>
              OtherMatches(routes[..i], n, m, path)
              || (n != m && routes[i].meth == n && Verdict(routes[i], path).Some?)
  {
    var before, after := routes[..i], routes[..i + 1];
    assert after == before + [routes[i]];
    if OtherMatches(before, n, m, path) {
      var j :| 0 <= j < |before| && before[j].meth == n && Verdict(before[j], path).Some?;
      assert after[j] == before[j];
    }
    assert after[i] == routes[i];
  }
}
