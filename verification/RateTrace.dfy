/** The rate limiter over whole request traces: what it admits, whom it never refuses, and where the
    32-bit counter ends the guarantee. */
module RateTrace {
  import opened Options
  import opened RateLimit

  datatype Request = Request(ip: string, now: int)

  // The configuration: rate_limit_requests and rate_limit_window are uint16_t.
  type Uint16 = x: nat | x < 0x1_0000

  datatype Config = Config(limit: Uint16, width: Uint16)

  function Last(reqs: seq<Request>): Request
    requires reqs != []
  {
    reqs[|reqs| - 1]
  }

  function Front(reqs: seq<Request>): seq<Request>
    requires reqs != []
  {
    reqs[..|reqs| - 1]
  }

  predicate Monotone(reqs: seq<Request>) {
    forall i, j :: 0 <= i < j < |reqs| ==> reqs[i].now <= reqs[j].now
  }

  // The map after a trace, and the table the last request of a trace finds.
  function Table(reqs: seq<Request>, k: Config): map<string, Window>
    decreases |reqs|, 1
  {
    if reqs == [] then map[] else Serve(Found(reqs, k), Last(reqs).ip, Last(reqs).now, k.limit).table
  }

  function Found(reqs: seq<Request>, k: Config): map<string, Window>
    requires reqs != []
    decreases |reqs|, 0
  {
    Unexpired(Table(Front(reqs), k), Last(reqs).now, k.width)
  }

  // The verdict on the last request of a trace.
  predicate Refused(reqs: seq<Request>, k: Config)
    requires reqs != []
  {
    Serve(Found(reqs, k), Last(reqs).ip, Last(reqs).now, k.limit).refused
  }

  // A run of the table: each state follows from the one before by a call of papago_check_rate_limit.
  ghost predicate IsRun(tables: seq<seq<Entry>>, reqs: seq<Request>, refused: seq<bool>, k: Config) {
    && |tables| == |reqs| + 1 == |refused| + 1
    && |tables[0]| == 1024 && (forall i :: 0 <= i < |tables[0]| ==> tables[0][i].ip == "")
    && forall i :: 0 <= i < |reqs| ==>
         CheckStep(tables[i], tables[i + 1], reqs[i].ip, reqs[i].now, k.width, k.limit, refused[i])
  }

  // Over every run with a clock that does not go back, array and map agree, call by call.
  lemma {:induction false} TableRefinesMap(tables: seq<seq<Entry>>, reqs: seq<Request>, refused: seq<bool>, k: Config,
                                            i: nat)
    requires IsRun(tables, reqs, refused, k) && Monotone(reqs) && i < |reqs|
    ensures refused[i] == Refused(reqs[..i + 1], k)
    ensures Unique(tables[i + 1])
    ensures LiveMap(tables[i + 1], reqs[i].now, k.width) == Unexpired(Table(reqs[..i + 1], k), reqs[i].now, k.width)
  {
    var upto := reqs[..i + 1];
    assert Front(upto) == reqs[..i] && Last(upto) == reqs[i];
    if i == 0 {
      EmptyTable(tables[0], reqs[0].now, k.width);
    } else {
      TableRefinesMap(tables, reqs, refused, k, i - 1);
      assert reqs[..i - 1 + 1] == reqs[..i];
      LiveMapLater(tables[i], reqs[i - 1].now, reqs[i].now, k.width);
    }
    assert LiveMap(tables[i], reqs[i].now, k.width) == Found(upto, k);
    assert CheckStep(tables[i], tables[i + 1], reqs[i].ip, reqs[i].now, k.width, k.limit, refused[i]);
  }

  // ---------------------------------------------------------------- one client

  // The client's current window: how many of its requests it has seen, and when it began.
  datatype Life = Life(n: nat, start: int)

  function NextLife(c: Option<Life>, now: int, k: Config): Life {
    if c.Some? && !Expired(c.value.start, now, k.width) then Life(c.value.n + 1, c.value.start) else Life(1, now)
  }

  function Client(reqs: seq<Request>, ip: string, k: Config): Option<Life> {
    if reqs == [] then None
    else
      var before := Client(Front(reqs), ip, k);
      if Last(reqs).ip != ip then before else Some(NextLife(before, Last(reqs).now, k))
  }

  // No request of the client meets a table full of other clients.
  predicate Tracked(reqs: seq<Request>, ip: string, k: Config) {
    reqs == [] ||
    (Tracked(Front(reqs), ip, k)
     && (Last(reqs).ip == ip ==> ip in Found(reqs, k) || |Found(reqs, k)| < 1024))
  }

  // No window of the client sees 2^32 requests.
  predicate NoWrap(reqs: seq<Request>, ip: string, k: Config) {
    reqs == [] || (NoWrap(Front(reqs), ip, k) && (Client(reqs, ip, k).Some? ==> Client(reqs, ip, k).value.n < UINT32))
  }

  // The map lists the client exactly while its window lasts, with the true count modulo 2^32.
  predicate EntryOk(m: map<string, Window>, c: Option<Life>, ip: string, now: int, k: Config) {
    && (ip in m <==> c.Some? && !Expired(c.value.start, now, k.width))
    && (ip in m ==> m[ip] == Window(c.value.n % UINT32, c.value.start))
  }

  lemma EntryServed(m: map<string, Window>, c: Option<Life>, r: Request, ip: string, k: Config)
    requires EntryOk(m, c, ip, r.now, k) && (r.ip == ip ==> ip in m || |m| < 1024)
    ensures var c' := if r.ip == ip then Some(NextLife(c, r.now, k)) else c;
      forall now :: now >= r.now ==>
        EntryOk(Unexpired(Serve(m, r.ip, r.now, k.limit).table, now, k.width), c', ip, now, k)
  {
  }

  // The map's entry for a client depends on the client's own requests only.
  lemma {:induction false} ClientEntry(reqs: seq<Request>, ip: string, k: Config, now: int)
    requires Monotone(reqs) && Tracked(reqs, ip, k) && (reqs != [] ==> Last(reqs).now <= now)
    ensures EntryOk(Unexpired(Table(reqs, k), now, k.width), Client(reqs, ip, k), ip, now, k)
  {
    if reqs != [] {
      hide EntryOk, Unexpired, Serve, NextLife;
      ClientEntry(Front(reqs), ip, k, Last(reqs).now);
      EntryServed(Found(reqs, k), Client(Front(reqs), ip, k), Last(reqs), ip, k);
    }
  }

  lemma EntryVerdict(m: map<string, Window>, c: Option<Life>, ip: string, now: int, k: Config)
    requires EntryOk(m, c, ip, now, k) && (c.Some? ==> c.value.n >= 1)
    ensures var n := NextLife(c, now, k).n;
      Serve(m, ip, now, k.limit).refused <==> n > 1 && n % UINT32 > k.limit
  {
    if ip in m { WrappedNext(c.value.n); }
  }

  lemma WrappedNext(n: nat)
    ensures (n % UINT32 + 1) % UINT32 == (n + 1) % UINT32
  {
  }

  // The verdict on a request of the client: the first of a window is never refused.
  lemma ClientVerdict(reqs: seq<Request>, ip: string, k: Config)
    requires Monotone(reqs) && Tracked(reqs, ip, k) && reqs != [] && Last(reqs).ip == ip
    ensures var c := Client(reqs, ip, k).value;
      Refused(reqs, k) <==> c.n > 1 && c.n % UINT32 > k.limit
  {
    hide EntryOk, Unexpired, Serve, NextLife;
    ClientEntry(Front(reqs), ip, k, Last(reqs).now);
    ClientCounts(Front(reqs), ip, k);
    EntryVerdict(Found(reqs, k), Client(Front(reqs), ip, k), ip, Last(reqs).now, k);
  }

  lemma {:induction false} ClientCounts(reqs: seq<Request>, ip: string, k: Config)
    requires Monotone(reqs)
    ensures Client(reqs, ip, k).Some? ==>
              reqs != [] && Client(reqs, ip, k).value.n >= 1 && Client(reqs, ip, k).value.start <= Last(reqs).now
  {
    if reqs != [] {
      ClientCounts(Front(reqs), ip, k);
    }
  }

  // ---------------------------------------------------------------- the bounds

  // What one window may admit: a limit of 0 still lets the first request through.
  function Allowance(k: Config): nat {
    if k.limit == 0 then 1 else k.limit
  }

  // The client's requests admitted in its current window.
  function AdmittedInWindow(reqs: seq<Request>, ip: string, k: Config): nat {
    if reqs == [] then 0
    else if Last(reqs).ip != ip then AdmittedInWindow(Front(reqs), ip, k)
    else
      (if Client(reqs, ip, k).value.n == 1 then 0 else AdmittedInWindow(Front(reqs), ip, k))
      + (if Refused(reqs, k) then 0 else 1)
  }

  predicate Within(now: int, from: int, k: Config) {
    from <= now < from + k.width
  }

  // The client's requests, and its admitted ones, in the interval of one width that begins at `from`.
  function RequestsIn(reqs: seq<Request>, ip: string, k: Config, from: int): nat {
    if reqs == [] then 0
    else RequestsIn(Front(reqs), ip, k, from) + if Last(reqs).ip == ip && Within(Last(reqs).now, from, k) then 1 else 0
  }

  function AdmittedIn(reqs: seq<Request>, ip: string, k: Config, from: int): nat {
    if reqs == [] then 0
    else
      AdmittedIn(Front(reqs), ip, k, from)
      + if Last(reqs).ip == ip && Within(Last(reqs).now, from, k) && !Refused(reqs, k) then 1 else 0
  }

  lemma {:induction false} WindowAdmits(reqs: seq<Request>, ip: string, k: Config)
    requires Monotone(reqs) && Tracked(reqs, ip, k) && Client(reqs, ip, k).Some?
    ensures var n := Client(reqs, ip, k).value.n;
      if n < UINT32 then AdmittedInWindow(reqs, ip, k) == if n < Allowance(k) then n else Allowance(k)
      else AdmittedInWindow(reqs, ip, k) > Allowance(k)
  {
    if Last(reqs).ip != ip {
      WindowAdmits(Front(reqs), ip, k);
    } else {
      ClientVerdict(reqs, ip, k);
      if Client(reqs, ip, k).value.n > 1 {
        WindowAdmits(Front(reqs), ip, k);
      }
    }
  }

  // A window admits its first `limit` requests of a client and no more, exactly as long as it has seen fewer
  // than 2^32 of them: then the counter starts over.
  lemma WindowBound(reqs: seq<Request>, ip: string, k: Config)
    requires Monotone(reqs) && Tracked(reqs, ip, k) && Client(reqs, ip, k).Some?
    ensures AdmittedInWindow(reqs, ip, k) <= Allowance(k) <==> Client(reqs, ip, k).value.n < 0x1_0000_0000
    ensures var n, most := Client(reqs, ip, k).value.n, if k.limit == 0 then 1 else k.limit;
      n < 0x1_0000_0000 ==> AdmittedInWindow(reqs, ip, k) == if n < most then n else most
  {
    WindowAdmits(reqs, ip, k);
  }

  predicate IsBurst(reqs: seq<Request>, ip: string) {
    forall i :: 0 <= i < |reqs| ==> reqs[i] == Request(ip, 0)
  }

  lemma {:induction false} BurstTracked(reqs: seq<Request>, ip: string, k: Config)
    requires IsBurst(reqs, ip)
    ensures Monotone(reqs) && Tracked(reqs, ip, k) && Table(reqs, k).Keys <= {ip}
  {
    if reqs != [] {
      BurstTracked(Front(reqs), ip, k);
      assert Found(reqs, k).Keys <= {ip};
      if ip !in Found(reqs, k) {
        assert Found(reqs, k).Keys == {};
        assert |Found(reqs, k)| == |Found(reqs, k).Keys|;
      }
    }
  }

  lemma {:induction false} BurstClient(reqs: seq<Request>, ip: string, k: Config)
    requires IsBurst(reqs, ip) && reqs != [] && k.width >= 1
    ensures Client(reqs, ip, k) == Some(Life(|reqs|, 0))
  {
    assert Last(reqs) == Request(ip, 0);
    if |reqs| > 1 {
      BurstClient(Front(reqs), ip, k);
    }
  }

  // The input that breaks the limit: 2^32 requests of one client within one second.
  lemma BurstBreaksLimit(reqs: seq<Request>, ip: string, k: Config)
    requires IsBurst(reqs, ip) && |reqs| == 0x1_0000_0000 && k.width >= 1
    ensures Monotone(reqs) && Tracked(reqs, ip, k) && AdmittedInWindow(reqs, ip, k) > Allowance(k)
  {
    BurstTracked(reqs, ip, k);
    BurstClient(reqs, ip, k);
    WindowAdmits(reqs, ip, k);
  }

  lemma {:induction false} NothingYet(reqs: seq<Request>, ip: string, k: Config, from: int)
    requires Monotone(reqs) && (reqs != [] ==> Last(reqs).now < from)
    ensures AdmittedIn(reqs, ip, k, from) == 0
  {
    if reqs != [] {
      NothingYet(Front(reqs), ip, k, from);
    }
  }

  // What the interval has admitted, by where the current window begins.
  lemma {:induction false} IntervalAdmits(reqs: seq<Request>, ip: string, k: Config, from: int)
    requires Monotone(reqs) && Tracked(reqs, ip, k) && NoWrap(reqs, ip, k)
    ensures var c, a := Client(reqs, ip, k), AdmittedIn(reqs, ip, k, from);
      if c.None? then a == 0
      else if c.value.start < from then a < AdmittedInWindow(reqs, ip, k)
      else if Within(c.value.start, from, k) then a < Allowance(k) + AdmittedInWindow(reqs, ip, k)
      else a < 2 * Allowance(k)
  {
    if reqs != [] {
      var front := Front(reqs);
      IntervalAdmits(front, ip, k, from);
      if Last(reqs).ip == ip {
        ClientCounts(front, ip, k);
        ClientVerdict(reqs, ip, k);
        if Client(front, ip, k).Some? { WindowAdmits(front, ip, k); }
        if Last(reqs).now < from { NothingYet(reqs, ip, k, from); }
      }
    }
  }

  // Over any trace, at most 2 * limit - 1 requests of a client are admitted in any half-open
  // interval of one window width.
  lemma IntervalBound(reqs: seq<Request>, ip: string, k: Config, from: int)
    requires Monotone(reqs) && Tracked(reqs, ip, k) && NoWrap(reqs, ip, k)
    ensures AdmittedIn(reqs, ip, k, from) <= 2 * Allowance(k) - 1
  {
    IntervalAdmits(reqs, ip, k, from);
    if Client(reqs, ip, k).Some? { WindowAdmits(reqs, ip, k); }
  }

  // The counter in the table never exceeds the client's requests since the window began.
  lemma {:induction false} CounterBound(reqs: seq<Request>, ip: string, k: Config)
    requires Monotone(reqs) && ip in Table(reqs, k)
    ensures Table(reqs, k)[ip].start <= Last(reqs).now
    ensures k.width >= 1 ==> Table(reqs, k)[ip].count <= RequestsIn(reqs, ip, k, Table(reqs, k)[ip].start)
  {
    if ip in Table(Front(reqs), k) {
      CounterBound(Front(reqs), ip, k);
    }
  }

  // A client that stays within the limit in every interval is never refused, even when other
  // clients fill the table.
  lemma CompliantNeverRefused(reqs: seq<Request>, ip: string, k: Config)
    requires Monotone(reqs) && reqs != [] && Last(reqs).ip == ip
    requires forall from :: RequestsIn(reqs, ip, k, from) <= k.limit
    ensures !Refused(reqs, k)
  {
    if ip in Found(reqs, k) {
      CounterBound(Front(reqs), ip, k);
      var start := Found(reqs, k)[ip].start;
      assert RequestsIn(reqs, ip, k, start) == RequestsIn(Front(reqs), ip, k, start) + 1;
    }
  }
}
