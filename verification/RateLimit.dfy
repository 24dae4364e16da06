/** The fixed-window rate limiter: a table of 1024 slots, scanned, lazily expired and reused,
    against the map from client address to window that it stands for. */
module RateLimit {
  const MAX_ENTRIES := 1024
  const UINT32 := 0x1_0000_0000

  // An empty address marks a free slot.
  datatype Entry = Entry(ip: string, count: nat, start: int)

  datatype Window = Window(count: nat, start: int)

  predicate Expired(start: int, now: int, width: nat) {
    now - start >= width
  }

  predicate Live(e: Entry, now: int, width: nat) {
    e.ip != "" && !Expired(e.start, now, width)
  }

  // No two slots with the same non-empty address.
  predicate Unique(es: seq<Entry>) {
    forall i, j :: 0 <= i < j < |es| && es[i].ip != "" ==> es[i].ip != es[j].ip
  }

  // The unexpired entries as a map.
  function LiveMap(es: seq<Entry>, now: int, width: nat): map<string, Window> {
    if es == [] then map[]
    else
      var m, e := LiveMap(es[..|es| - 1], now, width), es[|es| - 1];
      if Live(e, now, width) then m[e.ip := Window(e.count, e.start)] else m
  }

  function Unexpired(m: map<string, Window>, now: int, width: nat): map<string, Window> {
    map ip | ip in m && !Expired(m[ip].start, now, width) :: m[ip]
  }

  datatype Verdict = Verdict(table: map<string, Window>, refused: bool)

  // One request on the map. The counter is a uint32_t.
  function Serve(m: map<string, Window>, ip: string, now: int, limit: nat): Verdict {
    if ip in m then
      var count := (m[ip].count + 1) % UINT32;
      Verdict(m[ip := Window(count, m[ip].start)], count > limit)
    else if |m| < MAX_ENTRIES then Verdict(m[ip := Window(1, now)], false)
    else Verdict(m, false)
  }

  // What one call does to the table, told through the map.
  ghost predicate CheckStep(es: seq<Entry>, es': seq<Entry>, ip: string, now: int, width: nat, limit: nat,
                            refused: bool)
  {
    var v := Serve(LiveMap(es, now, width), ip, now, limit);
    && |es'| == |es| && Unique(es')
    && LiveMap(es', now, width) == Unexpired(v.table, now, width)
    && refused == v.refused
  }

  class Limiter {
    const entries: array<Entry>
    const limit: nat               // rate_limit_requests
    const width: nat               // rate_limit_window

    ghost predicate Valid()
      reads entries
    {
      entries.Length == MAX_ENTRIES && Unique(entries[..])
    }

    constructor (limit: nat, width: nat)
      ensures Valid() && this.limit == limit && this.width == width && fresh(entries) && entries.Length == 1024
      ensures forall i :: 0 <= i < entries.Length ==> entries[i].ip == ""
    {
      this.limit, this.width := limit, width;
      entries := new Entry[MAX_ENTRIES](_ => Entry("", 0, 0));
    }

    // papago_check_rate_limit once the client address is known
    method Check(ip: string, now: int) returns (refused: bool)
      requires Valid()
      modifies entries
      ensures Valid()
      ensures ip == "" ==> !refused && entries[..] == old(entries[..])
      ensures ip != "" ==> CheckStep(old(entries[..]), entries[..], ip, now, width, limit, refused)
    {
      if ip == "" {
        return false;
      }
      ghost var was := entries[..];
      var slot := -1;
      for i := 0 to MAX_ENTRIES
        invariant Swept(was, entries[..], i, now, width)
        invariant forall j :: 0 <= j < i ==> !(Live(was[j], now, width) && was[j].ip == ip)
        invariant slot == -1 ==> forall j :: 0 <= j < i ==> Live(was[j], now, width)
        invariant slot != -1 ==> 0 <= slot < i && !Live(was[slot], now, width)
      {
        var e := entries[i];
        if e.ip == "" {
          if slot == -1 {
            slot := i;
          }
        } else if now - e.start >= width {
          entries[i] := Entry("", 0, e.start);
          if slot == -1 {
            slot := i;
          }
        } else if e.ip == ip {
          var count := (e.count + 1) % UINT32;
          entries[i] := Entry(e.ip, count, e.start);
          SweptFound(was, entries[..], i, ip, now, width, limit);
          return count > limit;
        }
      }
      if slot != -1 {
        entries[slot] := Entry(ip, 1, now);
        SweptFresh(was, entries[..], slot, ip, now, width, limit);
      } else {
        SweptFull(was, ip, now, width, limit);
        assert entries[..] == was;
      }
      return false;
    }
  }

  function Sweep(e: Entry, now: int, width: nat): Entry {
    if e.ip != "" && Expired(e.start, now, width) then Entry("", 0, e.start) else e
  }

  // The slots before i have been swept, the others are as they were.
  ghost predicate Swept(was: seq<Entry>, es: seq<Entry>, i: int, now: int, width: nat) {
    && |es| == |was| && 0 <= i <= |es|
    && (forall j :: 0 <= j < i ==> es[j] == Sweep(was[j], now, width))
    && (forall j :: i <= j < |es| ==> es[j] == was[j])
  }

  // The map lists exactly the live entries.
  ghost predicate Represents(es: seq<Entry>, now: int, width: nat, m: map<string, Window>) {
    && (forall i :: 0 <= i < |es| && Live(es[i], now, width) ==>
          es[i].ip in m && m[es[i].ip] == Window(es[i].count, es[i].start))
    && (forall ip :: ip in m ==> exists i :: 0 <= i < |es| && Live(es[i], now, width) && es[i].ip == ip)
  }

  lemma {:induction false} LiveMapRepresents(es: seq<Entry>, now: int, width: nat)
    requires Unique(es)
    ensures Represents(es, now, width, LiveMap(es, now, width))
  {
    if es != [] {
      hide Represents, Live;
      var init, last := es[..|es| - 1], es[|es| - 1];
      LiveMapRepresents(init, now, width);
      assert es == init + [last];
      RepresentsPush(init, last, now, width, LiveMap(init, now, width));
    }
  }

  lemma RepresentsPush(es: seq<Entry>, e: Entry, now: int, width: nat, m: map<string, Window>)
    requires Unique(es + [e]) && Represents(es, now, width, m)
    ensures Represents(es + [e], now, width, if Live(e, now, width) then m[e.ip := Window(e.count, e.start)] else m)
  {
    var all := es + [e];
    assert all[|es|] == e && forall i :: 0 <= i < |es| ==> all[i] == es[i];
    forall ip | ip in m ensures exists i :: 0 <= i < |all| && Live(all[i], now, width) && all[i].ip == ip {
      var i :| 0 <= i < |es| && Live(es[i], now, width) && es[i].ip == ip;
      assert Live(all[i], now, width) && all[i].ip == ip;
    }
  }

  lemma RepresentsUnique(es: seq<Entry>, now: int, width: nat, m: map<string, Window>)
    requires Unique(es) && Represents(es, now, width, m)
    ensures LiveMap(es, now, width) == m
  {
    LiveMapRepresents(es, now, width);
  }

  lemma {:induction false} LiveMapSize(es: seq<Entry>, now: int, width: nat)
    requires Unique(es)
    ensures |LiveMap(es, now, width)| <= |es|
    ensures |LiveMap(es, now, width)| == |es| <==> forall i :: 0 <= i < |es| ==> Live(es[i], now, width)
  {
    if es != [] {
      var init, last := es[..|es| - 1], es[|es| - 1];
      LiveMapSize(init, now, width);
      LiveMapRepresents(init, now, width);
      assert Live(last, now, width) ==> last.ip !in LiveMap(init, now, width);
      assert forall i :: 0 <= i < |init| ==> init[i] == es[i];
    }
  }

  lemma EmptyTable(es: seq<Entry>, now: int, width: nat)
    requires forall i :: 0 <= i < |es| ==> es[i].ip == ""
    ensures Unique(es) && LiveMap(es, now, width) == map[]
  {
    RepresentsUnique(es, now, width, map[]);
  }

  // A live entry is still listed after an update of its own key or of a key it does not have.
  lemma RepresentsFound(was: seq<Entry>, es: seq<Entry>, k: nat, now: int, width: nat, m: map<string, Window>)
    requires Unique(was) && Represents(was, now, width, m) && |es| == |was| && k < |was|
    requires Live(was[k], now, width) && es[k].ip == was[k].ip && es[k].start == was[k].start
    requires forall j :: 0 <= j < |was| && j != k ==>
               (Live(es[j], now, width) <==> Live(was[j], now, width)) && (Live(was[j], now, width) ==> es[j] == was[j])
    ensures Represents(es, now, width, m[es[k].ip := Window(es[k].count, es[k].start)])
  {
    var m' := m[es[k].ip := Window(es[k].count, es[k].start)];
    forall x | x in m' ensures exists i :: 0 <= i < |es| && Live(es[i], now, width) && es[i].ip == x {
      var i :| 0 <= i < |was| && Live(was[i], now, width) && was[i].ip == x;
      assert Live(es[i], now, width) && es[i].ip == x;
    }
    forall i | 0 <= i < |es| && Live(es[i], now, width)
      ensures es[i].ip in m' && m'[es[i].ip] == Window(es[i].count, es[i].start)
    {
      assert i != k ==> was[i].ip != was[k].ip;
    }
  }

  // The scan stops early at the client's own entry.
  lemma SweptFound(was: seq<Entry>, es: seq<Entry>, k: nat, ip: string, now: int, width: nat, limit: nat)
    requires Unique(was) && |es| == |was| && k < |was|
    requires forall j :: 0 <= j < k ==> es[j] == Sweep(was[j], now, width)
    requires forall j :: k < j < |es| ==> es[j] == was[j]
    requires Live(was[k], now, width) && was[k].ip == ip
    requires es[k] == Entry(ip, (was[k].count + 1) % UINT32, was[k].start)
    ensures CheckStep(was, es, ip, now, width, limit, es[k].count > limit)
  {
    hide LiveMap, Unique, Represents, Sweep;
    var m := LiveMap(was, now, width);
    SweptFoundSlots(was, es, k, now, width);
    LiveMapAt(was, k, now, width);
    RepresentsFound(was, es, k, now, width, m);
    RepresentsUnique(es, now, width, m[ip := Window(es[k].count, es[k].start)]);
    UnexpiredLive(es, now, width);
  }

  lemma LiveMapAt(es: seq<Entry>, k: nat, now: int, width: nat)
    requires Unique(es) && k < |es| && Live(es[k], now, width)
    ensures Represents(es, now, width, LiveMap(es, now, width))
    ensures es[k].ip in LiveMap(es, now, width)
    ensures LiveMap(es, now, width)[es[k].ip] == Window(es[k].count, es[k].start)
  {
    LiveMapRepresents(es, now, width);
  }

  lemma SweptFoundSlots(was: seq<Entry>, es: seq<Entry>, k: nat, now: int, width: nat)
    requires Unique(was) && |es| == |was| && k < |was| && was[k].ip != "" && es[k].ip == was[k].ip
    requires forall j :: 0 <= j < k ==> es[j] == Sweep(was[j], now, width)
    requires forall j :: k < j < |es| ==> es[j] == was[j]
    ensures Unique(es)
    ensures forall j :: 0 <= j < |was| && j != k ==>
              (Live(es[j], now, width) <==> Live(was[j], now, width)) && (Live(was[j], now, width) ==> es[j] == was[j])
  {
    forall j | 0 <= j < |was| && j != k ensures es[j].ip != es[k].ip && (es[j].ip == "" || es[j].ip == was[j].ip) {
      assert was[j].ip != was[k].ip;
    }
    SweptUnique(was, es, k);
  }

  lemma SweptUnique(was: seq<Entry>, es: seq<Entry>, k: nat)
    requires Unique(was) && |es| == |was| && k < |was|
    requires forall j :: 0 <= j < |was| && j != k ==> es[j].ip == "" || es[j].ip == was[j].ip
    requires forall j :: 0 <= j < |was| && j != k ==> es[j].ip != es[k].ip || es[k].ip == ""
    ensures Unique(es)
  {
  }

  lemma UnexpiredLive(es: seq<Entry>, now: int, width: nat)
    requires Unique(es)
    ensures Unexpired(LiveMap(es, now, width), now, width) == LiveMap(es, now, width)
  {
    LiveMapRepresents(es, now, width);
  }

  lemma RepresentsFresh(was: seq<Entry>, es: seq<Entry>, k: nat, now: int, width: nat, m: map<string, Window>)
    requires Unique(was) && Represents(was, now, width, m) && |es| == |was| && k < |was|
    requires es[k].ip != "" && !Live(was[k], now, width) && es[k].ip !in m
    requires forall j :: 0 <= j < |was| && j != k ==>
               (Live(es[j], now, width) <==> Live(was[j], now, width)) && (Live(was[j], now, width) ==> es[j] == was[j])
    ensures Represents(es, now, width,
                       if Live(es[k], now, width) then m[es[k].ip := Window(es[k].count, es[k].start)] else m)
  {
    var m' := if Live(es[k], now, width) then m[es[k].ip := Window(es[k].count, es[k].start)] else m;
    forall x | x in m' ensures exists i :: 0 <= i < |es| && Live(es[i], now, width) && es[i].ip == x {
      if x in m {
        var i :| 0 <= i < |was| && Live(was[i], now, width) && was[i].ip == x;
        assert Live(es[i], now, width) && es[i].ip == x;
      } else {
        assert Live(es[k], now, width) && es[k].ip == x;
      }
    }
  }

  // The whole table was swept and the client gets a free slot.
  lemma SweptFresh(was: seq<Entry>, es: seq<Entry>, k: nat, ip: string, now: int, width: nat, limit: nat)
    requires Unique(was) && |es| == |was| == MAX_ENTRIES && k < |was| && ip != ""
    requires !Live(was[k], now, width) && es[k] == Entry(ip, 1, now)
    requires forall j :: 0 <= j < |was| && j != k ==> es[j] == Sweep(was[j], now, width)
    requires forall j :: 0 <= j < |was| ==> !(Live(was[j], now, width) && was[j].ip == ip)
    ensures CheckStep(was, es, ip, now, width, limit, false)
  {
    var m := LiveMap(was, now, width);
    LiveMapSize(was, now, width);
    assert ip !in m by {
      LiveMapRepresents(was, now, width);
    }
    SweptUnique(was, es, k);
    hide LiveMap, Unique, Represents;
    LiveMapRepresents(was, now, width);
    UnexpiredLive(was, now, width);
    RepresentsFresh(was, es, k, now, width, m);
    RepresentsUnique(es, now, width, if Live(es[k], now, width) then m[ip := Window(1, now)] else m);
    UnexpiredInsert(m, ip, now, width);
  }

  lemma UnexpiredInsert(m: map<string, Window>, ip: string, now: int, width: nat)
    requires ip !in m && Unexpired(m, now, width) == m
    ensures Unexpired(m[ip := Window(1, now)], now, width)
         == if Expired(now, now, width) then m else m[ip := Window(1, now)]
  {
  }

  // No slot is free: 1024 other clients are live, and the request goes untracked.
  lemma SweptFull(was: seq<Entry>, ip: string, now: int, width: nat, limit: nat)
    requires Unique(was) && |was| == MAX_ENTRIES
    requires forall j :: 0 <= j < |was| ==> Live(was[j], now, width) && was[j].ip != ip
    ensures CheckStep(was, was, ip, now, width, limit, false)
    ensures |LiveMap(was, now, width)| == 1024 && ip !in LiveMap(was, now, width)
  {
    LiveMapRepresents(was, now, width);
    LiveMapSize(was, now, width);
    var m := LiveMap(was, now, width);
    assert Unexpired(m, now, width) == m;
  }

  // A table seen later: what has expired in between is gone, nothing else changes.
  lemma LiveMapLater(es: seq<Entry>, now: int, later: int, width: nat)
    requires Unique(es) && now <= later
    ensures LiveMap(es, later, width) == Unexpired(LiveMap(es, now, width), later, width)
  {
    LiveMapRepresents(es, now, width);
    var m := Unexpired(LiveMap(es, now, width), later, width);
    forall x | x in m ensures exists i :: 0 <= i < |es| && Live(es[i], later, width) && es[i].ip == x {
      var i :| 0 <= i < |es| && Live(es[i], now, width) && es[i].ip == x;
      assert Live(es[i], later, width);
    }
    RepresentsUnique(es, later, width, m);
  }
}
