/** Request metrics over the whole history of a server. */
module Metrics {
  import opened Options

  const METHODS := 10
  const STATUSES := 7
  const SLOTS := 64
  const PATH_SIZE := 128
  const ULONG_MAX := 0xFFFF_FFFF_FFFF_FFFF

  newtype Duration = x: int | 0 <= x <= ULONG_MAX

  // A finished request.
  datatype Hit = Hit(url: string, meth: string, status: int, ms: Duration)

  datatype Endpoint = Endpoint(path: string, count: nat, totalMs: nat)

  const NAMES: seq<string> := ["GET", "POST", "PUT", "DELETE", "PATCH", "HEAD", "OPTIONS", "CONNECT", "TRACE"]

  function MethodSlot(h: Hit): (i: nat)
    ensures h.meth == "GET" <==> i == 0
    ensures h.meth == "POST" <==> i == 1
    ensures h.meth == "PUT" <==> i == 2
    ensures h.meth == "DELETE" <==> i == 3
    ensures h.meth == "PATCH" <==> i == 4
    ensures h.meth == "HEAD" <==> i == 5
    ensures h.meth == "OPTIONS" <==> i == 6
    ensures h.meth == "CONNECT" <==> i == 7
    ensures h.meth == "TRACE" <==> i == 8
    ensures i < 10
  {
    if h.meth == NAMES[0] then 0 else if h.meth == NAMES[1] then 1 else if h.meth == NAMES[2] then 2
    else if h.meth == NAMES[3] then 3 else if h.meth == NAMES[4] then 4 else if h.meth == NAMES[5] then 5
    else if h.meth == NAMES[6] then 6 else if h.meth == NAMES[7] then 7 else if h.meth == NAMES[8] then 8 else 9
  }

  function StatusSlot(h: Hit): (i: nat)
    ensures i < 6 && (i < 5 <==> 100 <= h.status < 600) && (i < 5 ==> 100 * (i + 1) <= h.status < 100 * (i + 2))
  {
    if 100 <= h.status < 200 then 0 else if 200 <= h.status < 300 then 1 else if 300 <= h.status < 400 then 2
    else if 400 <= h.status < 500 then 3 else if 500 <= h.status < 600 then 4 else 5
  }

  // ---------------------------------------------------------------- counters

  // How many hits fall in a slot.
  function Tally(hits: seq<Hit>, slot: Hit -> nat, i: nat): nat {
    if hits == [] then 0
    else Tally(hits[..|hits| - 1], slot, i) + if slot(hits[|hits| - 1]) == i then 1 else 0
  }

  function Sum(counts: seq<nat>): nat {
    if counts == [] then 0 else Sum(counts[..|counts| - 1]) + counts[|counts| - 1]
  }

  // Counters that tally disjoint slots add up to the hits in those slots.
  lemma {:induction false} SumStep(hits: seq<Hit>, h: Hit, slot: Hit -> nat, before: seq<nat>, after: seq<nat>)
    requires |before| == |after|
    requires forall i :: 0 <= i < |before| ==>
               before[i] == Tally(hits, slot, i) && after[i] == Tally(hits + [h], slot, i)
    ensures Sum(after) == Sum(before) + if slot(h) < |before| then 1 else 0
  {
    if before != [] {
      var n := |before| - 1;
      SumStep(hits, h, slot, before[..n], after[..n]);
      assert (hits + [h])[..|hits|] == hits;
    }
  }

  lemma {:induction false} TallySum(hits: seq<Hit>, slot: Hit -> nat, counts: seq<nat>)
    requires forall i :: 0 <= i < |counts| ==> counts[i] == Tally(hits, slot, i)
    requires forall h: Hit :: slot(h) < |counts|
    ensures Sum(counts) == |hits|
  {
    if hits == [] {
      AllZero(counts);
    } else {
      var front := hits[..|hits| - 1];
      var before := seq(|counts|, i requires 0 <= i => Tally(front, slot, i));
      TallySum(front, slot, before);
      assert front + [hits[|hits| - 1]] == hits;
      SumStep(front, hits[|hits| - 1], slot, before, counts);
    }
  }

  lemma {:induction false} AllZero(counts: seq<nat>)
    requires forall i :: 0 <= i < |counts| ==> counts[i] == 0
    ensures Sum(counts) == 0
  {
    if counts != [] { AllZero(counts[..|counts| - 1]); }
  }

  // ---------------------------------------------------------------- durations

  function TotalMs(hits: seq<Hit>): nat {
    if hits == [] then 0 else TotalMs(hits[..|hits| - 1]) + hits[|hits| - 1].ms as nat
  }

  // lo and hi are the least and the greatest duration, as far as there is one.
  ghost predicate Extremes(hits: seq<Hit>, lo: Duration, hi: Duration) {
    && (hits == [] ==> lo as int == ULONG_MAX && hi == 0)
    && (forall i :: 0 <= i < |hits| ==> lo <= hits[i].ms <= hi)
    && (hits != [] ==> exists i, j :: 0 <= i < |hits| && 0 <= j < |hits| && hits[i].ms == lo && hits[j].ms == hi)
  }

  lemma OneMore(x: nat, n: nat)
    ensures x * (n + 1) == x * n + x
  {
  }

  lemma {:induction false} Average(hits: seq<Hit>, lo: nat, hi: nat)
    requires forall i :: 0 <= i < |hits| ==> lo <= hits[i].ms as nat <= hi
    ensures lo * |hits| <= TotalMs(hits) <= hi * |hits|
  {
    if hits != [] {
      var front := hits[..|hits| - 1];
      Average(front, lo, hi);
      assert |hits| == |front| + 1;
      OneMore(lo, |front|);
      OneMore(hi, |front|);
    }
  }

  lemma TotalMsStep(hits: seq<Hit>, h: Hit)
    ensures TotalMs(hits + [h]) == TotalMs(hits) + h.ms as nat
  {
    assert (hits + [h])[..|hits|] == hits;
  }

  lemma ExtremesStep(hits: seq<Hit>, h: Hit, lo: Duration, hi: Duration)
    requires Extremes(hits, lo, hi)
    ensures Extremes(hits + [h], if h.ms < lo then h.ms else lo, if h.ms > hi then h.ms else hi)
  {
    var all := hits + [h];
    var lo', hi' := if h.ms < lo then h.ms else lo, if h.ms > hi then h.ms else hi;
    var n := |hits|;
    assert all[n] == h && forall i :: 0 <= i < n ==> all[i] == hits[i];
    if hits == [] {
      assert all[0].ms == lo' == hi';
    } else {
      var i, j :| 0 <= i < n && 0 <= j < n && hits[i].ms == lo && hits[j].ms == hi;
      var i', j' := if h.ms < lo then n else i, if h.ms > hi then n else j;
      assert all[i'].ms == lo' && all[j'].ms == hi';
    }
  }

  // ---------------------------------------------------------------- endpoints

  // What snprintf leaves of a URL in the 128-byte path.
  function Stored(url: string): string {
    if |url| < PATH_SIZE then url else url[..PATH_SIZE - 1]
  }

  // The first slot with this path.
  function Find(slots: seq<Endpoint>, url: string): (r: Option<nat>)
    ensures r.Some? ==> r.value < |slots| && slots[r.value].path == url
                        && forall j :: 0 <= j < r.value ==> slots[j].path != url
    ensures r.None? ==> forall j :: 0 <= j < |slots| ==> slots[j].path != url
  {
    if slots == [] then None
    else if slots[0].path == url then Some(0)
    else match Find(slots[1..], url) case Some(i) => Some(i + 1) case None => None
  }

  function Recorded(slots: seq<Endpoint>, h: Hit): seq<Endpoint> {
    match Find(slots, h.url)
    case Some(i) => slots[i := Endpoint(slots[i].path, slots[i].count + 1, slots[i].totalMs + h.ms as nat)]
    case None => if |slots| < SLOTS then slots + [Endpoint(Stored(h.url), 1, h.ms as nat)] else slots
  }

  function Slots(hits: seq<Hit>): seq<Endpoint> {
    if hits == [] then [] else Recorded(Slots(hits[..|hits| - 1]), hits[|hits| - 1])
  }

  function Hits(hits: seq<Hit>, url: string): nat {
    if hits == [] then 0 else Hits(hits[..|hits| - 1], url) + if hits[|hits| - 1].url == url then 1 else 0
  }

  function HitsMs(hits: seq<Hit>, url: string): nat {
    if hits == [] then 0
    else HitsMs(hits[..|hits| - 1], url) + if hits[|hits| - 1].url == url then hits[|hits| - 1].ms as nat else 0
  }

  function Urls(hits: seq<Hit>): set<string> {
    set i | 0 <= i < |hits| :: hits[i].url
  }

  function PathSet(slots: seq<Endpoint>): set<string> {
    set i | 0 <= i < |slots| :: slots[i].path
  }

  // The cut of a path that is compared with whole URLs does no harm: a URL that does not fit never took a slot.
  predicate NoLongSlot(hits: seq<Hit>) {
    forall i :: 0 <= i < |hits| ==> !TakesLongSlot(hits, i)
  }

  predicate TakesLongSlot(hits: seq<Hit>, i: nat)
    requires i < |hits|
  {
    |hits[i].url| >= 128 && |Slots(hits[..i])| < 64
  }

  // The hit finds no slot of its own, and none is left.
  predicate LostAt(hits: seq<Hit>, i: nat)
    requires i < |hits|
  {
    Find(Slots(hits[..i]), hits[i].url).None? && |Slots(hits[..i])| >= 64
  }

  // Different paths, and each slot is exact over the whole history.
  ghost predicate SlotsExact(slots: seq<Endpoint>, hits: seq<Hit>) {
    && |slots| <= 64
    && (forall i, j :: 0 <= i < j < |slots| ==> slots[i].path != slots[j].path)
    && forall i :: 0 <= i < |slots| ==>
         slots[i].path in Urls(hits) && slots[i].count == Hits(hits, slots[i].path)
         && slots[i].totalMs == HitsMs(hits, slots[i].path)
  }

  lemma HitsStep(hits: seq<Hit>, h: Hit, url: string)
    ensures Hits(hits + [h], url) == Hits(hits, url) + if h.url == url then 1 else 0
    ensures HitsMs(hits + [h], url) == HitsMs(hits, url) + if h.url == url then h.ms as nat else 0
    ensures Urls(hits + [h]) == Urls(hits) + {h.url}
  {
    assert (hits + [h])[..|hits|] == hits;
    assert (hits + [h])[|hits|] == h && forall i :: 0 <= i < |hits| ==> (hits + [h])[i] == hits[i];
  }

  lemma {:induction false} NoHits(hits: seq<Hit>, url: string)
    requires url !in Urls(hits)
    ensures Hits(hits, url) == 0 && HitsMs(hits, url) == 0
  {
    if hits != [] {
      var front := hits[..|hits| - 1];
      assert hits[|hits| - 1].url in Urls(hits) && forall i :: 0 <= i < |front| ==> front[i] == hits[i];
      assert Urls(front) <= Urls(hits);
      NoHits(front, url);
    }
  }

  lemma PathSetPush(slots: seq<Endpoint>, e: Endpoint)
    ensures PathSet(slots + [e]) == PathSet(slots) + {e.path}
  {
    var all := slots + [e];
    assert all[|slots|] == e && forall i :: 0 <= i < |slots| ==> all[i] == slots[i];
  }

  lemma {:induction false} PathSetSize(slots: seq<Endpoint>)
    requires forall i, j :: 0 <= i < j < |slots| ==> slots[i].path != slots[j].path
    ensures |PathSet(slots)| == |slots|
  {
    if slots != [] {
      var front, last := slots[..|slots| - 1], slots[|slots| - 1];
      PathSetSize(front);
      PathSetPush(front, last);
      assert slots == front + [last] && last.path !in PathSet(front);
    }
  }

  // What holds of the table as long as every URL with a slot fits in the path.
  ghost predicate TableOk(slots: seq<Endpoint>, hits: seq<Hit>) {
    SlotsExact(slots, hits) && PathSet(slots) <= Urls(hits) && (|slots| < 64 ==> PathSet(slots) == Urls(hits))
  }

  lemma FoundStep(slots: seq<Endpoint>, hits: seq<Hit>, h: Hit, k: nat)
    requires TableOk(slots, hits) && k < |slots| && slots[k].path == h.url
    ensures TableOk(slots[k := Endpoint(h.url, slots[k].count + 1, slots[k].totalMs + h.ms as nat)], hits + [h])
    ensures Urls(hits + [h]) == Urls(hits)
    ensures PathSet(slots[k := Endpoint(h.url, slots[k].count + 1, slots[k].totalMs + h.ms as nat)]) == PathSet(slots)
  {
    var slots' := slots[k := Endpoint(h.url, slots[k].count + 1, slots[k].totalMs + h.ms as nat)];
    HitsStep(hits, h, h.url);
    assert forall i :: 0 <= i < |slots| ==> slots'[i].path == slots[i].path;
    forall i | 0 <= i < |slots|
      ensures slots'[i].count == Hits(hits + [h], slots'[i].path)
      ensures slots'[i].totalMs == HitsMs(hits + [h], slots'[i].path)
    {
      HitsStep(hits, h, slots[i].path);
    }
  }

  lemma AppendStep(slots: seq<Endpoint>, hits: seq<Hit>, h: Hit)
    requires TableOk(slots, hits) && |slots| < 64 && h.url !in PathSet(slots)
    ensures TableOk(slots + [Endpoint(h.url, 1, h.ms as nat)], hits + [h])
    ensures PathSet(slots + [Endpoint(h.url, 1, h.ms as nat)]) == Urls(hits + [h])
  {
    hide Hits, HitsMs;
    var e := Endpoint(h.url, 1, h.ms as nat);
    var slots' := slots + [e];
    NoHits(hits, h.url);
    HitsStep(hits, h, h.url);
    PathSetPush(slots, e);
    forall i | 0 <= i < |slots|
      ensures slots[i].path != h.url && slots'[i].count == Hits(hits + [h], slots'[i].path)
      ensures slots'[i].totalMs == HitsMs(hits + [h], slots'[i].path)
    {
      assert slots[i].path in PathSet(slots);
      HitsStep(hits, h, slots[i].path);
    }
  }

  lemma LostStep(slots: seq<Endpoint>, hits: seq<Hit>, h: Hit)
    requires TableOk(slots, hits) && |slots| >= 64 && h.url !in PathSet(slots)
    ensures TableOk(slots, hits + [h]) && PathSet(slots) != Urls(hits + [h])
  {
    hide Hits, HitsMs;
    HitsStep(hits, h, h.url);
    forall i | 0 <= i < |slots|
      ensures slots[i].count == Hits(hits + [h], slots[i].path) && slots[i].totalMs == HitsMs(hits + [h], slots[i].path)
    {
      assert slots[i].path in PathSet(slots);
      HitsStep(hits, h, slots[i].path);
    }
  }

  function Counts(slots: seq<Endpoint>): nat {
    if slots == [] then 0 else Counts(slots[..|slots| - 1]) + slots[|slots| - 1].count
  }

  lemma {:induction false} CountsBump(slots: seq<Endpoint>, k: nat, e: Endpoint)
    requires k < |slots| && e.count == slots[k].count + 1
    ensures Counts(slots[k := e]) == Counts(slots) + 1
  {
    var n := |slots| - 1;
    if k < n {
      CountsBump(slots[..n], k, e);
      assert slots[k := e][..n] == slots[..n][k := e];
    } else {
      assert slots[k := e][..n] == slots[..n];
    }
  }

  // The table over the whole history; and the slot counts miss no hit as long as every URL has a slot.
  lemma {:induction false} TableHistory(hits: seq<Hit>)
    requires NoLongSlot(hits)
    ensures TableOk(Slots(hits), hits) && Counts(Slots(hits)) <= |hits|
    ensures Counts(Slots(hits)) == |hits| <==> PathSet(Slots(hits)) == Urls(hits)
  {
    hide TableOk, Counts, PathSet, Urls, Slots, Recorded, Find;
    if hits == [] {
      TableEmpty();
    } else {
      var front, h := hits[..|hits| - 1], hits[|hits| - 1];
      LongSlotStep(front, h);
      assert hits == front + [h];
      TableHistory(front);
      TableStep(Slots(front), front, h);
      SlotsStep(front, h);
    }
  }

  lemma LongSlotStep(hits: seq<Hit>, h: Hit)
    ensures NoLongSlot(hits + [h]) <==> NoLongSlot(hits) && (|h.url| < 128 || |Slots(hits)| >= 64)
  {
    hide Slots;
    var all := hits + [h];
    assert all[|hits|] == h && all[..|hits|] == hits;
    assert forall i :: 0 <= i < |hits| ==> all[i] == hits[i] && all[..i] == hits[..i];
    assert forall i :: 0 <= i < |hits| ==> TakesLongSlot(all, i) == TakesLongSlot(hits, i);
    assert TakesLongSlot(all, |hits|) == (|h.url| >= 128 && |Slots(hits)| < 64);
  }

  lemma SlotsStep(hits: seq<Hit>, h: Hit)
    ensures Slots(hits + [h]) == Recorded(Slots(hits), h)
  {
    assert (hits + [h])[..|hits|] == hits;
  }

  lemma TableEmpty()
    ensures TableOk(Slots([]), []) && Counts(Slots([])) == 0 && PathSet(Slots([])) == Urls([])
  {
  }

  lemma TableStep(slots: seq<Endpoint>, hits: seq<Hit>, h: Hit)
    requires TableOk(slots, hits) && (|h.url| < 128 || |slots| >= 64)
    requires Counts(slots) <= |hits| && (Counts(slots) == |hits| <==> PathSet(slots) == Urls(hits))
    ensures TableOk(Recorded(slots, h), hits + [h]) && Counts(Recorded(slots, h)) <= |hits| + 1
    ensures Counts(Recorded(slots, h)) == |hits| + 1 <==> PathSet(Recorded(slots, h)) == Urls(hits + [h])
  {
    hide SlotsExact, Hits, HitsMs, Urls, Slots, Counts, PathSet, Find;
    FindIn(slots, h.url);
    CountsStep(slots, h);
    var r := Find(slots, h.url);
    if r.Some? {
      FoundStep(slots, hits, h, r.value);
    } else if |slots| < 64 {
      AppendStep(slots, hits, h);
    } else {
      LostStep(slots, hits, h);
    }
  }

  lemma SameSize(a: set<string>, b: set<string>)
    requires a <= b
    ensures a == b <==> |b| <= |a|
    ensures |a| <= |b|
  {
    assert b == a + (b - a);
  }

  // ---------------------------------------------------------------- URLs that do not fit

  lemma {:induction false} PathsFit(hits: seq<Hit>)
    ensures forall j :: 0 <= j < |Slots(hits)| ==> |Slots(hits)[j].path| < 128
  {
    if hits != [] { PathsFit(hits[..|hits| - 1]); }
  }

  lemma {:induction false} LongUrlNeverFound(hits: seq<Hit>, url: string)
    requires |url| >= 128
    ensures Find(Slots(hits), url).None?
  {
    PathsFit(hits);
  }

  // So every request for it takes a new slot while there is one.
  lemma LongUrlNewSlot(hits: seq<Hit>, h: Hit)
    requires |h.url| >= 128
    ensures Slots(hits + [h])
         == Slots(hits) + if |Slots(hits)| < 64 then [Endpoint(h.url[..127], 1, h.ms as nat)] else []
  {
    LongUrlNeverFound(hits, h.url);
    SlotsStep(hits, h);
    assert Slots(hits) + [] == Slots(hits);
  }

  // Two requests in a row leave two slots with one path.
  lemma LongUrlTwice(hits: seq<Hit>, h: Hit)
    requires |h.url| >= 128 && |Slots(hits)| + 2 <= 64
    ensures var e := Endpoint(h.url[..127], 1, h.ms as nat); Slots(hits + [h, h]) == Slots(hits) + [e, e]
  {
    hide Slots, Stored;
    LongUrlNewSlot(hits, h);
    LongUrlNewSlot(hits + [h], h);
    assert hits + [h] + [h] == hits + [h, h];
  }

  lemma SlotsNone()
    ensures Slots([]) == [] && Counts([]) == 0
  {
  }

  // 64 requests fill the table, and from the 65th on requests for this one URL are not counted.
  lemma {:induction false} LongUrlFills(hits: seq<Hit>, url: string)
    requires |url| >= 128 && forall i :: 0 <= i < |hits| ==> hits[i].url == url
    ensures |Slots(hits)| == Counts(Slots(hits)) == if |hits| < 64 then |hits| else 64
  {
    hide Slots, Counts, Recorded, Find;
    SlotsNone();
    if hits != [] {
      var front, h := hits[..|hits| - 1], hits[|hits| - 1];
      LongUrlFills(front, url);
      LongUrlNewSlot(front, h);
      LongUrlNeverFound(front, url);
      SlotsStep(front, h);
      CountsStep(Slots(front), h);
      assert hits == front + [h];
    }
  }

  // The hit came while there was room, and its path is this.
  predicate CameWithRoom(hits: seq<Hit>, i: nat, url: string)
    requires i < |hits|
  {
    |Slots(hits[..i])| < 64 && Stored(hits[i].url) == url
  }

  // What is found at any time: the paths of the hits that came while there was room.
  lemma {:induction false} FoundMeans(hits: seq<Hit>, url: string)
    ensures Find(Slots(hits), url).Some? <==> exists i :: 0 <= i < |hits| && CameWithRoom(hits, i, url)
  {
    hide Find, Recorded, Stored;
    if hits != [] {
      var n := |hits| - 1;
      var front, h := hits[..n], hits[n];
      FoundMeans(front, url);
      PathsFit(front);
      FoundStepMeans(Slots(front), h, url);
      forall i | 0 <= i < n ensures CameWithRoom(hits, i, url) == CameWithRoom(front, i, url) {
        assert hits[..i] == front[..i] && hits[i] == front[i];
      }
      assert CameWithRoom(hits, n, url) == (|Slots(front)| < 64 && Stored(h.url) == url);
    } else {
      NothingFound(url);
    }
  }

  lemma NothingFound(url: string)
    ensures Find(Slots([]), url).None?
  {
  }

  lemma FoundStepMeans(slots: seq<Endpoint>, h: Hit, url: string)
    requires forall j :: 0 <= j < |slots| ==> |slots[j].path| < 128
    ensures Find(Recorded(slots, h), url).Some? <==>
              Find(slots, url).Some? || (|slots| < 64 && Stored(h.url) == url)
  {
    var slots' := Recorded(slots, h);
    FindIn(slots, url);
    FindIn(slots', url);
    var r := Find(slots, h.url);
    if r.Some? {
      assert forall j :: 0 <= j < |slots| ==> slots'[j].path == slots[j].path;
      assert Stored(h.url) == h.url && slots[r.value].path == h.url;
    } else if |slots| < 64 {
      PathSetPush(slots, Endpoint(Stored(h.url), 1, h.ms as nat));
    }
  }

  lemma FindIn(slots: seq<Endpoint>, url: string)
    ensures Find(slots, url).Some? <==> url in PathSet(slots)
  {
    hide Find;
  }

  // A URL that comes while there is room is found at any later time exactly when it fits in the path.
  lemma FoundAgain(hits: seq<Hit>, h: Hit, more: seq<Hit>)
    requires |Slots(hits)| < 64
    ensures Find(Slots(hits + [h] + more), h.url).Some? <==> |h.url| < 128
  {
    var all := hits + [h] + more;
    assert all[..|hits|] == hits && all[|hits|] == h;
    FoundMeans(all, h.url);
    assert |h.url| < 128 ==> CameWithRoom(all, |hits|, h.url);
    if |h.url| >= 128 { LongUrlNeverFound(all, h.url); }
  }

  // Two slots with one path, or a slot that counts a hit its path never had.
  ghost predicate Broken(slots: seq<Endpoint>, hits: seq<Hit>) {
    || (exists i, j :: 0 <= i < j < |slots| && slots[i].path == slots[j].path)
    || (exists j :: 0 <= j < |slots| && slots[j].count > Hits(hits, slots[j].path))
  }

  lemma BrokenStep(slots: seq<Endpoint>, hits: seq<Hit>, h: Hit)
    requires Broken(slots, hits)
    ensures Broken(Recorded(slots, h), hits + [h])
  {
    var slots' := Recorded(slots, h);
    assert forall j :: 0 <= j < |slots| ==> slots'[j].path == slots[j].path;
    if j: nat :| j < |slots| && slots[j].count > Hits(hits, slots[j].path) {
      HitsStep(hits, h, slots[j].path);
      var r := Find(slots, h.url);
      if r.Some? && r.value != j && slots[j].path == h.url {
        assert slots'[r.value].path == slots'[j].path;
      } else {
        assert slots'[j].count > Hits(hits + [h], slots'[j].path);
      }
    } else {
      var i, j :| 0 <= i < j < |slots| && slots[i].path == slots[j].path;
      assert slots'[i].path == slots'[j].path;
    }
  }

  // As long as there is room, every URL that fits has its slot.
  lemma {:induction false} RoomKnowsShort(hits: seq<Hit>, url: string)
    requires |Slots(hits)| < 64 && |url| < 128 && url in Urls(hits)
    ensures Find(Slots(hits), url).Some?
  {
    var i :| 0 <= i < |hits| && hits[i].url == url;
    SlotsGrow(hits, i);
    FoundMeans(hits, url);
    assert CameWithRoom(hits, i, url);
  }

  lemma {:induction false} SlotsGrow(hits: seq<Hit>, i: nat)
    requires i <= |hits|
    ensures |Slots(hits[..i])| <= |Slots(hits)|
  {
    if i == |hits| {
      assert hits[..i] == hits;
    } else {
      var front := hits[..|hits| - 1];
      assert front[..i] == hits[..i];
      SlotsGrow(front, i);
    }
  }

  lemma BrokenStart(hits: seq<Hit>, h: Hit)
    requires |h.url| >= 128 && |Slots(hits)| < 64
    ensures Broken(Slots(hits + [h]), hits + [h])
  {
    var path, slots := Stored(h.url), Slots(hits);
    LongUrlNewSlot(hits, h);
    var slots' := Slots(hits + [h]);
    assert slots'[|slots|] == Endpoint(path, 1, h.ms as nat);
    if Find(slots, path).Some? {
      var i := Find(slots, path).value;
      assert slots'[i].path == path;
    } else {
      if path in Urls(hits) { RoomKnowsShort(hits, path); }
      NoHits(hits, path);
      HitsStep(hits, h, path);
    }
  }

  lemma {:induction false} BrokenHistory(hits: seq<Hit>)
    requires !NoLongSlot(hits)
    ensures Broken(Slots(hits), hits)
  {
    hide Broken, Slots, NoLongSlot, Recorded;
    if hits == [] {
      NoneLong();
    } else {
      var front, h := hits[..|hits| - 1], hits[|hits| - 1];
      assert hits == front + [h];
      LongSlotStep(front, h);
      if NoLongSlot(front) {
        BrokenStart(front, h);
      } else {
        BrokenHistory(front);
        BrokenStep(Slots(front), front, h);
        SlotsStep(front, h);
      }
    }
  }

  lemma NoneLong()
    ensures NoLongSlot([])
  {
  }

  // The slots have different paths with exact counts and times, over any history, exactly when no URL of
  // 128 bytes or more came while there was room.
  lemma SlotsExactIff(hits: seq<Hit>)
    ensures SlotsExact(Slots(hits), hits) <==> NoLongSlot(hits)
  {
    if NoLongSlot(hits) { TableHistory(hits); } else { BrokenHistory(hits); }
  }

  lemma {:induction false} CountsExactIff(hits: seq<Hit>)
    ensures Counts(Slots(hits)) <= |hits|
    ensures Counts(Slots(hits)) == |hits| <==> forall i :: 0 <= i < |hits| ==> !LostAt(hits, i)
  {
    hide Find, Counts, Recorded, Slots;
    SlotsNone();
    if hits != [] {
      var n := |hits| - 1;
      var front, h := hits[..n], hits[n];
      CountsExactIff(front);
      assert hits == front + [h];
      SlotsStep(front, h);
      CountsStep(Slots(front), h);
      forall i | 0 <= i < n ensures LostAt(hits, i) == LostAt(front, i) {
        assert hits[..i] == front[..i];
      }
      assert LostAt(hits, n) == (Find(Slots(front), h.url).None? && |Slots(front)| >= 64);
    }
  }

  lemma CountsStep(slots: seq<Endpoint>, h: Hit)
    ensures Counts(Recorded(slots, h))
         == Counts(slots) + if Find(slots, h.url).None? && |slots| >= 64 then 0 else 1
  {
    var r := Find(slots, h.url);
    if r.Some? {
      CountsBump(slots, r.value, Recorded(slots, h)[r.value]);
    } else if |slots| < 64 {
      assert Recorded(slots, h)[..|slots|] == slots;
    }
  }

  // The slot counts add up to the total exactly when no hit came without a slot to a full table. Where the
  // slots are exact that means no more than 64 different URLs.
  lemma CountsComplete(hits: seq<Hit>)
    ensures Counts(Slots(hits)) == |hits| <==> forall i :: 0 <= i < |hits| ==> !LostAt(hits, i)
    ensures NoLongSlot(hits) ==>
              && (Counts(Slots(hits)) == |hits| <==> |Urls(hits)| <= 64)
              && |Slots(hits)| == if |Urls(hits)| < 64 then |Urls(hits)| else 64
  {
    CountsExactIff(hits);
    if NoLongSlot(hits) { UrlsCounted(hits); }
  }

  lemma UrlsCounted(hits: seq<Hit>)
    requires NoLongSlot(hits)
    ensures Counts(Slots(hits)) == |hits| <==> |Urls(hits)| <= 64
    ensures |Slots(hits)| == if |Urls(hits)| < 64 then |Urls(hits)| else 64
  {
    TableHistory(hits);
    PathSetSize(Slots(hits));
    SameSize(PathSet(Slots(hits)), Urls(hits));
  }

  class Metrics {
    var totalRequests: nat
    const byMethod: array<nat>
    const byStatus: array<nat>
    var errors4xx: nat
    var errors5xx: nat
    var totalDurationMs: nat
    var minDurationMs: Duration
    var maxDurationMs: Duration
    const endpoints: array<Endpoint>
    var endpointCount: nat
    ghost var history: seq<Hit>

    ghost predicate CountersOk(hits: seq<Hit>)
      reads this, byMethod, byStatus
    {
      && byMethod.Length == METHODS && byStatus.Length == STATUSES && byMethod != byStatus
      && (forall i :: 0 <= i < METHODS ==> byMethod[i] == Tally(hits, MethodSlot, i))
      && (forall i :: 0 <= i < STATUSES ==> byStatus[i] == Tally(hits, StatusSlot, i))
      && errors4xx == Tally(hits, StatusSlot, 3) && errors5xx == Tally(hits, StatusSlot, 4)
    }

    ghost predicate TimesOk(hits: seq<Hit>)
      reads this
    {
      totalDurationMs == TotalMs(hits) && Extremes(hits, minDurationMs, maxDurationMs)
    }

    ghost predicate EndpointsOk(hits: seq<Hit>)
      reads this, endpoints
    {
      endpoints.Length == 64 && endpointCount <= 64 && endpoints[..endpointCount] == Slots(hits)
    }

    ghost predicate Valid()
      reads this, byMethod, byStatus, endpoints
    {
      totalRequests == |history| && CountersOk(history) && TimesOk(history) && EndpointsOk(history)
    }

    // calloc, and the minimum at ULONG_MAX
    constructor ()
      ensures Valid() && history == [] && fresh(byMethod) && fresh(byStatus) && fresh(endpoints)
    {
      totalRequests, errors4xx, errors5xx, totalDurationMs, endpointCount := 0, 0, 0, 0, 0;
      minDurationMs, maxDurationMs, history := ULONG_MAX as Duration, 0, [];
      byMethod := new nat[METHODS](_ => 0);
      byStatus := new nat[STATUSES](_ => 0);
      endpoints := new Endpoint[SLOTS](_ => Endpoint("", 0, 0));
    }

    // The counters by method and by status, and the errors.
    method CountHit(h: Hit, ghost hits: seq<Hit>)
      requires CountersOk(hits)
      modifies this`errors4xx, this`errors5xx, byMethod, byStatus
      ensures CountersOk(hits + [h])
    {
      assert (hits + [h])[..|hits|] == hits;
      var m, s: nat := MethodSlot(h), StatusSlot(h);
      byMethod[m] := byMethod[m] + 1;
      byStatus[s] := byStatus[s] + 1;
      if 400 <= h.status < 500 {
        errors4xx := errors4xx + 1;
      }
      if 500 <= h.status < 600 {
        errors5xx := errors5xx + 1;
      }
    }

    method TimeHit(h: Hit, ghost hits: seq<Hit>)
      requires TimesOk(hits)
      modifies this`totalDurationMs, this`minDurationMs, this`maxDurationMs
      ensures TimesOk(hits + [h])
    {
      hide TotalMs, Extremes;
      TotalMsStep(hits, h);
      ExtremesStep(hits, h, minDurationMs, maxDurationMs);
      totalDurationMs := totalDurationMs + h.ms as nat;
      if h.ms < minDurationMs {
        minDurationMs := h.ms;
      }
      if h.ms > maxDurationMs {
        maxDurationMs := h.ms;
      }
    }

    method EndpointHit(h: Hit, ghost hits: seq<Hit>)
      requires EndpointsOk(hits)
      modifies this`endpointCount, endpoints
      ensures EndpointsOk(hits + [h])
    {
      hide Slots, Find;
      SlotsStep(hits, h);
      ghost var slots := endpoints[..endpointCount];
      for i := 0 to endpointCount
        invariant EndpointsOk(hits) && endpoints[..endpointCount] == slots
        invariant forall j :: 0 <= j < i ==> endpoints[j].path != h.url
      {
        if endpoints[i].path == h.url {
          assert slots[i].path == h.url && forall j :: 0 <= j < i ==> slots[j].path != h.url;
          endpoints[i] := Endpoint(endpoints[i].path, endpoints[i].count + 1, endpoints[i].totalMs + h.ms as nat);
          assert endpoints[..endpointCount] == slots[i := endpoints[i]] == Recorded(slots, h);
          return;
        }
      }
      assert forall j :: 0 <= j < |slots| ==> slots[j].path != h.url;
      if endpointCount < SLOTS {
        endpoints[endpointCount] := Endpoint(Stored(h.url), 1, h.ms as nat);
        endpointCount := endpointCount + 1;
        assert endpoints[..endpointCount] == slots + [endpoints[endpointCount - 1]];
      }
    }

    // update_metrics
    method Update(h: Hit)
      requires Valid()
      modifies this, byMethod, byStatus, endpoints
      ensures Valid() && history == old(history) + [h]
    {
      hide Tally, TotalMs, Extremes, Slots;
      totalRequests := totalRequests + 1;
      CountHit(h, history);
      TimeHit(h, history);
      EndpointHit(h, history);
      history := history + [h];
    }

    // The counters of each kind add up to the total, and the average lies between the extremes.
    lemma Totals()
      requires Valid()
      ensures Sum(byMethod[..]) == totalRequests == Sum(byStatus[..])
      ensures errors4xx == byStatus[3] && errors5xx == byStatus[4] && byStatus[6] == 0
      ensures totalRequests > 0 ==>
                minDurationMs as nat * totalRequests <= totalDurationMs <= maxDurationMs as nat * totalRequests
    {
      TallySum(history, MethodSlot, byMethod[..]);
      TallySum(history, StatusSlot, byStatus[..]);
      NeverUsed(history);
      Average(history, minDurationMs as nat, maxDurationMs as nat);
    }

    // When the endpoint table is exact, and when its counts add up to the total.
    lemma EndpointTotals()
      requires Valid()
      ensures SlotsExact(endpoints[..endpointCount], history) <==> NoLongSlot(history)
      ensures Counts(endpoints[..endpointCount]) == totalRequests <==>
                forall i :: 0 <= i < |history| ==> !LostAt(history, i)
      ensures NoLongSlot(history) ==>
                (Counts(endpoints[..endpointCount]) == totalRequests <==> |Urls(history)| <= 64)
    {
      SlotsExactIff(history);
      CountsComplete(history);
    }
  }

  // The seventh status counter is never used: anything unknown goes to the sixth.
  lemma {:induction false} NeverUsed(hits: seq<Hit>)
    ensures Tally(hits, StatusSlot, 6) == 0
  {
    if hits != [] { NeverUsed(hits[..|hits| - 1]); }
  }
}
