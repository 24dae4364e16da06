/** A whole multipart upload, from the first call of mhd_handler to the one that runs the handler. */
module MultipartRun {
  import opened Multipart
  import opened Options
  import Results = MultipartResults

  // One upload call: its size, the iterator calls it brings about, and whether the body parses.
  datatype Chunk = Chunk(size: nat, events: seq<Event>, wellFormed: bool)

  const START := Progress([], None)

  function Events(chunks: seq<Chunk>): seq<Event> {
    if chunks == [] then [] else Events(chunks[..|chunks| - 1]) + chunks[|chunks| - 1].events
  }

  function Size(chunks: seq<Chunk>): nat {
    if chunks == [] then 0 else Size(chunks[..|chunks| - 1]) + chunks[|chunks| - 1].size
  }

  predicate WellFormed(chunks: seq<Chunk>) {
    forall i :: 0 <= i < |chunks| ==> chunks[i].wellFormed
  }

  // mkstemp never comes up with a name twice.
  predicate NewNames(events: seq<Event>) {
    && (forall i :: 0 <= i < |events| && events[i].system.tmpFile.Some? ==> events[i].system.tmpFile.value != "")
    && forall i, j :: 0 <= i < j < |events| && events[i].system.tmpFile.Some? ==>
         events[i].system.tmpFile != events[j].system.tmpFile
  }

  // Nothing fails and the body is within the cap.
  predicate Smooth(chunks: seq<Chunk>, max: nat) {
    WellFormed(chunks) && CleanRun(START, Events(chunks)) && Size(chunks) <= max
  }

  lemma SmoothStart(max: nat)
    ensures Events([]) == [] && Size([]) == 0 && Steps(START, []) == START && Smooth([], max)
  {
  }

  lemma SmoothStep(chunks: seq<Chunk>, k: nat, max: nat)
    requires k < |chunks|
    ensures var before, after, c := chunks[..k], chunks[..k + 1], chunks[k];
      && Events(after) == Events(before) + c.events && Size(after) == Size(before) + c.size
      && Steps(START, Events(after)) == Steps(Steps(START, Events(before)), c.events)
      && TmpPaths(Events(before)) + TmpPaths(c.events) <= TmpPaths(Events(after))
      && (Smooth(after, max) ==>
            Smooth(before, max) && c.wellFormed && CleanRun(Steps(START, Events(before)), c.events)
            && Size(after) <= max)
  {
    var before, after, c := chunks[..k], chunks[..k + 1], chunks[k];
    assert after[..k] == before && after[k] == c;
    StepsConcat(START, Events(before), c.events);
    CleanConcat(START, Events(before), c.events);
    TmpPathsConcat(Events(before), c.events);
    assert WellFormed(after) ==> WellFormed(before) && c.wellFormed;
  }

  lemma TmpPathsConcat(a: seq<Event>, b: seq<Event>)
    ensures TmpPaths(a + b) == TmpPaths(a) + TmpPaths(b)
  {
    var all := a + b;
    assert forall i :: 0 <= i < |a| ==> all[i] == a[i];
    assert forall i :: 0 <= i < |b| ==> all[|a| + i] == b[i];
  }

  lemma {:induction false} NamesOfChunk(chunks: seq<Chunk>, k: nat)
    requires k < |chunks| && NewNames(Events(chunks))
    ensures NewNames(Events(chunks[..k]) + chunks[k].events)
    decreases |chunks| - k
  {
    if k + 1 == |chunks| {
      assert chunks[..k + 1] == chunks;
    } else {
      NamesOfChunk(chunks, k + 1);
      var more := Events(chunks[..k + 1]) + chunks[k + 1].events;
      assert chunks[..k + 1][..k] == chunks[..k];
      var upto := Events(chunks[..k + 1]);
      assert upto == Events(chunks[..k]) + chunks[k].events;
      assert forall i :: 0 <= i < |upto| ==> more[i] == upto[i];
    }
  }

  // Names that are new to a run are new to the disk.
  lemma NamesNew(req: Request, before: seq<Event>, events: seq<Event>)
    requires NewNames(before + events) && req.disk.Keys <= TmpPaths(before)
    ensures req.NewPaths(events)
  {
    var all := before + events;
    assert forall i :: 0 <= i < |before| ==> all[i] == before[i];
    forall i | 0 <= i < |events| ensures req.NewPath(events[i].system.tmpFile) {
      assert all[|before| + i] == events[i];
    }
    forall i, j | 0 <= i < j < |events| && events[i].system.tmpFile.Some?
      ensures events[i].system.tmpFile != events[j].system.tmpFile
    {
      assert all[|before| + i] == events[i] && all[|before| + j] == events[j];
    }
  }

  // Over every run: the 413 flag is clear only if the whole body was taken and fits; the temp files are
  // those of the uploads; and when nothing fails the form and the uploads are those of the parts sent, and a
  // value buffer is never freed exactly when they end in one.
  method Receive(max: nat, chunks: seq<Chunk>, settle: Memory) returns (req: Request)
    requires NewNames(Events(chunks))
    ensures fresh(req) && req.Ready() && req.field == null && req.disk.Keys == Paths(req.files)
    ensures Size(chunks) > max ==> req.tooLarge
    ensures Smooth(chunks, max) && MemoryHolds(settle) ==>
      var parts := Finished(Steps(START, Events(chunks)));
      && !req.tooLarge && FormOk(req.form, parts) && FilesOk(req.files, parts, req.disk)
      && (req.leaked <==> HoldsBuffer(parts))
      && (Results.Plain(parts) ==> req.form == Results.SentFields(parts))
  {
    hide Results.Plain, Results.SentFields, FormOk, FilesOk, Paths, HoldsBuffer, TmpPaths, Smooth, NewNames;
    hide Request.Valid, Request.NewPaths;
    SmoothStart(max);
    req := new Request(max, true, true, true);
    assert chunks[..0] == [];
    for k := 0 to |chunks|
      invariant fresh(req) && req.max == max && req.Ready() && req.isMultipart && !req.leaked
      invariant req.field != null && fresh(req.field) && (req.field.value == null || fresh(req.field.value))
      invariant req.disk.Keys <= TmpPaths(Events(chunks[..k]))
      invariant if req.processor then !req.tooLarge && req.bodyLength == Size(chunks[..k]) <= max else req.tooLarge
      invariant Smooth(chunks[..k], max) ==> req.smooth
      invariant req.smooth ==> req.processor && req.Seen() == Steps(START, Events(chunks[..k]))
    {
      SmoothStep(chunks, k, max);
      NamesOfChunk(chunks, k);
      if req.processor {
        NamesNew(req, Events(chunks[..k]), chunks[k].events);
        req.Upload(chunks[k].size, chunks[k].events, chunks[k].wellFormed);
      }
    }
    assert chunks[..|chunks|] == chunks;
    req.Finish(settle);
    ghost var parts := Finished(Steps(START, Events(chunks)));
    if FormOk(req.form, parts) && Results.Plain(parts) {
      Results.FormAsSent(req.form, parts);
    }
  }
}
