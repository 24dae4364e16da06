/** Multipart uploads: parts streamed to temp files or memory, settled one after the other, and cleaned up. */
module Multipart {
  import opened KeyValues
  import opened MultipartField
  import opened Options

  datatype FileUpload = FileUpload(
    fieldName: string, filename: Option<string>, contentType: Option<string>, tmpPath: string, size: nat)

  // What the system answers while a part is settled and while the next one starts and grows.
  datatype Memory = Memory(node: bool, fieldName: bool, filename: bool, contentType: bool, tmpPath: bool, kv: bool)
  datatype System = System(settle: Memory, tmpFile: Option<string>, fdopen: bool, filename: bool, contentType: bool,
                           written: bool, realloc: bool)

  // A call of the iterator.
  datatype Event = Event(key: Option<string>, filename: Option<string>, contentType: Option<string>,
                         data: string, off: nat, system: System)

  predicate MemoryHolds(m: Memory) {
    m.node && m.fieldName && m.filename && m.contentType && m.tmpPath && m.kv
  }

  predicate SystemHolds(s: System) {
    MemoryHolds(s.settle) && s.tmpFile.Some? && s.fdopen && s.filename && s.contentType && s.written && s.realloc
  }

  // ---------------------------------------------------------------- temp files

  function Paths(files: seq<FileUpload>): set<string> {
    set i | 0 <= i < |files| :: files[i].tmpPath
  }

  // The temp files on disk are those of the uploads, all different, and apart from them the current field's.
  ghost predicate Conserved(files: seq<FileUpload>, disk: map<string, string>, tmpPath: string) {
    && (forall i, j :: 0 <= i < j < |files| ==> files[i].tmpPath != files[j].tmpPath)
    && "" !in Paths(files) && tmpPath !in Paths(files)
    && disk.Keys == Paths(files) + if tmpPath != "" then {tmpPath} else {}
  }

  lemma PathsOf(files: seq<FileUpload>)
    ensures forall i :: 0 <= i < |files| ==> files[i].tmpPath in Paths(files)
  {
  }

  lemma OnDisk(files: seq<FileUpload>, disk: map<string, string>, tmpPath: string)
    requires Conserved(files, disk, tmpPath) && tmpPath != ""
    ensures tmpPath in disk
  {
  }

  lemma PathsPush(f: FileUpload, files: seq<FileUpload>)
    ensures Paths([f] + files) == {f.tmpPath} + Paths(files)
  {
    var all := [f] + files;
    assert all[0] == f && forall i :: 0 <= i < |files| ==> all[i + 1] == files[i];
  }

  lemma TakenOver(f: FileUpload, files: seq<FileUpload>, disk: map<string, string>)
    requires f.tmpPath != "" && Conserved(files, disk, f.tmpPath)
    ensures Conserved([f] + files, disk, "")
  {
    PathsPush(f, files);
    PathsOf(files);
  }

  lemma Unlinked(files: seq<FileUpload>, disk: map<string, string>, tmpPath: string)
    requires Conserved(files, disk, tmpPath)
    ensures Conserved(files, disk - {tmpPath}, "") && (tmpPath == "" ==> disk - {tmpPath} == disk)
  {
    assert (disk - {tmpPath}).Keys == disk.Keys - {tmpPath};
  }

  lemma Freed(files: seq<FileUpload>, disk: map<string, string>)
    requires files != [] && Conserved(files, disk, "")
    ensures Conserved(files[1..], disk - {files[0].tmpPath}, "")
  {
    PathsPush(files[0], files[1..]);
    assert files == [files[0]] + files[1..];
    assert (disk - {files[0].tmpPath}).Keys == disk.Keys - {files[0].tmpPath};
    forall i | 0 <= i < |files[1..]| ensures files[1..][i].tmpPath != files[0].tmpPath {
      assert files[1..][i] == files[i + 1];
    }
  }

  lemma NoneLeft(disk: map<string, string>)
    requires Conserved([], disk, "")
    ensures disk == map[]
  {
    assert Paths([]) == {};
  }

  lemma Created(files: seq<FileUpload>, disk: map<string, string>, path: string, content: string)
    requires path != "" && (Conserved(files, disk, path) || (Conserved(files, disk, "") && path !in disk))
    ensures Conserved(files, disk[path := content], path)
  {
  }

  // ---------------------------------------------------------------- the parts of a run of events

  // The parts settled, and the one being received.
  datatype Progress = Progress(done: seq<Part>, current: Option<Part>)

  function Finished(p: Progress): seq<Part> {
    p.done + match p.current case Some(part) => [part] case None => []
  }

  function NewPart(e: Event): Part
    requires e.key.Some?
  {
    if e.filename.Some? then FilePart(e.key.value, e.data, e.filename, e.contentType) else TextPart(e.key.value, e.data)
  }

  function Extended(part: Part, data: string): Part {
    match part
    case TextPart(name, d) => TextPart(name, d + data)
    case FilePart(name, d, filename, contentType) => FilePart(name, d + data, filename, contentType)
  }

  function Step(p: Progress, e: Event): Progress {
    if e.key.None? then p
    else if e.off == 0 then Progress(Finished(p), Some(NewPart(e)))
    else match p.current case Some(part) => Progress(p.done, Some(Extended(part, e.data))) case None => p
  }

  // Nothing goes wrong in this call: no failure, and no continuation of a part that was never begun.
  predicate Clean(p: Progress, e: Event) {
    e.key.None? || (SystemHolds(e.system) && (e.off == 0 || p.current.Some?))
  }

  function Steps(p: Progress, events: seq<Event>): Progress {
    if events == [] then p else Step(Steps(p, events[..|events| - 1]), events[|events| - 1])
  }

  predicate CleanRun(p: Progress, events: seq<Event>) {
    forall i :: 0 <= i < |events| ==> CleanAt(p, events, i)
  }

  predicate CleanAt(p: Progress, events: seq<Event>, i: nat)
    requires i < |events|
  {
    Clean(Steps(p, events[..i]), events[i])
  }

  // Where the upload calls cut the events makes no difference.
  lemma {:induction false} StepsConcat(p: Progress, a: seq<Event>, b: seq<Event>)
    ensures Steps(p, a + b) == Steps(Steps(p, a), b)
  {
    if b == [] {
      assert a + b == a;
    } else {
      StepsConcat(p, a, b[..|b| - 1]);
      assert (a + b)[..|a + b| - 1] == a + b[..|b| - 1];
    }
  }

  lemma CleanAtConcat(p: Progress, a: seq<Event>, b: seq<Event>, i: nat)
    requires i < |a + b|
    ensures CleanAt(p, a + b, i) == if i < |a| then CleanAt(p, a, i) else CleanAt(Steps(p, a), b, i - |a|)
  {
    hide Clean, Steps;
    if i < |a| {
      assert (a + b)[..i] == a[..i];
    } else {
      StepsConcat(p, a, b[..i - |a|]);
      assert (a + b)[..i] == a + b[..i - |a|];
    }
  }

  lemma CleanConcat(p: Progress, a: seq<Event>, b: seq<Event>)
    ensures CleanRun(p, a + b) <==> CleanRun(p, a) && CleanRun(Steps(p, a), b)
  {
    hide CleanAt, Steps;
    if CleanRun(p, a + b) {
      forall i | 0 <= i < |a| ensures CleanAt(p, a, i) {
        CleanAtConcat(p, a, b, i);
      }
      forall i | 0 <= i < |b| ensures CleanAt(Steps(p, a), b, i) {
        CleanAtConcat(p, a, b, |a| + i);
      }
    }
    if CleanRun(p, a) && CleanRun(Steps(p, a), b) {
      forall i | 0 <= i < |a + b| ensures CleanAt(p, a + b, i) {
        CleanAtConcat(p, a, b, i);
      }
    }
  }

  function DataOf(events: seq<Event>): string {
    if events == [] then "" else DataOf(events[..|events| - 1]) + events[|events| - 1].data
  }

  // A part is the concatenation of the data of its calls, whatever their number; a file if its first call has a
  // file name; and the part before it is done.
  lemma {:induction false} PartReceived(p: Progress, e: Event, more: seq<Event>)
    requires e.key.Some? && e.off == 0
    requires forall i :: 0 <= i < |more| ==> more[i].key.Some? && more[i].off > 0
    ensures var p', data := Steps(p, [e] + more), e.data + DataOf(more);
      && p'.done == p.done + (if p.current.Some? then [p.current.value] else [])
      && p'.current == Some(if e.filename.Some? then FilePart(e.key.value, data, e.filename, e.contentType)
                            else TextPart(e.key.value, data))
  {
    var all := [e] + more;
    if more == [] {
      assert all == [e] && all[..0] == [];
      assert e.data + "" == e.data;
    } else {
      var front, last := more[..|more| - 1], more[|more| - 1];
      PartReceived(p, e, front);
      assert all[..|all| - 1] == [e] + front;
      assert e.data + DataOf(front) + last.data == e.data + (DataOf(front) + last.data);
    }
  }

  // The part of Clean that concerns the start of a part.
  predicate CleanStart(p: Progress, e: Event)
    requires e.key.Some?
  {
    && (p.current.Some? ==> MemoryHolds(e.system.settle))
    && (e.filename.Some? ==> e.system.tmpFile.Some? && e.system.fdopen && e.system.filename && e.system.contentType)
  }

  // ---------------------------------------------------------------- what a run of parts comes to

  predicate Nameless(part: Part) {
    part.TextPart? && part.name == ""
  }

  // value_len after these parts: it is reset by a text with a name only.
  function Carry(parts: seq<Part>): nat {
    if parts == [] then 0
    else
      var before, part := parts[..|parts| - 1], parts[|parts| - 1];
      if part.FilePart? then |part.data| else if Nameless(part) then Carry(before) + |part.data| else 0
  }

  // The value buffer these parts may leave: it is given up by a text with a name only.
  ghost predicate Leaves(parts: seq<Part>, buffer: Option<string>)
    decreases |parts|, 0
  {
    if parts == [] then buffer == None
    else
      var before, part := parts[..|parts| - 1], parts[|parts| - 1];
      if part.FilePart? then Leaves(before, buffer)
      else if Nameless(part) then Fills(before, part.data, buffer)
      else buffer == None
  }

  // The value buffer while a text is received after these parts: written behind value_len.
  ghost predicate Fills(parts: seq<Part>, data: string, buffer: Option<string>)
    decreases |parts|, 1
  {
    if data == "" then Leaves(parts, buffer)
    else exists before: Option<string> :: Leaves(parts, before) && Written(before, Carry(parts), data, buffer)
  }

  lemma FillsNothing(parts: seq<Part>, buffer: Option<string>)
    ensures Fills(parts, "", buffer) == Leaves(parts, buffer)
  {
  }

  lemma FillsMore(parts: seq<Part>, data: string, buffer: Option<string>, more: string, buffer': Option<string>)
    requires Fills(parts, data, buffer) && more != "" && Written(buffer, Carry(parts) + |data|, more, buffer')
    ensures Fills(parts, data + more, buffer')
  {
    if data == "" {
      assert data + more == more;
    } else {
      var before: Option<string> :| Leaves(parts, before) && Written(before, Carry(parts), data, buffer);
      WrittenTwice(before, Carry(parts), data, buffer, more, buffer');
    }
  }

  // A non-empty text part without a name, and no text part with a name after it.
  predicate HoldsBuffer(parts: seq<Part>) {
    exists i :: 0 <= i < |parts| && HoldsFrom(parts, i)
  }

  predicate HoldsFrom(parts: seq<Part>, i: nat)
    requires i < |parts|
  {
    && Nameless(parts[i]) && parts[i].data != ""
    && forall j :: i < j < |parts| ==> parts[j].FilePart? || Nameless(parts[j])
  }

  // Parts leave a value buffer behind exactly then.
  lemma {:induction false} BufferHeld(parts: seq<Part>, buffer: Option<string>)
    requires Leaves(parts, buffer)
    ensures buffer.Some? <==> HoldsBuffer(parts)
  {
    if parts != [] {
      var n := |parts| - 1;
      var before, part := parts[..n], parts[n];
      HoldsStep(before, part);
      assert parts == before + [part];
      if part.FilePart? || (Nameless(part) && part.data == "") {
        BufferHeld(before, buffer);
      }
    }
  }

  lemma HoldsStep(before: seq<Part>, part: Part)
    ensures HoldsBuffer(before + [part]) <==>
              (Nameless(part) && part.data != "") || ((part.FilePart? || Nameless(part)) && HoldsBuffer(before))
  {
    var parts, n := before + [part], |before|;
    assert parts[n] == part && forall i :: 0 <= i < n ==> parts[i] == before[i];
    assert HoldsFrom(parts, n) == (Nameless(part) && part.data != "");
    forall i | 0 <= i < n ensures HoldsFrom(parts, i) == (HoldsFrom(before, i) && (part.FilePart? || Nameless(part))) {
      if HoldsFrom(parts, i) {
        assert forall j :: i < j < n ==> parts[j] == before[j];
        assert parts[n].FilePart? || Nameless(parts[n]);
      }
    }
  }

  // A form field for each text part with a name, in body order: what its buffer holds.
  ghost predicate FormOk(form: seq<KeyValue>, parts: seq<Part>) {
    if parts == [] then form == []
    else
      var before, part := parts[..|parts| - 1], parts[|parts| - 1];
      if part.FilePart? || Nameless(part) then FormOk(form, before)
      else
        && form != [] && FormOk(form[..|form| - 1], before)
        && form[|form| - 1].key == Truncated(part.name)
        && exists buffer: Option<string> ::
             Fills(before, part.data, buffer) && form[|form| - 1].value == CString(buffer)
  }

  // An upload for each file part, newest first, its content on disk.
  ghost predicate FilesOk(files: seq<FileUpload>, parts: seq<Part>, disk: map<string, string>) {
    if parts == [] then files == []
    else
      var before, part := parts[..|parts| - 1], parts[|parts| - 1];
      if part.TextPart? then FilesOk(files, before, disk)
      else files != [] && Uploaded(files[0], part, disk) && FilesOk(files[1..], before, disk)
  }

  ghost predicate Uploaded(f: FileUpload, part: Part, disk: map<string, string>)
    requires part.FilePart?
  {
    && f.fieldName == Truncated(part.name) && f.filename == part.filename && f.contentType == part.contentType
    && f.size == |part.data| && f.tmpPath in disk && disk[f.tmpPath] == part.data
  }

  lemma {:induction false} FilesOkFrame(files: seq<FileUpload>, parts: seq<Part>, disk: map<string, string>,
                                        disk': map<string, string>)
    requires FilesOk(files, parts, disk)
    requires forall path :: path in Paths(files) && path in disk ==> path in disk' && disk'[path] == disk[path]
    ensures FilesOk(files, parts, disk')
  {
    if parts != [] {
      var before, part := parts[..|parts| - 1], parts[|parts| - 1];
      if part.FilePart? {
        PathsPush(files[0], files[1..]);
        assert files == [files[0]] + files[1..];
        FilesOkFrame(files[1..], before, disk, disk');
      } else {
        FilesOkFrame(files, before, disk, disk');
      }
    }
  }

  lemma FilesOkWrite(files: seq<FileUpload>, parts: seq<Part>, disk: map<string, string>, path: string, content: string)
    requires Conserved(files, disk, path) || (Conserved(files, disk, "") && path !in disk)
    requires FilesOk(files, parts, disk)
    ensures FilesOk(files, parts, disk[path := content])
  {
    FilesOkFrame(files, parts, disk, disk[path := content]);
  }

  // A settled file part: neither value_len nor the buffer are reset.
  lemma FileSettled(form: seq<KeyValue>, f: FileUpload, files: seq<FileUpload>, parts: seq<Part>, part: Part,
                    disk: map<string, string>, buffer: Option<string>)
    requires FormOk(form, parts) && FilesOk(files, parts, disk) && part.FilePart? && Uploaded(f, part, disk)
    requires Leaves(parts, buffer)
    ensures FormOk(form, parts + [part]) && FilesOk([f] + files, parts + [part], disk)
    ensures Leaves(parts + [part], buffer) && Carry(parts + [part]) == |part.data|
  {
    assert (parts + [part])[..|parts|] == parts && ([f] + files)[1..] == files;
  }

  // A settled text part with a name.
  lemma TextSettled(form: seq<KeyValue>, files: seq<FileUpload>, parts: seq<Part>, part: Part,
                    disk: map<string, string>, buffer: Option<string>)
    requires FormOk(form, parts) && FilesOk(files, parts, disk) && part.TextPart? && !Nameless(part)
    requires Fills(parts, part.data, buffer)
    ensures FormOk(form + [KeyValue(Truncated(part.name), CString(buffer))], parts + [part])
    ensures FilesOk(files, parts + [part], disk)
    ensures Leaves(parts + [part], None) && Carry(parts + [part]) == 0
  {
    var form' := form + [KeyValue(Truncated(part.name), CString(buffer))];
    assert (parts + [part])[..|parts|] == parts && form'[..|form|] == form;
  }

  // A text part without a name is not stored, and what it wrote stays.
  lemma NamelessSettled(form: seq<KeyValue>, files: seq<FileUpload>, parts: seq<Part>, part: Part,
                        disk: map<string, string>, buffer: Option<string>)
    requires FormOk(form, parts) && FilesOk(files, parts, disk) && Nameless(part) && Fills(parts, part.data, buffer)
    ensures FormOk(form, parts + [part]) && FilesOk(files, parts + [part], disk)
    ensures Leaves(parts + [part], buffer) && Carry(parts + [part]) == Carry(parts) + |part.data|
  {
    assert (parts + [part])[..|parts|] == parts;
  }

  // The names mkstemp comes up with during these calls.
  function TmpPaths(events: seq<Event>): set<string> {
    set i | 0 <= i < |events| && events[i].system.tmpFile.Some? :: events[i].system.tmpFile.value
  }

  lemma TmpPathsPush(events: seq<Event>, e: Event)
    ensures TmpPaths(events + [e]) == TmpPaths(events) + if e.system.tmpFile.Some? then {e.system.tmpFile.value} else {}
  {
    var all := events + [e];
    assert all[|events|] == e && forall i :: 0 <= i < |events| ==> all[i] == events[i];
  }

  lemma TmpPathsMonotone(events: seq<Event>, n: nat)
    requires n <= |events|
    ensures TmpPaths(events[..n]) <= TmpPaths(events)
  {
  }

  class Request {
    const max: nat
    var isMultipart: bool
    var processor: bool
    var field: Field?
    var bodyLength: nat
    var tooLarge: bool
    var form: seq<KeyValue>
    var files: seq<FileUpload>
    var fileCount: nat
    // the request's temp files, the parts settled so far, whether nothing has gone wrong, and whether a
    // value buffer was forgotten
    ghost var disk: map<string, string>
    ghost var leaked: bool
    ghost var parts: seq<Part>
    ghost var smooth: bool

    ghost function TmpPath(): string
      reads this, field
    {
      if field != null then field.tmpPath else ""
    }

    ghost predicate Kept()
      reads this, field, if field != null then {field.value} else {}
    {
      && (field != null ==> field.Valid())
      && (processor ==> field != null) && (!processor ==> TmpPath() == "" && (field != null ==> field.Idle()))
      && fileCount == |files| && Conserved(files, disk, TmpPath())
      && (smooth ==> FormOk(form, parts) && FilesOk(files, parts, disk))
    }

    ghost predicate Valid()
      reads this, field, if field != null then {field.value} else {}
    {
      Kept() && (smooth && field != null ==> processor && FieldOk())
    }

    // A file part that could not be created ends the processing of the body.
    ghost predicate Ready()
      reads this, field, if field != null then {field.value} else {}
    {
      Valid() && (field != null && field.isFile ==> field.tmpPath != "")
    }

    // The field, as long as nothing has gone wrong.
    ghost predicate FieldOk()
      requires field != null
      reads `field, `parts, `disk, field, field.value
    {
      if !field.active then
        field.Idle() && field.start == Carry(parts) && Leaves(parts, field.Buffer()) && field.part == TextPart("", "")
      else
        && field.key == Truncated(field.part.name) && field.isFile == field.part.FilePart?
        && (field.isFile ==>
              && Leaves(parts, field.Buffer()) && field.open && field.tmpPath in disk
              && disk[field.tmpPath] == field.part.data
              && field.filename == field.part.filename && field.contentType == field.part.contentType)
        && (!field.isFile ==> field.start == Carry(parts) && Fills(parts, field.part.data, field.Buffer()))
    }

    // mkstemp creates a file that was not there.
    ghost predicate NewPath(path: Option<string>)
      reads this
    {
      path.Some? ==> path.value != "" && path.value !in disk
    }

    ghost function Seen(): Progress
      reads this, field
    {
      Progress(parts, if field == null || !field.active then None else Some(field.part))
    }

    // The first call of mhd_handler; the field and the post-processor may fail to be allocated.
    constructor (max: nat, multipart: bool, fieldOk: bool, processorOk: bool)
      ensures Ready() && this.max == max && form == [] && files == [] && disk == map[] && !tooLarge && bodyLength == 0
      ensures processor == isMultipart == (multipart && fieldOk && processorOk)
      ensures smooth && Seen() == Progress([], None) && !leaked
      ensures processor == (field != null) && (field != null ==> fresh(field) && field.value == null)
    {
      this.max, isMultipart, processor, field := max, false, false, null;
      bodyLength, tooLarge, form, files, fileCount := 0, false, [], [], 0;
      disk, parts, smooth, leaked := map[], [], true, false;
      new;
      if multipart && fieldOk && processorOk {
        field := new Field();
        isMultipart, processor := true, true;
      }
    }

    // The file is closed, and the upload takes it over, or it is unlinked.
    method KeepFile(commit: bool, m: Memory)
      requires Valid() && field != null && field.isFile && (commit ==> field.tmpPath != "")
      modifies this`files, this`fileCount, this`disk, field`open
      ensures field.Valid() && !field.open && fileCount == |files|
      ensures Conserved(files, disk, "") && disk.Keys <= old(disk.Keys)
      ensures var kept := commit && m.node && m.fieldName && m.tmpPath;
        files == if kept then
                   [FileUpload(field.key, if m.filename then field.filename else None,
                               if m.contentType then field.contentType else None, field.tmpPath, field.valueLen)]
                   + old(files)
                 else old(files)
      ensures smooth && commit && MemoryHolds(m) ==>
        && field.active && FormOk(form, parts + [field.part]) && FilesOk(files, parts + [field.part], disk)
        && Leaves(parts + [field.part], field.Buffer()) && Carry(parts + [field.part]) == field.valueLen
    {
      hide Truncated, FormOk, FilesOk, Conserved, Paths, Leaves, Fills, Carry, Written;
      ghost var was := smooth && commit && MemoryHolds(m);
      field.open := false;
      if commit && m.node && m.fieldName && m.tmpPath {
        var f := FileUpload(field.key, if m.filename then field.filename else None,
                            if m.contentType then field.contentType else None, field.tmpPath, field.valueLen);
        TakenOver(f, files, disk);
        if was {
          FileSettled(form, f, files, parts, field.part, disk, field.Buffer());
        }
        files, fileCount := [f] + files, fileCount + 1;
      } else {
        Unlinked(files, disk, field.tmpPath);
        if field.tmpPath != "" {
          disk := disk - {field.tmpPath};
        }
      }
    }

    // multipart_proc_current_field on a file.
    method SettleFile(commit: bool, m: Memory)
      requires Valid() && field != null && field.isFile && (commit ==> field.tmpPath != "")
      modifies this`files, this`fileCount, this`disk, this`parts, this`smooth, field
      ensures Valid() && field.Idle() && !field.active && TmpPath() == "" && field.value == old(field.value)
      ensures var kept := commit && m.node && m.fieldName && m.tmpPath;
        files == if kept then
                   [FileUpload(old(field.key), if m.filename then old(field.filename) else None,
                               if m.contentType then old(field.contentType) else None,
                               old(field.tmpPath), old(field.valueLen))] + old(files)
                 else old(files)
      ensures disk.Keys <= old(disk.Keys)
      ensures smooth == (old(smooth) && commit && MemoryHolds(m))
      ensures smooth ==> parts == old(parts) + [old(field.part)]
    {
      hide FormOk, FilesOk, Conserved, Paths, Leaves, Fills, Carry, Written, Field.Valid, MemoryHolds;
      KeepFile(commit, m);
      smooth, parts := smooth && commit && MemoryHolds(m), parts + [field.part];
      field.LeaveFile();
    }

    // multipart_proc_current_field on a text with a name.
    method SettleText(commit: bool, m: Memory)
      requires Valid() && field != null && !field.isFile && !field.Idle()
      modifies this`form, this`parts, this`smooth, field
      ensures Valid() && field.Idle() && !field.active && TmpPath() == "" && field.value == null
      ensures form == old(form)
        + if commit && m.kv then [KeyValue(old(field.key), CString(old(field.Buffer())))] else []
      ensures smooth == (old(smooth) && commit && MemoryHolds(m))
      ensures smooth ==> parts == old(parts) + [old(field.part)]
    {
      hide FormOk, FilesOk, Conserved, Paths, Leaves, Fills, Carry, Written;
      ghost var was, part := smooth && commit && MemoryHolds(m), field.part;
      if commit && m.kv {
        if was {
          TextSettled(form, files, parts, part, disk, field.Buffer());
        }
        form := form + [KeyValue(field.key, CString(field.Buffer()))];
      }
      smooth, parts := was, parts + [part];
      field.LeaveText();
    }

    // Nothing is done where there is no part, nor for a text part without a name.
    ghost method SettleNothing(ok: bool)
      requires Valid() && (field != null ==> field.Idle())
      modifies this`parts, this`smooth, if field != null then {field} else {}
      ensures Ready() && TmpPath() == "" && (field != null ==> field.Idle() && !field.active)
      ensures field != null ==> field.value == old(field.value)
      ensures smooth == (old(smooth) && (old(Seen()).current.None? || ok))
      ensures smooth ==> Seen() == Progress(Finished(old(Seen())), None)
    {
      hide FormOk, FilesOk, Conserved, Paths, Leaves, Fills, Carry, Written;
      if field != null && field.active {
        smooth := smooth && ok;
        if smooth {
          NamelessSettled(form, files, parts, field.part, disk, field.Buffer());
        }
        parts := parts + [field.part];
        field.LeaveNameless();
      } else {
        if field != null { field.LeaveNameless(); }
        assert parts + [] == parts;
      }
    }

    // Settling frees the value buffer of a text with a name only.
    predicate KeepsBuffer()
      requires field != null
      reads `field, field
    {
      field.isFile || field.Idle()
    }

    // multipart_proc_current_field
    method Settle(commit: bool, m: Memory)
      requires Valid() && (commit ==> Ready())
      modifies this`form, this`files, this`fileCount, this`disk, this`parts, this`smooth, field
      ensures Ready() && TmpPath() == "" && (field != null ==> field.Idle() && !field.active)
      ensures field != null ==> field.value == if old(KeepsBuffer()) then old(field.value) else null
      ensures disk.Keys <= old(disk.Keys)
      ensures !commit ==> form == old(form) && files == old(files)
      ensures smooth == (old(smooth) && (old(Seen()).current.None? || (commit && MemoryHolds(m))))
      ensures smooth ==> Seen() == Progress(Finished(old(Seen())), None)
    {
      hide FormOk, FilesOk, Conserved, Paths, Leaves, Fills, Carry, Written;
      if field == null || field.Idle() {
        SettleNothing(commit && MemoryHolds(m));
        return;
      }
      if field.isFile {
        SettleFile(commit, m);
      } else {
        SettleText(commit, m);
      }
    }

    // The temp file of a new file part.
    method OpenTemp(tmpFile: Option<string>, fdopen: bool) returns (ok: bool)
      requires Kept() && processor && field.isFile && TmpPath() == "" && field.part.data == "" && NewPath(tmpFile)
      modifies this`disk, field`tmpPath, field`open
      ensures Kept() && ok == (tmpFile.Some? && fdopen)
      ensures disk.Keys <= old(disk.Keys) + if ok then {tmpFile.value} else {}
      ensures ok ==> field.open && field.tmpPath == tmpFile.value && field.tmpPath in disk && disk[field.tmpPath] == ""
    {
      hide FormOk, FilesOk, Conserved, Paths, Leaves, Fills, Carry, Written;
      if tmpFile.None? {
        return false;
      }
      var path := tmpFile.value;
      Created(files, disk, path, "");
      if smooth {
        FilesOkWrite(files, parts, disk, path, "");
      }
      ghost var before := disk;
      disk, field.tmpPath := disk[path := ""], path;
      if !fdopen {
        Unlinked(files, disk, path);
        assert disk - {path} == before;
        disk, field.tmpPath := disk - {path}, "";
        return false;
      }
      field.open := true;
      ok := true;
    }

    // The next part begins, and a file gets its temp file.
    method BeginPart(e: Event) returns (ok: bool)
      requires Ready() && processor && field.Idle() && !field.active && TmpPath() == ""
      requires e.key.Some? && e.off == 0 && NewPath(e.system.tmpFile)
      requires smooth && e.filename.Some? ==>
        e.system.tmpFile.Some? && e.system.fdopen && e.system.filename && e.system.contentType
      modifies this`disk, field
      ensures Valid() && (ok ==> Ready()) && field.value == old(field.value)
      ensures disk.Keys <= old(disk.Keys) + if e.system.tmpFile.Some? then {e.system.tmpFile.value} else {}
      ensures smooth ==> ok && Seen() == Progress(parts, Some(NewPart(e.(data := ""))))
    {
      hide FormOk, FilesOk, Conserved, Paths, Leaves, Fills, Carry, Written;
      FillsNothing(parts, field.Buffer());
      field.Enter(e.key.value, e.filename.Some?, if e.system.filename then e.filename else None,
                  if e.system.contentType then e.contentType else None);
      ok := true;
      if field.isFile {
        ok := OpenTemp(e.system.tmpFile, e.system.fdopen);
      }
    }

    // multipart_iterator, off == 0: the previous part is settled.
    method StartPart(e: Event) returns (ok: bool)
      requires Ready() && processor && e.key.Some? && e.off == 0 && NewPath(e.system.tmpFile)
      modifies this`form, this`files, this`fileCount, this`disk, this`parts, this`smooth, field
      ensures Valid() && (ok ==> Ready())
      ensures field.value == old(field.value) || field.value == null
      ensures disk.Keys <= old(disk.Keys) + if e.system.tmpFile.Some? then {e.system.tmpFile.value} else {}
      ensures smooth == (old(smooth) && CleanStart(old(Seen()), e))
      ensures smooth ==> ok && Seen() == Step(old(Seen()), e.(data := ""))
    {
      hide FormOk, FilesOk, Conserved, Paths, Field.Valid, Request.FieldOk;
      ghost var was := smooth && CleanStart(Seen(), e);
      Settle(true, e.system.settle);
      smooth := was;
      ok := BeginPart(e);
    }

    // multipart_iterator on the data of a file part; a failed fwrite may have written some of it.
    method WriteFile(data: string, written: bool) returns (ok: bool)
      requires Ready() && processor && field.isFile && data != ""
      modifies this`disk, this`smooth, field`valueLen, field`part
      ensures Ready() && disk.Keys == old(disk.Keys) && smooth == (old(smooth) && written)
      ensures ok == (field.open && written)
      ensures ok ==> disk[field.tmpPath] == old(disk)[field.tmpPath] + data
      ensures smooth ==> ok && Seen() == Progress(parts, Some(Extended(old(field.part), data)))
    {
      hide FormOk, FilesOk, Conserved, Paths, Leaves, Fills, Carry, Written, Truncated;
      OnDisk(files, disk, field.tmpPath);
      ghost var content: string := *;
      if field.open && written {
        content := disk[field.tmpPath] + data;
      }
      Created(files, disk, field.tmpPath, content);
      if smooth {
        FilesOkWrite(files, parts, disk, field.tmpPath, content);
      }
      smooth := smooth && written;
      if !field.open {
        return false;
      }
      disk := disk[field.tmpPath := content];
      if !written {
        return false;
      }
      field.valueLen := field.valueLen + |data|;
      field.part := Extended(field.part, data);
      ok := true;
    }

    // multipart_iterator on the data of a text part.
    method WriteText(data: string, realloc: bool) returns (ok: bool)
      requires Ready() && processor && !field.isFile && data != ""
      modifies this`smooth, field`value, field`valueCap, field`valueLen, field`part, field.value
      ensures Ready() && (field.value != old(field.value) ==> fresh(field.value))
      ensures smooth == (old(smooth) && ok && old(field.active)) && (!ok ==> !realloc)
      ensures smooth ==> Seen() == Progress(parts, Some(Extended(old(field.part), data)))
    {
      hide FormOk, FilesOk, Conserved, Paths, Leaves, Fills, Carry, Written, Truncated, Field.Valid;
      smooth := smooth && field.active;
      ghost var text, buffer := field.part.data, field.Buffer();
      ok := field.AppendText(data, realloc);
      smooth := smooth && ok;
      if smooth {
        FillsMore(parts, text, buffer, data, field.Buffer());
      }
    }

    // multipart_iterator on what a call brings of the part at hand.
    method Append(data: string, written: bool, realloc: bool) returns (ok: bool)
      requires Ready() && processor
      modifies this`disk, this`smooth, field, field.value
      ensures Ready() && (field.value != old(field.value) ==> fresh(field.value)) && disk.Keys == old(disk.Keys)
      ensures old(smooth) && old(Seen()).current.Some? && written && realloc ==> smooth
      ensures smooth ==> old(smooth) && ok
      ensures smooth ==> match old(Seen()).current
        case Some(part) => Seen() == Progress(parts, Some(Extended(part, data)))
        case None => Seen() == old(Seen())
      ensures parts == old(parts) && field.tmpPath == old(field.tmpPath)
    {
      hide FormOk, FilesOk, Conserved, Paths, Leaves, Fills, Carry, Written;
      if |data| == 0 {
        assert smooth && Seen().current.Some? ==> Extended(Seen().current.value, data) == Seen().current.value;
        return true;
      }
      if field.isFile {
        ok := WriteFile(data, written);
      } else {
        ok := WriteText(data, realloc);
      }
    }

    // multipart_iterator
    method Iterate(e: Event) returns (ok: bool)
      requires Ready() && processor && NewPath(e.system.tmpFile)
      modifies this`form, this`files, this`fileCount, this`disk, this`parts, this`smooth, field, field.value
      ensures Valid() && (ok ==> Ready())
      ensures field.value != old(field.value) ==> field.value == null || fresh(field.value)
      ensures disk.Keys <= old(disk.Keys) + if e.system.tmpFile.Some? then {e.system.tmpFile.value} else {}
      ensures old(smooth) && Clean(old(Seen()), e) ==> smooth
      ensures smooth ==> old(smooth) && ok && Seen() == Step(old(Seen()), e)
    {
      hide FormOk, FilesOk, Conserved, Paths, Field.Valid, Request.FieldOk;
      if e.key.None? {
        return true;
      }
      if e.off == 0 {
        ok := StartPart(e);
        if !ok {
          return;
        }
      }
      ok := Append(e.data, e.system.written, e.system.realloc);
      NewPartGrows(e);
    }

    ghost predicate NewPaths(events: seq<Event>)
      reads this
    {
      && (forall i :: 0 <= i < |events| ==> NewPath(events[i].system.tmpFile))
      && forall i, j :: 0 <= i < j < |events| && events[i].system.tmpFile.Some? ==>
           events[i].system.tmpFile != events[j].system.tmpFile
    }

    // MHD_post_process: the iterator runs until it fails or the chunk is used up; a malformed body fails by itself.
    method PostProcess(events: seq<Event>, wellFormed: bool) returns (ok: bool)
      requires Ready() && processor && NewPaths(events)
      modifies this`form, this`files, this`fileCount, this`disk, this`parts, this`smooth, field, field.value
      ensures Valid() && (ok ==> Ready())
      ensures field.value != old(field.value) ==> field.value == null || fresh(field.value)
      ensures disk.Keys <= old(disk.Keys) + TmpPaths(events)
      ensures old(smooth) && wellFormed && CleanRun(old(Seen()), events) ==> smooth && ok
      ensures smooth && ok ==> old(smooth) && Seen() == Steps(old(Seen()), events)
    {
      hide FormOk, FilesOk, Conserved, Paths, Step, Clean, TmpPaths, Field.Valid, Request.FieldOk;
      assert events[..0] == [];
      for i := 0 to |events|
        invariant Ready() && (field.value != old(field.value) ==> field.value == null || fresh(field.value))
        invariant forall j :: i <= j < |events| ==> NewPath(events[j].system.tmpFile)
        invariant disk.Keys <= old(disk.Keys) + TmpPaths(events[..i])
        invariant smooth ==> old(smooth) && Seen() == Steps(old(Seen()), events[..i])
        invariant old(smooth) && CleanRun(old(Seen()), events) ==> smooth
      {
        assert events[..i + 1] == events[..i] + [events[i]] && events[..i + 1][..i] == events[..i];
        TmpPathsPush(events[..i], events[i]);
        TmpPathsMonotone(events, i + 1);
        assert CleanRun(old(Seen()), events) ==> CleanAt(old(Seen()), events, i);
        var more := Iterate(events[i]);
        if !more {
          return false;
        }
      }
      assert events[..|events|] == events;
      ok := wellFormed;
    }

    // The multipart branch of an upload call; without a processor the chunk takes the other branch.
    method Upload(size: nat, events: seq<Event>, wellFormed: bool)
      requires Ready() && isMultipart && processor && NewPaths(events)
      modifies this, field, field.value
      ensures Ready() && isMultipart && field == old(field) && leaked == old(leaked)
      ensures field.value != old(field.value) ==> field.value == null || fresh(field.value)
      ensures disk.Keys <= old(disk.Keys) + TmpPaths(events)
      ensures bodyLength == old(bodyLength) + size && (!processor ==> tooLarge && TmpPath() == "")
      ensures processor ==> tooLarge == old(tooLarge) && bodyLength <= max
      ensures old(smooth) && wellFormed && CleanRun(old(Seen()), events) && old(bodyLength) + size <= max ==> smooth
      ensures smooth ==> old(smooth) && processor && Seen() == Steps(old(Seen()), events)
    {
      hide FormOk, FilesOk, Conserved, Paths, Step, Clean, CleanRun, Steps, TmpPaths, Field.Valid, Request.FieldOk;
      bodyLength := bodyLength + size;
      var ok := bodyLength <= max;
      if ok {
        ok := PostProcess(events, wellFormed);
      }
      if !ok {
        tooLarge := true;
        Abort();
      }
    }

    // The end of a body that failed: the part at hand is discarded.
    method Abort()
      requires Valid() && processor
      modifies this`form, this`files, this`fileCount, this`disk, this`parts, this`smooth, this`processor, field
      ensures disk.Keys <= old(disk.Keys)
      ensures Ready() && !processor && !smooth && TmpPath() == "" && form == old(form) && files == old(files)
      ensures field.value == old(field.value) || field.value == null
    {
      Settle(false, Memory(true, true, true, true, true, true));
      processor, smooth := false, false;
    }

    // The call of mhd_handler after the last chunk: the last part is settled and the field freed, though not
    // the value buffer it may still hold.
    method Finish(m: Memory)
      requires Ready() && (processor ==> isMultipart)
      modifies this, field
      ensures Ready() && !processor && field == null && disk.Keys == Paths(files)
      ensures tooLarge == old(tooLarge) && bodyLength == old(bodyLength)
      ensures leaked == (old(leaked) || old(field != null && field.value != null && KeepsBuffer()))
      ensures old(smooth) && MemoryHolds(m) ==> smooth
      ensures smooth ==>
        && old(smooth) && parts == Finished(old(Seen()))
        && FormOk(form, parts) && FilesOk(files, parts, disk)
        && (old(field) != null ==> (leaked <==> old(leaked) || HoldsBuffer(parts)))
    {
      hide FormOk, FilesOk, Paths, Leaves, Fills, Carry, Written, HoldsBuffer;
      if isMultipart && processor {
        Settle(true, m);
        processor := false;
      } else if field == null {
        assert parts + [] == parts;
      }
      if field != null {
        if smooth { BufferHeld(parts, field.Buffer()); }
        leaked := leaked || field.value != null;
      }
      field := null;
    }

    // request_completed: whatever happened before, no temp file is left. A value buffer may be.
    method Complete()
      requires Ready()
      modifies this, field
      ensures disk == map[] && field == null && files == []
      ensures leaked == (old(leaked) || old(field != null && field.value != null && KeepsBuffer()))
    {
      hide FormOk, FilesOk, Conserved, Paths, Leaves, Fills, Carry, Written;
      Settle(false, Memory(true, true, true, true, true, true));
      leaked := leaked || (field != null && field.value != null);
      field := null;
      // free_file_uploads
      ghost var lost := leaked;
      while files != []
        invariant field == null && leaked == lost && Conserved(files, disk, "")
        decreases |files|
      {
        Freed(files, disk);
        disk := disk - {files[0].tmpPath};
        files := files[1..];
      }
      NoneLeft(disk);
    }
  }

  lemma NewPartGrows(e: Event)
    requires e.key.Some?
    ensures Extended(NewPart(e.(data := "")), e.data) == NewPart(e)
  {
    assert "" + e.data == e.data;
  }
}
