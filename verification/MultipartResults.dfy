/** What the handler of a multipart request gets: papago_req_files and the form. */
module MultipartResults {
  import opened KeyValues
  import opened Multipart
  import opened MultipartField
  import opened Options
  import opened Splitting

  // ---------------------------------------------------------------- uploads

  // The uploads of a field, oldest first; the list is newest first.
  function Uploads(files: seq<FileUpload>, name: string): seq<FileUpload> {
    if files == [] then []
    else Uploads(files[1..], name) + if files[0].fieldName == name then [files[0]] else []
  }

  function Least(a: nat, b: nat): nat {
    if a < b then a else b
  }

  // papago_req_files
  method ReqFiles(files: seq<FileUpload>, name: string, out: array?<Option<FileUpload>>, maxOut: nat)
    returns (written: nat)
    requires out != null ==> maxOut <= out.Length
    modifies out
    ensures var all := Uploads(files, name);
      && written == (if out == null || maxOut == 0 then |all| else Least(|all|, maxOut))
      && (out != null ==>
            && (forall i :: 0 <= i < Least(|all|, maxOut) ==> out[i] == Some(all[i]))
            && (forall i :: Least(|all|, maxOut) <= i < out.Length ==> out[i] == old(out[i])))
  {
    hide Uploads;
    var count := CountUploads(files, name);
    written := count;
    if out != null && maxOut > 0 {
      if written > maxOut {
        written := maxOut;
      }
      FillOut(files, name, out, maxOut, count);
    }
  }

  method CountUploads(files: seq<FileUpload>, name: string) returns (count: nat)
    ensures count == |Uploads(files, name)|
  {
    hide Uploads;
    count := 0;
    UploadsEnds(files, name);
    for k := 0 to |files|
      invariant count + |Uploads(files[k..], name)| == |Uploads(files, name)|
    {
      UploadsStep(files, k, name);
      if files[k].fieldName == name {
        count := count + 1;
      }
    }
  }

  // Back to front: the list is newest first.
  method FillOut(files: seq<FileUpload>, name: string, out: array<Option<FileUpload>>, maxOut: nat, count: nat)
    requires maxOut <= out.Length && count == |Uploads(files, name)|
    modifies out
    ensures forall i :: 0 <= i < Least(count, maxOut) ==> out[i] == Some(Uploads(files, name)[i])
    ensures forall i :: Least(count, maxOut) <= i < out.Length ==> out[i] == old(out[i])
  {
    hide Uploads;
    ghost var all := Uploads(files, name);
    UploadsEnds(files, name);
    var idx: nat := count;
    assert all[..idx] == all;
    for k := 0 to |files|
      invariant idx <= count && all[..idx] == Uploads(files[k..], name)
      invariant forall i :: idx <= i < Least(count, maxOut) ==> out[i] == Some(all[i])
      invariant forall i :: Least(count, maxOut) <= i < out.Length ==> out[i] == old(out[i])
    {
      UploadsStep(files, k, name);
      if files[k].fieldName == name {
        LastTaken(all, idx, Uploads(files[k + 1..], name), files[k]);
        idx := idx - 1;
        if idx < maxOut {
          out[idx] := Some(files[k]);
        }
      } else {
        assert Uploads(files[k + 1..], name) + [] == Uploads(files[k + 1..], name);
      }
    }
  }

  lemma UploadsEnds(files: seq<FileUpload>, name: string)
    ensures Uploads(files[0..], name) == Uploads(files, name) && Uploads(files[|files|..], name) == []
  {
    assert files[0..] == files;
  }

  lemma LastTaken(all: seq<FileUpload>, idx: nat, rest: seq<FileUpload>, f: FileUpload)
    requires idx <= |all| && all[..idx] == rest + [f]
    ensures idx > 0 && all[idx - 1] == f && all[..idx - 1] == rest
  {
    assert |rest| == idx - 1 && all[idx - 1] == all[..idx][idx - 1] && all[..idx - 1] == all[..idx][..idx - 1];
  }

  lemma UploadsStep(files: seq<FileUpload>, k: nat, name: string)
    requires k < |files|
    ensures Uploads(files[k..], name)
         == Uploads(files[k + 1..], name) + if files[k].fieldName == name then [files[k]] else []
  {
    assert files[k..][0] == files[k] && files[k..][1..] == files[k + 1..];
  }

  // The first 255 bytes of a name, or all there are: the name a part goes by, whatever stores it.
  function Cut(name: string): string {
    if |name| <= 255 then name else name[..255]
  }

  // The file parts sent under a field's name, in body order.
  function FileParts(parts: seq<Part>, name: string): seq<Part> {
    if parts == [] then []
    else
      var part := parts[|parts| - 1];
      FileParts(parts[..|parts| - 1], name) + if part.FilePart? && Cut(part.name) == name then [part] else []
  }

  // The uploads of a field are its file parts in body order, each with its whole content on disk.
  lemma {:induction false} UploadsInBodyOrder(
      files: seq<FileUpload>, parts: seq<Part>, disk: map<string, string>, name: string)
    requires FilesOk(files, parts, disk)
    ensures |Uploads(files, name)| == |FileParts(parts, name)|
    ensures forall i :: 0 <= i < |Uploads(files, name)| ==>
              FileParts(parts, name)[i].FilePart? && Uploaded(Uploads(files, name)[i], FileParts(parts, name)[i], disk)
  {
    if parts != [] {
      var before, part := parts[..|parts| - 1], parts[|parts| - 1];
      UploadsInBodyOrder(if part.FilePart? then files[1..] else files, before, disk, name);
    }
  }

  predicate ShortNames(parts: seq<Part>) {
    forall i :: 0 <= i < |parts| ==> |parts[i].name| <= 255
  }

  // The file parts with this very name.
  function SentFiles(parts: seq<Part>, name: string): seq<Part> {
    if parts == [] then []
    else
      var part := parts[|parts| - 1];
      SentFiles(parts[..|parts| - 1], name) + if part.FilePart? && part.name == name then [part] else []
  }

  lemma {:induction false} ShortFiles(parts: seq<Part>, name: string)
    requires ShortNames(parts)
    ensures FileParts(parts, name) == SentFiles(parts, name)
  {
    if parts != [] { ShortFiles(parts[..|parts| - 1], name); }
  }

  // What the handler finds of a file that was sent.
  predicate Found(f: FileUpload, part: Part, disk: map<string, string>) {
    && part.FilePart? && f.filename == part.filename && f.contentType == part.contentType
    && f.size == |part.data| && f.tmpPath in disk && disk[f.tmpPath] == part.data
  }

  // Where no name has more than 255 bytes, the uploads of a field are exactly the files sent with its name.
  lemma {:induction false} UploadsAsSent(
      files: seq<FileUpload>, parts: seq<Part>, disk: map<string, string>, name: string)
    requires FilesOk(files, parts, disk) && ShortNames(parts)
    ensures |Uploads(files, name)| == |SentFiles(parts, name)|
    ensures forall i :: 0 <= i < |Uploads(files, name)| ==>
              && Uploads(files, name)[i].fieldName == name
              && Found(Uploads(files, name)[i], SentFiles(parts, name)[i], disk)
  {
    hide Uploads, SentFiles, FileParts;
    UploadsInBodyOrder(files, parts, disk, name);
    ShortFiles(parts, name);
    UploadsNamed(files, name);
  }

  lemma {:induction false} UploadsNamed(files: seq<FileUpload>, name: string)
    ensures forall i :: 0 <= i < |Uploads(files, name)| ==> Uploads(files, name)[i].fieldName == name
  {
    if files != [] { UploadsNamed(files[1..], name); }
  }

  // ---------------------------------------------------------------- the form

  // The fields the client sent.
  function TextFields(parts: seq<Part>): seq<KeyValue> {
    if parts == [] then []
    else
      var part := parts[|parts| - 1];
      TextFields(parts[..|parts| - 1])
      + if part.TextPart? then [KeyValue(Cut(part.name), part.data)] else []
  }

  // A text that follows a file directly: the file's length is left in value_len and the text is appended to garbage.
  predicate Tainted(parts: seq<Part>, i: nat)
    requires i < |parts|
  {
    parts[i].TextPart? && parts[i].data != "" && i > 0 && parts[i - 1].FilePart? && parts[i - 1].data != ""
  }

  predicate NoNuls(parts: seq<Part>) {
    forall i :: 0 <= i < |parts| ==> '\0' !in parts[i].data
  }

  // No non-empty text part directly follows a non-empty file part.
  predicate TaintFree(parts: seq<Part>) {
    forall i :: 0 <= i < |parts| ==> !Tainted(parts, i)
  }

  predicate AllNamed(parts: seq<Part>) {
    forall i :: 0 <= i < |parts| ==> !Nameless(parts[i])
  }

  // As long as all texts have names, none leaves a buffer behind.
  lemma {:induction false} NamedLeaveNone(parts: seq<Part>, buffer: Option<string>)
    requires AllNamed(parts) && Leaves(parts, buffer)
    ensures buffer == None
  {
    if parts != [] && parts[|parts| - 1].FilePart? { NamedLeaveNone(parts[..|parts| - 1], buffer); }
  }

  // A text is stored as it was sent unless it comes directly behind a non-empty file.
  lemma NamedStored(before: seq<Part>, part: Part, buffer: Option<string>)
    requires AllNamed(before) && part.TextPart? && '\0' !in part.data && !Tainted(before + [part], |before|)
    requires Fills(before, part.data, buffer)
    ensures CString(buffer) == part.data
  {
    if part.data == "" {
      NamedLeaveNone(before, buffer);
    } else {
      var held: Option<string> :| Leaves(before, held) && Written(held, Carry(before), part.data, buffer);
      if before != [] { assert (before + [part])[|before| - 1] == before[|before| - 1]; }
      WrittenAtStart(held, part.data, buffer);
    }
  }

  lemma LessOfThem(parts: seq<Part>)
    requires parts != [] && NoNuls(parts) && TaintFree(parts) && AllNamed(parts)
    ensures var n := |parts| - 1; var before, part := parts[..n], parts[n];
      && parts == before + [part] && NoNuls(before) && TaintFree(before) && AllNamed(before)
      && !Nameless(part) && '\0' !in part.data && !Tainted(before + [part], |before|)
  {
    var n := |parts| - 1;
    var before := parts[..n];
    assert parts == before + [parts[n]];
    assert forall i :: 0 <= i < n ==> before[i] == parts[i] && Tainted(before, i) == Tainted(parts, i);
  }

  lemma {:induction false} FormExact(form: seq<KeyValue>, parts: seq<Part>)
    requires FormOk(form, parts) && NoNuls(parts) && TaintFree(parts) && AllNamed(parts)
    ensures form == TextFields(parts)
  {
    hide Fills, CString, TaintFree, Tainted, NoNuls, AllNamed;
    if parts != [] {
      var n := |parts| - 1;
      var before, part := parts[..n], parts[n];
      LessOfThem(parts);
      if part.FilePart? {
        FormExact(form, before);
      } else {
        FormExact(form[..|form| - 1], before);
        assert form == form[..|form| - 1] + [form[|form| - 1]];
        var buffer: Option<string> :| Fills(before, part.data, buffer) && form[|form| - 1].value == CString(buffer);
        NamedStored(before, part, buffer);
      }
    }
  }

  // The text parts as they were sent.
  function SentFields(parts: seq<Part>): seq<KeyValue> {
    if parts == [] then []
    else
      var part := parts[|parts| - 1];
      SentFields(parts[..|parts| - 1]) + if part.TextPart? then [KeyValue(part.name, part.data)] else []
  }

  lemma {:induction false} ShortFields(parts: seq<Part>)
    requires ShortNames(parts)
    ensures TextFields(parts) == SentFields(parts)
  {
    if parts != [] { ShortFields(parts[..|parts| - 1]); }
  }

  // No NUL bytes, no name too long or missing, and no non-empty text directly behind a non-empty file.
  predicate Plain(parts: seq<Part>) {
    && NoNuls(parts) && TaintFree(parts) && ShortNames(parts)
    && forall i :: 0 <= i < |parts| && parts[i].TextPart? ==> parts[i].name != ""
  }

  // Where every text has a name of 1 to 255 bytes, the form is exactly the list of names and texts sent, whatever
  // was in memory, as long as no non-empty text directly follows a non-empty file.
  lemma FormAsSent(form: seq<KeyValue>, parts: seq<Part>)
    requires FormOk(form, parts) && Plain(parts)
    ensures form == SentFields(parts)
  {
    FormExact(form, parts);
    ShortFields(parts);
  }

  // What the parts can come to when memory is full of NUL bytes.
  function WorstBuffer(parts: seq<Part>): Option<string>
    decreases |parts|, 0
  {
    if parts == [] then None
    else
      var before, part := parts[..|parts| - 1], parts[|parts| - 1];
      if part.FilePart? then WorstBuffer(before)
      else if Nameless(part) then WorstFill(before, part.data)
      else None
  }

  function WorstFill(parts: seq<Part>, data: string): Option<string>
    decreases |parts|, 1
  {
    if data == "" then WorstBuffer(parts) else Some(Overlaid(WorstBuffer(parts), Carry(parts), data))
  }

  function WorstForm(parts: seq<Part>): seq<KeyValue> {
    if parts == [] then []
    else
      var before, part := parts[..|parts| - 1], parts[|parts| - 1];
      WorstForm(before)
      + if part.FilePart? || Nameless(part) then []
        else [KeyValue(Truncated(part.name), CString(WorstFill(before, part.data)))]
  }

  lemma {:induction false} WorstLeaves(parts: seq<Part>)
    ensures Leaves(parts, WorstBuffer(parts))
  {
    if parts != [] {
      var before, part := parts[..|parts| - 1], parts[|parts| - 1];
      WorstLeaves(before);
      WorstFills(before, part.data);
    }
  }

  lemma WorstFills(parts: seq<Part>, data: string)
    requires Leaves(parts, WorstBuffer(parts))
    ensures Fills(parts, data, WorstFill(parts, data))
  {
    hide Leaves, WorstBuffer, Carry;
    NulsBefore(WorstBuffer(parts), Carry(parts), data);
  }

  lemma {:induction false} WorstFormOk(parts: seq<Part>)
    ensures FormOk(WorstForm(parts), parts)
  {
    if parts != [] {
      var before, part := parts[..|parts| - 1], parts[|parts| - 1];
      WorstFormOk(before);
      WorstLeaves(before);
      WorstFills(before, part.data);
      if part.FilePart? || Nameless(part) {
        assert WorstForm(before) + [] == WorstForm(before);
      } else {
        assert WorstForm(parts)[..|WorstForm(parts)| - 1] == WorstForm(before);
      }
    }
  }

  // The form misses every text without a name, and is never longer than what was sent.
  lemma {:induction false} FormLength(form: seq<KeyValue>, parts: seq<Part>)
    requires FormOk(form, parts)
    ensures |form| <= |TextFields(parts)|
    ensures |form| == |TextFields(parts)| <==> AllNamed(parts)
  {
    if parts != [] {
      var n := |parts| - 1;
      var before, part := parts[..n], parts[n];
      FormLength(if part.FilePart? || Nameless(part) then form else form[..|form| - 1], before);
      assert AllNamed(parts) <==> AllNamed(before) && !Nameless(part);
    }
  }

  // A tainted text is not what is stored when memory is full of NUL bytes.
  lemma {:induction false} WorstFormDiffers(parts: seq<Part>, i: nat)
    requires NoNuls(parts) && i < |parts| && Tainted(parts, i)
    ensures WorstForm(parts) != TextFields(parts)
  {
    WorstFormOk(parts);
    FormLength(WorstForm(parts), parts);
    if AllNamed(parts) { WorstNamedDiffers(parts, i); }
  }

  lemma {:induction false} WorstNamedDiffers(parts: seq<Part>, i: nat)
    requires i < |parts| && Tainted(parts, i) && AllNamed(parts)
    ensures |WorstForm(parts)| == |TextFields(parts)| && WorstForm(parts) != TextFields(parts)
  {
    hide WorstFill, FormOk;
    var n := |parts| - 1;
    var before, part := parts[..n], parts[n];
    assert AllNamed(before) && parts == before + [part];
    WorstNamedLength(before);
    if i == n {
      WorstTainted(before, part);
      assert WorstForm(parts)[|WorstForm(before)|].value == "";
      assert TextFields(parts)[|TextFields(before)|].value == part.data;
    } else {
      assert Tainted(before, i);
      WorstNamedDiffers(before, i);
      assert WorstForm(parts)[..|WorstForm(before)|] == WorstForm(before);
      assert TextFields(parts)[..|TextFields(before)|] == TextFields(before);
    }
  }

  lemma WorstNamedLength(parts: seq<Part>)
    requires AllNamed(parts)
    ensures |WorstForm(parts)| == |TextFields(parts)|
  {
    WorstFormOk(parts);
    FormLength(WorstForm(parts), parts);
  }

  lemma WorstTainted(before: seq<Part>, part: Part)
    requires AllNamed(before) && Tainted(before + [part], |before|)
    ensures CString(WorstFill(before, part.data)) == ""
  {
    WorstLeaves(before);
    NamedLeaveNone(before, WorstBuffer(before));
    assert (before + [part])[|before| - 1] == before[|before| - 1];
    CspnUnique(Overlaid(None, Carry(before), part.data), '\0', 0);
  }

  // Whatever was in memory, the form is exactly the text parts in body order.
  ghost predicate AlwaysExact(parts: seq<Part>) {
    forall form: seq<KeyValue> :: FormOk(form, parts) ==> form == TextFields(parts)
  }

  lemma FormExactIff(parts: seq<Part>)
    requires NoNuls(parts)
    ensures AlwaysExact(parts) <==> TaintFree(parts) && AllNamed(parts)
  {
    if TaintFree(parts) && AllNamed(parts) {
      forall form: seq<KeyValue> | FormOk(form, parts) ensures form == TextFields(parts) {
        FormExact(form, parts);
      }
    } else {
      SomeFormDiffers(parts);
    }
  }

  lemma SomeFormDiffers(parts: seq<Part>)
    requires NoNuls(parts) && !(TaintFree(parts) && AllNamed(parts))
    ensures !AlwaysExact(parts)
  {
    WorstFormOk(parts);
    if !AllNamed(parts) {
      FormLength(WorstForm(parts), parts);
    } else {
      var i :| 0 <= i < |parts| && Tainted(parts, i);
      WorstFormDiffers(parts, i);
    }
  }

  // A text without a name is lost, and the next text is stored behind it.
  lemma NamelessGlued(form: seq<KeyValue>, first: string, name: string, second: string)
    requires '\0' !in first && '\0' !in second && name != ""
    requires FormOk(form, [TextPart("", first), TextPart(name, second)])
    ensures form == [KeyValue(if |name| <= 255 then name else name[..255], first + second)]
  {
    var parts := [TextPart("", first), TextPart(name, second)];
    var before := [TextPart("", first)];
    assert parts[..1] == before && before[..0] == [];
    assert FormOk(form[..|form| - 1], before) == FormOk(form[..|form| - 1], []);
    assert form[..|form| - 1] == [];
    var buffer: Option<string> :| Fills(before, second, buffer) && form[|form| - 1].value == CString(buffer);
    assert Carry([]) == 0 && Carry(before) == |first|;
    GluedBuffer(first, second, buffer);
  }

  lemma GluedBuffer(first: string, second: string, buffer: Option<string>)
    requires '\0' !in first && '\0' !in second && Fills([TextPart("", first)], second, buffer)
    ensures CString(buffer) == first + second
  {
    var before := [TextPart("", first)];
    assert before[..0] == [] && Carry([]) == 0 && Carry(before) == |first|;
    assert forall held: Option<string> :: Leaves(before, held) == Fills([], first, held);
    assert forall held: Option<string> :: Leaves([], held) ==> held == None;
    if second == "" {
      assert first + second == first;
      if first != "" { WrittenAtStart(None, first, buffer); }
    } else {
      var held: Option<string> :| Leaves(before, held) && Written(held, |first|, second, buffer);
      if first == "" {
        assert first + second == second;
        WrittenAtStart(held, second, buffer);
      } else {
        WrittenTwice(None, 0, first, held, second, buffer);
        WrittenAtStart(None, first + second, buffer);
      }
    }
  }

  // A single text without a name leaves its buffer to nobody.
  lemma NamelessLeaks(data: string, buffer: Option<string>)
    requires data != "" && '\0' !in data && Leaves([TextPart("", data)], buffer)
    ensures HoldsBuffer([TextPart("", data)]) && buffer.Some? && CString(buffer) == data
  {
    var parts := [TextPart("", data)];
    assert parts[..0] == [] && HoldsFrom(parts, 0);
    BufferHeld(parts, buffer);
    GluedBuffer(data, "", buffer);
  }
}
