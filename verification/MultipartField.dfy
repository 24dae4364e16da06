/** multipart_field_t: the part being received, whether a text value in memory or a file on disk. */
module MultipartField {
  import opened FormParser
  import opened Options
  import opened Splitting

  const FIRST_CAPACITY := 4096
  const KEY_SIZE := 256

  // A part as the client sent it: what a field stands for.
  datatype Part =
    | TextPart(name: string, data: string)
    | FilePart(name: string, data: string, filename: Option<string>, contentType: Option<string>)

  // What snprintf leaves of a name in the 256-byte key.
  function Truncated(name: string): string {
    if |name| < KEY_SIZE then name else name[..KEY_SIZE - 1]
  }

  // The C string that is stored for a value buffer; there is none for an empty text in a fresh field.
  function CString(buffer: Option<string>): string {
    match buffer
    case Some(bytes) => UpToNul(bytes)
    case None => ""
  }

  // What writing a text at a position makes of a buffer: the bytes before stay where there were any, and are
  // whatever was in memory where there were none; a terminator follows.
  ghost predicate Written(before: Option<string>, at: nat, data: string, after: Option<string>) {
    && after.Some? && at + |data| < |after.value|
    && after.value[at..at + |data|] == data && after.value[at + |data|] == '\0'
    && (before.Some? ==> forall i :: 0 <= i < at && i < |before.value| ==> after.value[i] == before.value[i])
  }

  lemma WrittenTwice(b0: Option<string>, at: nat, d1: string, b1: Option<string>, d2: string, b2: Option<string>)
    requires Written(b0, at, d1, b1) && Written(b1, at + |d1|, d2, b2)
    ensures Written(b0, at, d1 + d2, b2)
  {
    var s1, s2 := b1.value, b2.value;
    forall i | 0 <= i < |d1| ensures s2[at + i] == d1[i] {
      assert s1[at..at + |d1|][i] == s1[at + i];
    }
    forall i | 0 <= i < |d2| ensures s2[at + |d1| + i] == d2[i] {
      assert s2[at + |d1|..at + |d1| + |d2|][i] == s2[at + |d1| + i];
    }
    assert s2[at..at + |d1 + d2|] == d1 + d2;
  }

  class Field {
    var key: string
    var isFile: bool
    var value: array?<char>
    var valueLen: nat
    var valueCap: nat
    var filename: Option<string>
    var contentType: Option<string>
    var tmpPath: string
    var open: bool
    // whether a part is being received, the part, and where its text starts in the buffer
    ghost var active: bool
    ghost var part: Part
    ghost var start: nat

    function Buffer(): Option<string>
      reads this, value
    {
      if value == null then None else Some(value[..])
    }

    ghost predicate BufferOk()
      reads this, value
    {
      && (value == null ==> valueCap == 0)
      && (value != null ==> valueCap == value.Length && valueCap > 0)
      && (!isFile ==> valueLen == start + |part.data|)
    }

    ghost predicate Valid()
      reads this, value
    {
      && BufferOk() && |key| < KEY_SIZE
      && (value != null ==> exists i :: 0 <= i < valueCap && value[i] == '\0')
      && (tmpPath != "" ==> isFile) && (open ==> tmpPath != "")
      && (isFile ==> part.FilePart? && valueLen == |part.data|)
      && (!isFile ==> part.TextPart?)
    }

    // A text part without a name looks like no part at all.
    predicate Idle()
      reads this
    {
      key == "" && !isFile
    }

    // calloc
    constructor ()
      ensures Valid() && Idle() && value == null && valueLen == start == 0 && tmpPath == ""
      ensures !active && part == TextPart("", "")
    {
      key, isFile, value, valueLen, valueCap := "", false, null, 0, 0;
      filename, contentType, tmpPath, open := None, None, "", false;
      active, part, start := false, TextPart("", ""), 0;
    }

    // The end of multipart_proc_current_field for a file: value_len stays as it is.
    method LeaveFile()
      requires Valid() && isFile && !open
      modifies this
      ensures Valid() && Idle() && tmpPath == "" && value == old(value) && valueLen == old(valueLen) == start
      ensures !active && part == TextPart("", "")
    {
      filename, contentType, tmpPath := None, None, "";
      key, isFile := "", false;
      active, part, start := false, TextPart("", ""), valueLen;
    }

    // The end of multipart_proc_current_field for a text: the buffer is freed.
    method LeaveText()
      requires Valid() && !isFile
      modifies this
      ensures Valid() && Idle() && tmpPath == "" && value == null && valueLen == start == 0
      ensures !active && part == TextPart("", "")
    {
      value, valueLen, valueCap := null, 0, 0;
      key := "";
      active, part, start := false, TextPart("", ""), 0;
    }

    // multipart_proc_current_field returns at once for a text part without a name: nothing is reset.
    ghost method LeaveNameless()
      requires Valid() && Idle()
      modifies this`active, this`part, this`start
      ensures Valid() && start == valueLen && !active && part == TextPart("", "")
    {
      active, part, start := false, TextPart("", ""), valueLen;
    }

    // multipart_iterator on a new part: the name, and for a file its metadata.
    method Enter(name: string, isFile: bool, filename: Option<string>, contentType: Option<string>)
      requires Valid() && Idle()
      modifies this
      ensures Valid() && key == (if |name| <= 255 then name else name[..255]) && this.isFile == isFile
      ensures value == old(value) && tmpPath == "" && !open && active
      ensures !isFile ==> part == TextPart(name, "") && valueLen == start == old(valueLen)
      ensures isFile ==>
        && part == FilePart(name, "", filename, contentType)
        && this.filename == filename && this.contentType == contentType
    {
      key, this.isFile, active := Truncated(name), isFile, true;
      if isFile {
        this.filename, this.contentType, valueLen := filename, contentType, 0;
        part := FilePart(name, "", filename, contentType);
      } else {
        part, start := TextPart(name, ""), valueLen;
      }
    }

    // The capacity the doubling arrives at.
    method Grow(size: nat) returns (nc: nat)
      ensures nc >= valueLen + size + 1 && nc >= valueCap
    {
      nc := if valueCap == 0 then FIRST_CAPACITY else valueCap * 2;
      while nc < valueLen + size + 1
        invariant nc > 0 && nc >= valueCap
      {
        nc := nc * 2;
      }
    }

    // realloc: the old contents and then whatever was in memory.
    method Realloc(nc: nat)
      requires BufferOk() && nc >= valueCap && nc > 0
      modifies this`value, this`valueCap
      ensures fresh(value) && value.Length == nc == valueCap
      ensures old(value) != null ==> value[..old(valueCap)] == old(value[..])
    {
      var tmp := new char[nc];
      if value != null {
        forall i | 0 <= i < valueCap {
          tmp[i] := value[i];
        }
        assert tmp[..valueCap] == value[..];
      }
      value, valueCap := tmp, nc;
    }

    // Makes room for a chunk and its terminator.
    method Reserve(size: nat, reallocOk: bool) returns (ok: bool)
      requires Valid() && !isFile
      modifies this`value, this`valueCap
      ensures BufferOk()
      ensures ok ==> value != null && valueLen + size < valueCap
      ensures ok && old(value) != null ==> old(valueCap) <= valueCap && value[..old(valueCap)] == old(value[..])
      ensures !ok ==> value == old(value) && valueCap == old(valueCap) && !reallocOk
      ensures value != old(value) ==> fresh(value)
    {
      if valueLen + size + 1 > valueCap {
        var nc: nat := Grow(size);
        if !reallocOk {
          return false;
        }
        Realloc(nc);
      }
      ok := true;
    }

    // A text chunk is written behind value_len, with room for it and its terminator.
    method AppendText(data: string, reallocOk: bool) returns (ok: bool)
      requires Valid() && !isFile && data != ""
      modifies this`value, this`valueCap, this`valueLen, this`part, value
      ensures Valid()
      ensures ok ==>
        && old(part).TextPart? && part == TextPart(old(part).name, old(part).data + data)
        && start + |old(part).data| == old(valueLen) && valueLen == old(valueLen) + |data| < valueCap
        && Written(old(Buffer()), old(valueLen), data, Buffer())
      ensures !ok ==> part == old(part) && value == old(value) && Buffer() == old(Buffer()) && !reallocOk
      ensures value != old(value) ==> fresh(value)
    {
      ok := Reserve(|data|, reallocOk);
      if !ok {
        return;
      }
      ghost var was, room, at := old(Buffer()), value[..], valueLen;
      assert was.Some? ==> forall i :: 0 <= i < |was.value| ==> room[i] == value[..|was.value|][i] == was.value[i];
      CopyIn(value, valueLen, data);
      valueLen := valueLen + |data|;
      CopiedIn(was, room, at, data, value[..]);
      part := TextPart(part.name, part.data + data);
    }
  }

  lemma CopiedIn(was: Option<string>, room: string, at: nat, data: string, after: string)
    requires |room| == |after| && at + |data| < |after|
    requires was.Some? ==> |was.value| <= |room| && forall i :: 0 <= i < |was.value| ==> room[i] == was.value[i]
    requires after[..at + |data|] == room[..at] + data && after[at + |data|] == '\0'
    ensures Written(was, at, data, Some(after))
  {
    var text := after[..at + |data|];
    assert after[at..at + |data|] == text[at..] == data;
    forall i | 0 <= i < at ensures after[i] == room[i] {
      assert text[i] == room[..at][i];
    }
  }

  // memcpy, and the terminator after it
  method CopyIn(value: array<char>, at: nat, data: string)
    requires at + |data| < value.Length
    modifies value
    ensures value[..at + |data|] == old(value[..at]) + data && value[at + |data|] == '\0'
  {
    forall i | 0 <= i < |data| {
      value[at + i] := data[i];
    }
    value[at + |data|] := '\0';
  }

  // A text is stored as it is, whatever was in the buffer and in memory, exactly when it is written at the
  // buffer's start.
  lemma StoredExactly(start: nat, data: string)
    requires data != "" && '\0' !in data
    ensures start == 0 <==>
      forall before: Option<string>, after: Option<string> ::
        Written(before, start, data, after) ==> CString(after) == data
  {
    if start == 0 {
      forall before: Option<string>, after: Option<string> | Written(before, 0, data, after)
        ensures CString(after) == data
      {
        WrittenAtStart(before, data, after);
      }
    } else {
      NulsBefore(None, start, data);
      CspnUnique(Overlaid(None, start, data), '\0', 0);
      assert CString(Some(Overlaid(None, start, data))) == "";
    }
  }

  lemma WrittenAtStart(before: Option<string>, data: string, after: Option<string>)
    requires Written(before, 0, data, after) && '\0' !in data
    ensures CString(after) == data
  {
    var bytes := after.value;
    assert bytes[..|data|] == bytes[0..|data|] == data;
    forall i | 0 <= i < |data| ensures bytes[i] != '\0' {
      assert bytes[i] == data[i];
    }
    CspnUnique(bytes, '\0', |data|);
  }

  // One outcome of writing: where there was no buffer, memory held NUL bytes.
  function Overlaid(before: Option<string>, at: nat, data: string): string {
    seq(at, i requires 0 <= i => if before.Some? && i < |before.value| then before.value[i] else '\0') + data + ['\0']
  }

  lemma NulsBefore(before: Option<string>, at: nat, data: string)
    ensures Written(before, at, data, Some(Overlaid(before, at, data)))
  {
    var bytes := Overlaid(before, at, data);
    assert bytes[at..at + |data|] == data;
  }
}
