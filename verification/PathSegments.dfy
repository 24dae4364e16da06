/** Paths as lists of segments: what next_segment walks over and collapse_slashes writes out. */
module PathSegments {
  import opened Options
  import Splitting

  // The non-empty segments of a path.
  function Segments(s: string): seq<string> {
    Splitting.Split(s, '/')
  }

  // Segments joined with a single '/'.
  function Join(segs: seq<string>): string {
    Splitting.Join(segs, "/")
  }

  predicate IsSegment(seg: string) {
    Splitting.IsPart(seg, '/')
  }

  // next_segment: s and the position it starts at; the result is a position and a length.
  method NextSegment(s: string, i: nat) returns (at: nat, len: nat)
    requires i <= |s|
    ensures i <= at && at + len <= |s| && (len == 0 ==> at == |s|)
    ensures Segments(s[at..]) == Segments(s[i..])
    ensures Segments(s[i..]) == Rest(s, at, len)
    ensures len > 0 ==> IsSegment(s[at..at + len])
  {
    at := i;
    while at < |s| && s[at] == '/'
      invariant i <= at <= |s| && Segments(s[at..]) == Segments(s[i..])
    {
      assert s[at..][1..] == s[at + 1..];
      at := at + 1;
    }
    len := Splitting.Cspn(s[at..], '/');
    assert s[at..][..len] == s[at..at + len];
    assert s[at..][len..] == s[at + len..];
    if at < |s| {
      assert s[at..][0] == s[at];
    }
  }

  // The segment at hand and those after it.
  function Rest(s: string, at: nat, len: nat): seq<string>
    requires at + len <= |s|
  {
    if len == 0 then [] else [s[at..at + len]] + Segments(s[at + len..])
  }

  // ---------------------------------------------------------------- collapse_slashes

  // What collapse_slashes has written after reading s.
  function Collapsed(s: string): string {
    Join(Segments(s)) + if Segments(s) != [] && s[|s| - 1] == '/' then "/" else ""
  }

  lemma {:induction false} SegmentsExtend(s: string, c: char)
    requires s != "" && s[|s| - 1] != '/' && c != '/'
    ensures var segs := Segments(s);
      segs != [] && Segments(s + [c]) == segs[..|segs| - 1] + [segs[|segs| - 1] + [c]]
    decreases |s|
  {
    var t := s + [c];
    if s[0] == '/' {
      assert t[1..] == s[1..] + [c];
      SegmentsExtend(s[1..], c);
    } else {
      var n := Splitting.Cspn(s, '/');
      if n == |s| {
        Splitting.SplitPlain(s, '/');
        Splitting.SplitPlain(t, '/');
      } else {
        assert t[..n] == s[..n];
        Splitting.CspnUnique(t, '/', n);
        assert t[n..] == s[n..] + [c];
        SegmentsExtend(s[n..], c);
      }
    }
  }

  lemma JoinExtend(segs: seq<string>, seg: string)
    requires segs != []
    ensures Join(segs[..|segs| - 1] + [seg]) == (if |segs| == 1 then "" else Join(segs[..|segs| - 1]) + "/") + seg
  {
    var front := segs[..|segs| - 1];
    assert (front + [seg])[..|segs| - 1] == front;
  }

  lemma JoinLast(segs: seq<string>)
    requires segs != [] && IsSegment(segs[|segs| - 1])
    ensures Join(segs) != "" && Join(segs)[|Join(segs)| - 1] != '/'
  {
    var last := segs[|segs| - 1];
    assert last[|last| - 1] in last;
  }

  lemma CollapsedLast(s: string)
    ensures Collapsed(s) != "" ==>
              (Collapsed(s)[|Collapsed(s)| - 1] == '/' <==> s[|s| - 1] == '/') && s != ""
    ensures Collapsed(s) == "" <==> Segments(s) == []
  {
    Splitting.SplitWellFormed(s, '/');
    if Segments(s) != [] {
      assert Segments(s)[|Segments(s)| - 1] in Segments(s);
      JoinLast(Segments(s));
    }
  }

  lemma CollapsedSlash(s: string)
    ensures Collapsed(s + "/") == if Segments(s) == [] then Collapsed(s) else Join(Segments(s)) + "/"
  {
    Splitting.ExtraSeparators(s, "", '/');
  }

  lemma CollapsedNewSegment(s: string, c: char)
    requires c != '/' && (s == "" || s[|s| - 1] == '/')
    ensures Collapsed(s + [c]) == Collapsed(s) + [c]
  {
    Splitting.SplitPlain([c], '/');
    if s == "" {
      assert s + [c] == [c];
    } else {
      var a := s[..|s| - 1];
      assert s == a + "/" && s + [c] == a + "/" + [c];
      Splitting.ExtraSeparators(a, "", '/');
      Splitting.SplitAt(a, [c], '/');
      hide Splitting.Split, Splitting.Join;
      JoinPush(Segments(a), [c]);
    }
  }

  lemma JoinPush(segs: seq<string>, seg: string)
    ensures Join(segs + [seg]) == (if segs == [] then "" else Join(segs) + "/") + seg
  {
    assert (segs + [seg])[..|segs|] == segs;
  }

  lemma CollapsedSameSegment(s: string, c: char)
    requires c != '/' && s != "" && s[|s| - 1] != '/'
    ensures Collapsed(s + [c]) == Collapsed(s) + [c]
  {
    var segs := Segments(s);
    SegmentsExtend(s, c);
    JoinExtend(segs, segs[|segs| - 1] + [c]);
    assert segs == segs[..|segs| - 1] + [segs[|segs| - 1]];
    JoinExtend(segs, segs[|segs| - 1]);
  }

  // One more character: a slash after a slash, or at the start, is dropped.
  lemma CollapsedStep(s: string, c: char)
    ensures Collapsed(s + [c])
         == if c == '/' && (Collapsed(s) == "" || Collapsed(s)[|Collapsed(s)| - 1] == '/') then Collapsed(s)
            else Collapsed(s) + [c]
  {
    CollapsedLast(s);
    if c == '/' {
      CollapsedSlash(s);
    } else if s == "" || s[|s| - 1] == '/' {
      CollapsedNewSegment(s, c);
    } else {
      CollapsedSameSegment(s, c);
    }
  }

  lemma CollapsedNone()
    ensures Collapsed("") == ""
  {
  }

  lemma CollapsedTrim(s: string)
    ensures var t := Collapsed(s);
      Join(Segments(s)) == if t != "" && t[|t| - 1] == '/' then t[..|t| - 1] else t
  {
    CollapsedLast(s);
  }

  // collapse_slashes; None when malloc fails
  method CollapseSlashes(s: string, mallocOk: bool) returns (r: Option<string>)
    ensures r == if mallocOk then Some(Join(Segments(s))) else None
  {
    hide Collapsed, Join, Segments;
    if !mallocOk {
      return None;
    }
    var out := new char[|s| + 1];
    var o := 0;
    CollapsedNone();
    for i := 0 to |s|
      invariant o <= i && out[..o] == Collapsed(s[..i])
    {
      CollapsedStep(s[..i], s[i]);
      assert s[..i + 1] == s[..i] + [s[i]];
      assert o > 0 ==> Collapsed(s[..i])[o - 1] == out[o - 1];
      if s[i] == '/' && (o == 0 || out[o - 1] == '/') {
        continue;
      }
      out[o] := s[i];
      o := o + 1;
    }
    assert s[..|s|] == s;
    CollapsedTrim(s);
    assert out[..o] == Collapsed(s);
    assert o > 0 ==> out[..o][..o - 1] == out[..o - 1];
    if o > 0 && out[o - 1] == '/' {
      o := o - 1;
    }
    r := Some(out[..o]);
  }

  // Collapsing is idempotent.
  lemma CollapseIdempotent(s: string)
    ensures Join(Segments(Join(Segments(s)))) == Join(Segments(s))
  {
    Splitting.SplitWellFormed(s, '/');
    Splitting.SplitJoin(Segments(s), '/');
  }

  // No slash at either end, and no two in a row.
  predicate Tidy(t: string) {
    && (t != "" ==> t[0] != '/' && t[|t| - 1] != '/')
    && (forall k :: 0 <= k < |t| - 1 && t[k] == '/' ==> t[k + 1] != '/')
  }

  lemma TidyPart(seg: string)
    requires IsSegment(seg)
    ensures Tidy(seg)
  {
    assert forall k :: 0 <= k < |seg| ==> seg[k] in seg;
  }

  lemma TidyMore(t: string, seg: string)
    requires Tidy(t) && t != "" && IsSegment(seg)
    ensures Tidy(t + "/" + seg)
  {
    TidyPart(seg);
  }

  lemma {:induction false} JoinTidy(segs: seq<string>)
    requires forall seg :: seg in segs ==> IsSegment(seg)
    ensures Tidy(Join(segs)) && (segs != [] ==> Join(segs) != "")
  {
    if segs != [] {
      var front, last := segs[..|segs| - 1], segs[|segs| - 1];
      assert last in segs;
      JoinTidy(front);
      TidyPart(last);
      if |segs| > 1 { TidyMore(Join(front), last); }
    }
  }

  // What is left has the same segments, and no slash that could be dropped.
  lemma CollapseMeans(s: string)
    ensures Segments(Join(Segments(s))) == Segments(s) && Tidy(Join(Segments(s)))
  {
    Splitting.SplitWellFormed(s, '/');
    Splitting.SplitJoin(Segments(s), '/');
    JoinTidy(Segments(s));
  }
}
