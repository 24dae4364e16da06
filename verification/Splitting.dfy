/** Strings cut at a separator, with empty parts dropped, and joined again.
    A C string is a `string` whose end stands for the terminating NUL. */
module Splitting {
  // strcspn(s, sep)
  function Cspn(s: string, sep: char): (n: nat)
    ensures n <= |s| && (forall k :: 0 <= k < n ==> s[k] != sep) && (n < |s| ==> s[n] == sep)
  {
    if s == "" || s[0] == sep then 0 else 1 + Cspn(s[1..], sep)
  }

  // The non-empty parts between separators.
  function Split(s: string, sep: char): seq<string> {
    if s == "" then []
    else if s[0] == sep then Split(s[1..], sep)
    else [s[..Cspn(s, sep)]] + Split(s[Cspn(s, sep)..], sep)
  }

  function Join(parts: seq<string>, sep: string): string {
    if parts == [] then ""
    else if |parts| == 1 then parts[0]
    else Join(parts[..|parts| - 1], sep) + sep + parts[|parts| - 1]
  }

  predicate IsPart(part: string, sep: char) {
    part != "" && sep !in part
  }

  lemma CspnUnique(s: string, sep: char, n: nat)
    requires n <= |s| && (forall k :: 0 <= k < n ==> s[k] != sep) && (n < |s| ==> s[n] == sep)
    ensures Cspn(s, sep) == n
  {
  }

  lemma {:induction false} SplitWellFormed(s: string, sep: char)
    ensures forall part :: part in Split(s, sep) ==> IsPart(part, sep)
    decreases |s|
  {
    if s != "" {
      if s[0] == sep { SplitWellFormed(s[1..], sep); } else { SplitWellFormed(s[Cspn(s, sep)..], sep); }
    }
  }

  lemma SplitPlain(s: string, sep: char)
    requires IsPart(s, sep)
    ensures Split(s, sep) == [s]
  {
    CspnUnique(s, sep, |s|);
    assert s[..|s|] == s && s[|s|..] == "";
  }

  // A separator separates.
  lemma {:induction false} SplitAt(a: string, b: string, sep: char)
    ensures Split(a + [sep] + b, sep) == Split(a, sep) + Split(b, sep)
    decreases |a|
  {
    var s := a + [sep] + b;
    if a == "" {
      assert s[1..] == b;
    } else if a[0] == sep {
      assert s[1..] == a[1..] + [sep] + b;
      SplitAt(a[1..], b, sep);
    } else {
      var n := Cspn(a, sep);
      assert s[..n] == a[..n];
      assert s[n] == sep;
      CspnUnique(s, sep, n);
      assert s[n..] == a[n..] + [sep] + b;
      SplitAt(a[n..], b, sep);
    }
  }

  // Doubled, leading and trailing separators do not show in the parts.
  lemma ExtraSeparators(a: string, b: string, sep: char)
    ensures Split(a + [sep] + [sep] + b, sep) == Split(a + [sep] + b, sep)
    ensures Split([sep] + a, sep) == Split(a, sep) == Split(a + [sep], sep)
  {
    SplitAt(a, b, sep);
    SplitAt(a + [sep], b, sep);
    SplitAt(a, "", sep);
    SplitAt("", a, sep);
    assert a + [sep] + "" == a + [sep];
    assert "" + [sep] + a == [sep] + a;
  }

  // Splitting undoes joining.
  lemma {:induction false} SplitJoin(parts: seq<string>, sep: char)
    requires forall part :: part in parts ==> IsPart(part, sep)
    ensures Split(Join(parts, [sep]), sep) == parts
  {
    if parts != [] {
      var front, last := parts[..|parts| - 1], parts[|parts| - 1];
      SplitPlain(last, sep);
      if |parts| > 1 {
        SplitJoin(front, sep);
        SplitAt(Join(front, [sep]), last, sep);
        assert parts == front + [last];
      }
    }
  }
}
