/** Percent encoding and decoding of C strings, with '+' for a space. */
module UrlCodec {
  import opened Options

  // Bytes other than NUL, as characters 1 to 255.
  predicate IsCString(s: string) {
    forall i :: 0 <= i < |s| ==> 0 < s[i] as int < 256
  }

  // isalnum in the C locale, and - _ . ~
  predicate Unreserved(c: char) {
    '0' <= c <= '9' || 'A' <= c <= 'Z' || 'a' <= c <= 'z' || c == '-' || c == '_' || c == '.' || c == '~'
  }

  // A digit of %02X.
  function Digit(n: nat): char
    requires n < 16
  {
    if n < 10 then '0' + n as char else 'A' + (n - 10) as char
  }

  function HexValue(c: char): Option<nat> {
    if '0' <= c <= '9' then Some((c - '0') as nat)
    else if 'A' <= c <= 'F' then Some((c - 'A') as nat + 10)
    else if 'a' <= c <= 'f' then Some((c - 'a') as nat + 10)
    else None
  }

  function EncodeChar(c: char): string
    requires c as int < 256
  {
    if Unreserved(c) then [c] else if c == ' ' then "+" else ['%', Digit(c as nat / 16), Digit(c as nat % 16)]
  }

  function Encode(s: string): string
    requires IsCString(s)
  {
    if s == "" then "" else EncodeChar(s[0]) + Encode(s[1..])
  }

  // sscanf(s, "%2x", &value) is a parameter: all that is known is that two hex digits are read as a byte.
  ghost predicate ScansHex(scan: string -> Option<nat>) {
    forall s: string :: |s| >= 2 && HexValue(s[0]).Some? && HexValue(s[1]).Some? ==>
      scan(s) == Some(16 * HexValue(s[0]).value + HexValue(s[1]).value)
  }

  // (char)value
  function Byte(value: nat): char {
    (value % 256) as char
  }

  function Decode(s: string, scan: string -> Option<nat>): string {
    if s == "" then ""
    else if s[0] == '%' && |s| > 2 && scan(s[1..]).Some? then
      [Byte(scan(s[1..]).value)] + Decode(s[3..], scan)
    else [if s[0] == '+' then ' ' else s[0]] + Decode(s[1..], scan)
  }

  lemma DigitValue(n: nat)
    requires n < 16
    ensures HexValue(Digit(n)) == Some(n)
  {
  }

  lemma DecodeEscape(n: nat, rest: string, scan: string -> Option<nat>)
    requires ScansHex(scan) && n < 256
    ensures Decode(['%', Digit(n / 16), Digit(n % 16)] + rest, scan) == [n as char] + Decode(rest, scan)
  {
    hide Digit, HexValue;
    var s := ['%', Digit(n / 16), Digit(n % 16)] + rest;
    DigitValue(n / 16);
    DigitValue(n % 16);
    assert s[1..][0] == Digit(n / 16) && s[1..][1] == Digit(n % 16);
    assert scan(s[1..]) == Some(n);
    assert s[3..] == rest;
  }

  lemma DecodeChar(c: char, rest: string, scan: string -> Option<nat>)
    requires ScansHex(scan) && c as int < 256
    ensures Decode(EncodeChar(c) + rest, scan) == [c] + Decode(rest, scan)
  {
    if Unreserved(c) || c == ' ' {
      assert (EncodeChar(c) + rest)[1..] == rest;
    } else {
      hide Decode, ScansHex;
      DecodeEscape(c as nat, rest, scan);
    }
  }

  // Decoding undoes encoding on every C string.
  lemma {:induction false} RoundTrip(s: string, scan: string -> Option<nat>)
    requires ScansHex(scan) && IsCString(s)
    ensures Decode(Encode(s), scan) == s
  {
    if s != "" {
      RoundTrip(s[1..], scan);
      DecodeChar(s[0], Encode(s[1..]), scan);
    }
  }

  // Only letters, digits and - _ . ~ + % are written: no delimiter, no NUL, nothing outside ASCII.
  lemma {:induction false} EncodedSafe(s: string)
    requires IsCString(s)
    ensures forall i :: 0 <= i < |Encode(s)| ==>
              var c := Encode(s)[i];
              || '0' <= c <= '9' || 'A' <= c <= 'Z' || 'a' <= c <= 'z'
              || c == '-' || c == '_' || c == '.' || c == '~' || c == '+' || c == '%'
    ensures |s| <= |Encode(s)| <= 3 * |s|
  {
    if s != "" {
      EncodedSafe(s[1..]);
    }
  }

  lemma DigitUpper(n: nat)
    requires n < 16
    ensures Digit(n) == "0123456789ABCDEF"[n]
  {
  }

  lemma {:induction false} EncodeAt(a: string, c: char, b: string)
    requires IsCString(a) && IsCString(b) && 0 < c as int < 256
    ensures IsCString(a + [c] + b) && Encode(a + [c] + b) == Encode(a) + EncodeChar(c) + Encode(b)
  {
    hide EncodeChar;
    var s := a + [c] + b;
    if a == "" {
      assert s[0] == c && s[1..] == b;
    } else {
      EncodeAt(a[1..], c, b);
      assert s[1..] == a[1..] + [c] + b;
    }
  }

  // Each character stands for itself, a plus sign, or its code in two upper-case hexadecimal digits, wherever it is.
  lemma EncodeMeans(a: string, c: char, b: string)
    requires IsCString(a) && IsCString(b) && 0 < c as int < 256
    ensures IsCString(a + [c] + b)
    ensures var alphanumeric := '0' <= c <= '9' || 'A' <= c <= 'Z' || 'a' <= c <= 'z';
      Encode(a + [c] + b)
        == Encode(a)
         + (if alphanumeric || c == '-' || c == '_' || c == '.' || c == '~' then [c]
            else if c == ' ' then "+"
            else ['%', "0123456789ABCDEF"[c as int / 16], "0123456789ABCDEF"[c as int % 16]])
         + Encode(b)
  {
    hide Encode, Digit;
    EncodeAt(a, c, b);
    DigitUpper(c as nat / 16);
    DigitUpper(c as nat % 16);
  }

  lemma HexLetters(n: nat)
    requires n < 16
    ensures HexValue("0123456789ABCDEF"[n]) == HexValue("0123456789abcdef"[n]) == Some(n)
  {
  }

  // A percent sign and two hexadecimal digits of either case are one byte, a plus sign is a space, and anything else
  // stands for itself, like a percent sign with fewer than two characters behind it.
  lemma DecodeMeans(c: char, i: nat, j: nat, rest: string, scan: string -> Option<nat>)
    requires ScansHex(scan) && i < 16 && j < 16
    ensures var upper, lower := "0123456789ABCDEF", "0123456789abcdef";
      && Decode(['%', upper[i], upper[j]] + rest, scan) == [(16 * i + j) as char] + Decode(rest, scan)
      && Decode(['%', lower[i], lower[j]] + rest, scan) == [(16 * i + j) as char] + Decode(rest, scan)
    ensures Decode("+" + rest, scan) == " " + Decode(rest, scan)
    ensures c != '%' && c != '+' ==> Decode([c] + rest, scan) == [c] + Decode(rest, scan)
    ensures |rest| < 2 ==> Decode("%" + rest, scan) == "%" + Decode(rest, scan)
  {
    DecodePlain(c, rest, scan);
    DecodeShort(rest, scan);
    DecodePair("0123456789ABCDEF"[i], "0123456789ABCDEF"[j], i, j, rest, scan) by { HexLetters(i); HexLetters(j); }
    DecodePair("0123456789abcdef"[i], "0123456789abcdef"[j], i, j, rest, scan) by { HexLetters(i); HexLetters(j); }
  }

  lemma DecodePair(h: char, l: char, i: nat, j: nat, rest: string, scan: string -> Option<nat>)
    requires ScansHex(scan) && i < 16 && j < 16 && HexValue(h) == Some(i) && HexValue(l) == Some(j)
    ensures Decode(['%', h, l] + rest, scan) == [(16 * i + j) as char] + Decode(rest, scan)
  {
    hide HexValue;
    var s := ['%', h, l] + rest;
    assert s[1..][0] == h && s[1..][1] == l && s[3..] == rest;
  }

  lemma DecodePlain(c: char, rest: string, scan: string -> Option<nat>)
    ensures Decode("+" + rest, scan) == " " + Decode(rest, scan)
    ensures c != '%' && c != '+' ==> Decode([c] + rest, scan) == [c] + Decode(rest, scan)
  {
    assert ("+" + rest)[1..] == rest && ([c] + rest)[1..] == rest;
  }

  lemma DecodeShort(rest: string, scan: string -> Option<nat>)
    ensures |rest| < 2 ==> Decode("%" + rest, scan) == "%" + Decode(rest, scan)
  {
    assert ("%" + rest)[1..] == rest;
  }

  lemma EncodeHead(s: string)
    requires IsCString(s) && s != ""
    ensures Encode(s) == s <==> Unreserved(s[0]) && Encode(s[1..]) == s[1..]
  {
    EncodedSafe(s[1..]);
    assert s == [s[0]] + s[1..];
    if Unreserved(s[0]) {
      assert Encode(s)[1..] == Encode(s[1..]);
    } else if s[0] == ' ' {
      assert Encode(s)[0] == '+';
    } else {
      assert |Encode(s)| > |s|;
    }
  }

  // A string is left as it is exactly when it holds letters, digits and - _ . ~ only.
  lemma {:induction false} EncodeFixed(s: string)
    requires IsCString(s)
    ensures Encode(s) == s <==> forall i :: 0 <= i < |s| ==>
              || '0' <= s[i] <= '9' || 'A' <= s[i] <= 'Z' || 'a' <= s[i] <= 'z'
              || s[i] == '-' || s[i] == '_' || s[i] == '.' || s[i] == '~'
  {
    if s != "" {
      hide Encode;
      EncodeHead(s);
      EncodeFixed(s[1..]);
    }
  }

  // Decoding never grows a string.
  lemma {:induction false} DecodeShorter(s: string, scan: string -> Option<nat>)
    ensures |Decode(s, scan)| <= |s|
    decreases |s|
  {
    if s != "" {
      DecodeShorter(s[1..], scan);
      if |s| > 2 { DecodeShorter(s[3..], scan); }
    }
  }

  lemma EncodeStep(s: string, i: nat, written: string)
    requires IsCString(s) && i < |s|
    ensures written + Encode(s[i..]) == written + EncodeChar(s[i]) + Encode(s[i + 1..])
  {
    assert s[i..][0] == s[i] && s[i..][1..] == s[i + 1..];
  }

  lemma EncodeStart(s: string)
    requires IsCString(s)
    ensures "" + Encode(s[0..]) == Encode(s)
  {
    assert s[0..] == s;
  }

  lemma EncodeEnd(s: string, written: string)
    requires IsCString(s)
    ensures written + Encode(s[|s|..]) == written
  {
  }

  // papago_url_encode; None when malloc fails
  method UrlEncode(s: string, mallocOk: bool) returns (r: Option<string>)
    requires IsCString(s)
    ensures r == if mallocOk then Some(Encode(s)) else None
  {
    hide Encode, Unreserved;
    if !mallocOk {
      return None;
    }
    var out := new char[|s| * 3 + 1];
    var j := 0;
    EncodeStart(s);
    for i := 0 to |s|
      invariant j <= 3 * i
      invariant out[..j] + Encode(s[i..]) == Encode(s)
    {
      ghost var written := out[..j];
      EncodeStep(s, i, written);
      if Unreserved(s[i]) {
        out[j] := s[i];
        j := j + 1;
      } else if s[i] == ' ' {
        out[j] := '+';
        j := j + 1;
      } else {
        // sprintf terminates what it writes
        out[j], out[j + 1], out[j + 2], out[j + 3] := '%', Digit(s[i] as nat / 16), Digit(s[i] as nat % 16), '\0';
        j := j + 3;
      }
      assert out[..j] == written + EncodeChar(s[i]);
    }
    EncodeEnd(s, out[..j]);
    out[j] := '\0';
    r := Some(out[..j]);
  }

  // The character at hand and how many are used up.
  lemma DecodeStep(s: string, i: nat, scan: string -> Option<nat>, written: string)
    requires i < |s|
    ensures var scanned := if s[i] == '%' && i + 2 < |s| then scan(s[i + 1..]) else None;
      written + Decode(s[i..], scan)
      == if scanned.Some? then written + [Byte(scanned.value)] + Decode(s[i + 3..], scan)
         else written + [if s[i] == '+' then ' ' else s[i]] + Decode(s[i + 1..], scan)
  {
    var left := s[i..];
    assert left[0] == s[i] && left[1..] == s[i + 1..];
    if i + 2 < |s| { assert left[3..] == s[i + 3..]; }
  }

  lemma DecodeStart(s: string, scan: string -> Option<nat>)
    ensures "" + Decode(s[0..], scan) == Decode(s, scan)
  {
    assert s[0..] == s;
  }

  lemma DecodeEnd(s: string, scan: string -> Option<nat>, written: string)
    ensures written + Decode(s[|s|..], scan) == written
  {
  }

  // papago_url_decode; None when malloc fails
  method UrlDecode(s: string, scan: string -> Option<nat>, mallocOk: bool) returns (r: Option<string>)
    ensures r == if mallocOk then Some(Decode(s, scan)) else None
  {
    hide Decode, Byte;
    if !mallocOk {
      return None;
    }
    var out := new char[|s| + 1];
    var i, j := 0, 0;
    DecodeStart(s, scan);
    while i < |s|
      invariant j <= i <= |s|
      invariant out[..j] + Decode(s[i..], scan) == Decode(s, scan)
    {
      ghost var written := out[..j];
      DecodeStep(s, i, scan, written);
      var scanned := if s[i] == '%' && i + 2 < |s| then scan(s[i + 1..]) else None;
      if scanned.Some? {
        out[j] := Byte(scanned.value);
        i := i + 2;
      } else if s[i] == '+' {
        out[j] := ' ';
      } else {
        out[j] := s[i];
      }
      i, j := i + 1, j + 1;
      assert out[..j] == written + [out[j - 1]];
    }
    DecodeEnd(s, scan, out[..j]);
    out[j] := '\0';
    r := Some(out[..j]);
  }
}
