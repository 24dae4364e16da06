/** The urlencoded form parser: it cuts a copy of the body into C strings in place. */
module FormParser {
  import opened KeyValues
  import opened Options
  import opened Splitting
  import opened UrlCodec

  // The C string a buffer holds: what comes before the first NUL.
  function UpToNul(s: string): string {
    s[..Cspn(s, '\0')]
  }

  predicate HasEquals(token: string) {
    Cspn(token, '=') < |token|
  }

  // What a token stands for. Storing it cuts a decoded %00 off, and all that follows it.
  function FieldOf(token: string, scan: string -> Option<nat>): KeyValue {
    var eq := Cspn(token, '=');
    if HasEquals(token) then
      KeyValue(UpToNul(Decode(token[..eq], scan)), UpToNul(Decode(token[eq + 1..], scan)))
    else KeyValue(UpToNul(Decode(token, scan)), "")
  }

  // The pairs of a body.
  function Tokens(body: string): seq<string> {
    Split(UpToNul(body), '&')
  }

  // The fields of the first k tokens, less those that found no memory: mem(i, j) is the j-th allocation of token i.
  function Stored(tokens: seq<string>, scan: string -> Option<nat>, mem: (nat, nat) -> bool, k: nat): seq<KeyValue>
    requires k <= |tokens|
  {
    if k == 0 then []
    else
      Stored(tokens, scan, mem, k - 1)
      + if Kept(tokens[k - 1], mem, k - 1) then [FieldOf(tokens[k - 1], scan)] else []
  }

  predicate Kept(token: string, mem: (nat, nat) -> bool, i: nat) {
    mem(i, 0) && (HasEquals(token) ==> mem(i, 1)) && mem(i, 2)
  }

  // The form of a body when memory does not run out.
  function FormOf(body: string, scan: string -> Option<nat>): seq<KeyValue> {
    Stored(Tokens(body), scan, (i, j) => true, |Tokens(body)|)
  }

  // ---------------------------------------------------------------- the round trip

  predicate IsField(f: KeyValue) {
    IsCString(f.key) && IsCString(f.value)
  }

  predicate AreFields(fields: seq<KeyValue>) {
    forall i :: 0 <= i < |fields| ==> IsField(fields[i])
  }

  function Item(f: KeyValue): string
    requires IsField(f)
  {
    Encode(f.key) + "=" + Encode(f.value)
  }

  function Items(fields: seq<KeyValue>): seq<string>
    requires AreFields(fields)
  {
    if fields == [] then [] else Items(fields[..|fields| - 1]) + [Item(fields[|fields| - 1])]
  }

  // What a browser sends.
  function Serialize(fields: seq<KeyValue>): string
    requires AreFields(fields)
  {
    Join(Items(fields), "&")
  }

  lemma NoNul(s: string)
    requires IsCString(s)
    ensures UpToNul(s) == s
  {
    CspnUnique(s, '\0', |s|);
  }

  lemma ItemBack(f: KeyValue, scan: string -> Option<nat>)
    requires ScansHex(scan) && IsField(f)
    ensures FieldOf(Item(f), scan) == f
  {
    var item, k := Item(f), Encode(f.key);
    EncodedSafe(f.key);
    CspnUnique(item, '=', |k|);
    assert item[..|k|] == k && item[|k| + 1..] == Encode(f.value);
    RoundTrip(f.key, scan);
    RoundTrip(f.value, scan);
    NoNul(f.key);
    NoNul(f.value);
  }

  lemma ItemSafe(f: KeyValue)
    requires IsField(f)
    ensures IsPart(Item(f), '&') && IsCString(Item(f))
  {
    hide Encode;
    EncodedSafe(f.key);
    EncodedSafe(f.value);
  }

  lemma {:induction false} ItemsSafe(fields: seq<KeyValue>)
    requires AreFields(fields)
    ensures forall part :: part in Items(fields) ==> IsPart(part, '&')
    ensures IsCString(Serialize(fields))
  {
    if fields != [] {
      var front, last := fields[..|fields| - 1], fields[|fields| - 1];
      ItemsSafe(front);
      ItemSafe(last);
      assert Items(fields)[..|Items(fields)| - 1] == Items(front);
    }
  }

  lemma {:induction false} ItemsBack(fields: seq<KeyValue>, scan: string -> Option<nat>, mem: (nat, nat) -> bool,
                                     more: seq<string>)
    requires ScansHex(scan) && AreFields(fields) && forall i, j :: mem(i, j)
    ensures |Items(fields)| == |fields|
    ensures Stored(Items(fields) + more, scan, mem, |fields|) == fields
  {
    hide FieldOf, Item, ScansHex, IsField;
    if fields != [] {
      var n := |fields| - 1;
      var front := fields[..n];
      ItemBack(fields[n], scan);
      ItemsBack(front, scan, mem, [Item(fields[n])] + more);
      assert Items(fields) + more == Items(front) + ([Item(fields[n])] + more);
      assert fields == front + [fields[n]];
    }
  }

  // Parsing undoes serializing: the same fields in the same order, empty keys and values included.
  lemma FormRoundTrip(fields: seq<KeyValue>, scan: string -> Option<nat>)
    requires ScansHex(scan) && AreFields(fields)
    ensures FormOf(Serialize(fields), scan) == fields
  {
    ItemsSafe(fields);
    SplitJoin(Items(fields), '&');
    NoNul(Serialize(fields));
    ItemsBack(fields, scan, (i, j) => true, []);
    assert Items(fields) + [] == Items(fields);
  }

  lemma UpToNulConcat(a: string, b: string)
    ensures UpToNul(a + b) == if '\0' in a then UpToNul(a) else a + UpToNul(b)
  {
    if '\0' in a {
      CspnUnique(a + b, '\0', Cspn(a, '\0'));
    } else {
      CspnUnique(a + b, '\0', |a| + Cspn(b, '\0'));
    }
  }

  lemma UpToNulAmpersand(a: string, b: string)
    ensures UpToNul(a + "&" + b) == if '\0' in a then UpToNul(a) else a + "&" + UpToNul(b)
  {
    UpToNulConcat(a + "&", b);
    UpToNulConcat(a, "&");
  }

  lemma TokensMiddle(a: string, b: string)
    ensures Tokens(a + "&" + "&" + b) == Tokens(a + "&" + b)
  {
    hide Split, UpToNul;
    UpToNulAmpersand(a + "&", b);
    UpToNulAmpersand(a, b);
    if '\0' in a {
      UpToNulConcat(a, "&");
    } else {
      ExtraSeparators(a, UpToNul(b), '&');
    }
  }

  lemma TokensEnds(a: string)
    ensures Tokens("&" + a) == Tokens(a) == Tokens(a + "&")
  {
    hide Split, UpToNul;
    UpToNulConcat("&", a);
    UpToNulConcat(a, "&");
    UpToNulConcat(a, "");
    NoNul("&");
    NoNul("");
    assert a + "" == a;
    ExtraSeparators(UpToNul(a), "", '&');
  }

  // Extra '&' between, before or after the pairs change nothing.
  lemma ExtraAmpersands(a: string, b: string, scan: string -> Option<nat>)
    ensures FormOf(a + "&" + "&" + b, scan) == FormOf(a + "&" + b, scan)
    ensures FormOf("&" + a, scan) == FormOf(a, scan) == FormOf(a + "&", scan)
  {
    hide Tokens, Stored;
    TokensMiddle(a, b);
    TokensEnds(a);
  }

  // ---------------------------------------------------------------- single pairs

  // Nothing in it is a separator, an escape or a terminator.
  predicate Literal(s: string) {
    forall k :: 0 <= k < |s| ==> s[k] != '&' && s[k] != '%' && s[k] != '+' && s[k] != '\0'
  }

  lemma {:induction false} LiteralDecodes(s: string, scan: string -> Option<nat>)
    requires Literal(s)
    ensures UpToNul(Decode(s, scan)) == s && UpToNul(s) == s && (s != "" ==> Tokens(s) == [s])
  {
    LiteralStays(s, scan);
    CspnUnique(s, '\0', |s|);
    if s != "" { SplitPlain(s, '&'); }
  }

  lemma {:induction false} LiteralStays(s: string, scan: string -> Option<nat>)
    requires Literal(s)
    ensures Decode(s, scan) == s
  {
    if s != "" {
      LiteralStays(s[1..], scan);
      assert s == [s[0]] + s[1..];
    }
  }

  lemma FormOfToken(token: string, scan: string -> Option<nat>)
    requires Tokens(token) == [token]
    ensures FormOf(token, scan) == [FieldOf(token, scan)]
  {
    hide FieldOf;
    var tokens := Tokens(token);
    assert Stored(tokens, scan, (i, j) => true, 0) == [];
    assert [] + [FieldOf(token, scan)] == [FieldOf(token, scan)];
  }

  // A key without an equals sign is a field with an empty value.
  lemma BareKey(key: string, scan: string -> Option<nat>)
    requires Literal(key) && key != "" && '=' !in key
    ensures FormOf(key, scan) == [KeyValue(key, "")]
  {
    LiteralDecodes(key, scan);
    FormOfToken(key, scan);
    CspnUnique(key, '=', |key|);
  }

  // The first equals sign ends the key, the others belong to the value.
  lemma FirstEquals(key: string, value: string, scan: string -> Option<nat>)
    requires Literal(key) && '=' !in key && Literal(value)
    ensures FormOf(key + "=" + value, scan) == [KeyValue(key, value)]
  {
    var token := key + "=" + value;
    LiteralDecodes(token, scan);
    FormOfToken(token, scan);
    CspnUnique(token, '=', |key|);
    assert token[..|key|] == key && token[|key| + 1..] == value;
    LiteralDecodes(key, scan);
    LiteralDecodes(value, scan);
  }

  lemma {:induction false} StoredConcat(a: seq<string>, b: seq<string>, scan: string -> Option<nat>,
                                        mem: (nat, nat) -> bool, k: nat)
    requires k <= |b| && forall i, j :: mem(i, j)
    ensures Stored(a + b, scan, mem, |a| + k) == Stored(a, scan, mem, |a|) + Stored(b, scan, mem, k)
  {
    hide FieldOf, HasEquals;
    if k == 0 {
      StoredFront(a, b, scan, mem, |a|);
    } else {
      StoredConcat(a, b, scan, mem, k - 1);
    }
  }

  lemma {:induction false} StoredFront(a: seq<string>, b: seq<string>, scan: string -> Option<nat>,
                                       mem: (nat, nat) -> bool, k: nat)
    requires k <= |a|
    ensures Stored(a + b, scan, mem, k) == Stored(a, scan, mem, k)
  {
    hide FieldOf;
    if k > 0 { StoredFront(a, b, scan, mem, k - 1); }
  }

  // An ampersand separates: the fields of the two sides, in order.
  lemma FormConcat(a: string, b: string, scan: string -> Option<nat>)
    requires '\0' !in a
    ensures FormOf(a + "&" + b, scan) == FormOf(a, scan) + FormOf(b, scan)
  {
    hide Stored, Split;
    UpToNulAmpersand(a, b);
    CspnUnique(a, '\0', |a|);
    assert UpToNul(a) == a;
    SplitAt(a, UpToNul(b), '&');
    assert Tokens(a + "&" + b) == Tokens(a) + Tokens(b);
    StoredConcat(Tokens(a), Tokens(b), scan, (i, j) => true, |Tokens(b)|);
  }

  // ---------------------------------------------------------------- strtok_r and form_body_parser

  // A buffer from a position to its terminator, which is its last element.
  predicate Terminated(buf: array<char>, save: nat)
    reads buf
  {
    save < buf.Length && buf[buf.Length - 1] == '\0' && forall i :: save <= i < buf.Length - 1 ==> buf[i] != '\0'
  }

  function Text(buf: array<char>, save: nat): string
    requires save < buf.Length
    reads buf
  {
    buf[save..buf.Length - 1]
  }

  // The buffer holds a C string at a position.
  ghost predicate Holds(buf: seq<char>, at: nat, token: string) {
    at + |token| < |buf| && buf[at..at + |token|] == token && buf[at + |token|] == '\0' && '\0' !in token
  }

  lemma HeldString(buf: seq<char>, at: nat, token: string)
    requires Holds(buf, at, token)
    ensures UpToNul(buf[at..]) == token
  {
    CspnUnique(buf[at..], '\0', |token|);
    assert buf[at..][..|token|] == token;
  }

  // Overwriting the '=' leaves two strings.
  lemma HeldPair(buf: seq<char>, at: nat, token: string, eq: nat)
    requires Holds(buf, at, token) && eq < |token|
    ensures var cut := buf[at + eq := '\0'];
      Holds(cut, at, token[..eq]) && Holds(cut, at + eq + 1, token[eq + 1..])
  {
    var cut := buf[at + eq := '\0'];
    assert cut[at..at + eq] == buf[at..at + |token|][..eq];
    assert cut[at + eq + 1..at + |token|] == buf[at..at + |token|][eq + 1..];
  }

  // strtok_r(NULL, "&", &save): None at the end, otherwise where the next token starts; it is terminated in place.
  method Strtok(buf: array<char>, save: nat) returns (tok: Option<nat>, save': nat, ghost token: string)
    requires Terminated(buf, save)
    modifies buf
    ensures Terminated(buf, save')
    ensures tok.None? ==> Split(old(Text(buf, save)), '&') == []
    ensures tok.Some? ==>
      && save <= tok.value && tok.value + |token| <= save' && token != ""
      && Holds(buf[..], tok.value, token)
      && Split(old(Text(buf, save)), '&') == [token] + Split(Text(buf, save'), '&')
  {
    hide Cspn, Split;
    var n := buf.Length - 1;
    ghost var text := Text(buf, save);
    var at := save;
    while at < n && buf[at] == '&'
      invariant save <= at <= n && buf[..] == old(buf[..]) && Split(buf[at..n], '&') == Split(text, '&')
    {
      SplitSkip(buf[at..n]);
      assert buf[at..n][1..] == buf[at + 1..n];
      at := at + 1;
    }
    SplitCut(buf[at..n]);
    if at == n {
      token := "";
      return None, n, token;
    }
    var left := buf[at..n];
    var len := Cspn(left, '&');
    token := left[..len];
    TokenAt(buf[..], at, n, len);
    assert buf[..][at..n] == left && buf[..][at..at + len] == buf[at..at + len];
    tok := Some(at);
    if at + len < n {
      buf[at + len] := '\0';
      save' := at + len + 1;
      assert buf[save'..n] == left[len + 1..];
    } else {
      save' := n;
      assert "" == buf[n..n];
    }
  }

  lemma TokenAt(buf: seq<char>, at: nat, n: nat, len: nat)
    requires at < n <= |buf| && at + len <= n
    ensures buf[at..n][..len] == buf[at..at + len] && buf[at..n][0] == buf[at]
  {
  }

  lemma SplitSkip(s: string)
    requires s != "" && s[0] == '&'
    ensures Split(s, '&') == Split(s[1..], '&')
  {
  }

  lemma SplitCut(s: string)
    ensures s == "" ==> Split(s, '&') == []
    ensures s != "" && s[0] != '&' ==>
      var n := Cspn(s, '&');
      n > 0 && Split(s, '&') == [s[..n]] + Split(if n < |s| then s[n + 1..] else "", '&')
  {
    var n := Cspn(s, '&');
    if n < |s| { assert s[n..][1..] == s[n + 1..]; }
  }

  lemma StoredStep(tokens: seq<string>, k: nat, token: string, rest: seq<string>)
    requires k <= |tokens| && tokens[k..] == [token] + rest
    ensures k < |tokens| && tokens[k] == token && tokens[k + 1..] == rest
  {
    assert |tokens[k..]| == |tokens| - k && tokens[k..][0] == tokens[k] && tokens[k..][1..] == tokens[k + 1..];
    assert ([token] + rest)[1..] == rest;
  }

  lemma NoTokens(body: string)
    requires body == ""
    ensures Tokens(body) == []
  {
  }

  // form_body_parser; the body is None for NULL
  method ParseForm(body: Option<string>, scan: string -> Option<nat>, copyOk: bool, mem: (nat, nat) -> bool)
    returns (form: seq<KeyValue>)
    ensures form == if body.None? || !copyOk then [] else
              Stored(Tokens(body.value), scan, mem, |Tokens(body.value)|)
  {
    form := [];
    if body.None? || body.value == "" || !copyOk {
      if body.Some? && body.value == "" { NoTokens(body.value); }
      return;
    }
    var text := UpToNul(body.value);
    var buf := new char[|text| + 1](i requires 0 <= i <= |text| => if i < |text| then text[i] else '\0');
    ghost var tokens := Tokens(body.value);
    assert buf[0..|text|] == text;
    var k: nat := 0;
    var pair: Option<nat>, save: nat, token := Strtok(buf, 0);
    while pair.Some?
      invariant fresh(buf) && Terminated(buf, save) && k <= |tokens|
      invariant form == Stored(tokens, scan, mem, k)
      invariant pair.None? ==> k == |tokens|
      invariant pair.Some? ==>
        && pair.value + |token| <= save && Holds(buf[..], pair.value, token)
        && tokens[k..] == [token] + Split(Text(buf, save), '&')
      decreases |tokens| - k
    {
      StoredStep(tokens, k, token, Split(Text(buf, save), '&'));
      var field := StorePair(buf, save, pair.value, scan, mem, k, token);
      form := form + field;
      k := k + 1;
      pair, save, token := Strtok(buf, save);
    }
  }

  // One round of form_body_parser's loop: cut at the '=', decode both strings, append them.
  method StorePair(buf: array<char>, ghost save: nat, pair: nat, scan: string -> Option<nat>,
                   mem: (nat, nat) -> bool, k: nat, ghost token: string)
    returns (stored: seq<KeyValue>)
    requires Terminated(buf, save) && Holds(buf[..], pair, token) && pair + |token| <= save
    modifies buf
    ensures Terminated(buf, save) && Text(buf, save) == old(Text(buf, save))
    ensures stored == if Kept(token, mem, k) then [FieldOf(token, scan)] else []
  {
    hide UpToNul, Cspn, Split, Decode;
    NoNul("");
    HeldString(buf[..], pair, token);
    var eq := Cspn(UpToNul(buf[pair..]), '=');
    var key, value := None, Some("");
    if eq < |UpToNul(buf[pair..])| {
      HeldPair(buf[..], pair, token, eq);
      ghost var cut := buf[..][pair + eq := '\0'];
      buf[pair + eq] := '\0';
      assert buf[..] == cut;
      HeldString(cut, pair, token[..eq]);
      HeldString(cut, pair + eq + 1, token[eq + 1..]);
      key := UrlDecode(UpToNul(buf[pair..]), scan, mem(k, 0));
      value := UrlDecode(UpToNul(buf[pair + eq + 1..]), scan, mem(k, 1));
    } else {
      key := UrlDecode(UpToNul(buf[pair..]), scan, mem(k, 0));
    }
    stored := [];
    // add_kv copies the C strings
    if key.Some? && value.Some? && mem(k, 2) {
      stored := [KeyValue(UpToNul(key.value), UpToNul(value.value))];
    }
  }
}
