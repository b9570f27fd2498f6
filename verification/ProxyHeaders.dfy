/** rust_proxy/src/main.rs: which headers the proxy lets through, in both directions, and which it
    sets itself (section 6.1 of RFC 7230). */
module ProxyHeaders {
  import opened Basics

  /** One header line; names are lower case, as `HeaderName` keeps them. */
  datatype Header = Header(name: string, value: string)

  const CONNECTION := "connection"
  const HOST := "host"
  const SERVER := "server"
  const CONTENT_LENGTH := "content-length"
  const FORWARDED_FOR := "x-forwarded-for"
  const REAL_IP := "x-real-ip"
  const FORWARDED_PROTO := "x-forwarded-proto"
  const CLIENT_IDENTITY := "x-vvv-client-spki-sha256"

  const HOP_BY_HOP := [
    "connection", "keep-alive", "transfer-encoding", "te", "trailer", "trailers", "upgrade",
    "proxy-authorization", "proxy-authenticate", "proxy-connection"]

  const SECURITY := [
    Header("strict-transport-security", "max-age=63072000; includeSubDomains; preload"),
    Header("x-content-type-options", "nosniff"),
    Header("x-frame-options", "DENY"),
    Header("referrer-policy", "no-referrer")]

  /** What `to_str` and `from_str` accept in a value. */
  predicate IsText(value: string) {
    forall c | c in value :: c == '\t' || ' ' <= c <= '~'
  }

  predicate IsNameChar(c: char) {
    '0' <= c <= '9' || 'a' <= c <= 'z' || 'A' <= c <= 'Z' || c in "!#$%&'*+-.^_`|~"
  }

  function LowerChar(c: char): char { if 'A' <= c <= 'Z' then c - 'A' + 'a' else c }

  function Lower(s: string): string {
    if s == "" then "" else [LowerChar(s[0])] + Lower(s[1..])
  }

  /** `HeaderName::from_bytes`. */
  function ParseName(token: string): Option<string> {
    if token != "" && |token| <= 65535 && forall c | c in token :: IsNameChar(c) then Some(Lower(token)) else None
  }

  function TrimLeft(s: string): string {
    if s != "" && (s[0] == ' ' || s[0] == '\t') then TrimLeft(s[1..]) else s
  }

  function Trim(s: string): string {
    var t := TrimLeft(s);
    if t != "" && (t[|t| - 1] == ' ' || t[|t| - 1] == '\t') then TrimRight(t) else t
  }

  function TrimRight(s: string): string {
    if s != "" && (s[|s| - 1] == ' ' || s[|s| - 1] == '\t') then TrimRight(s[..|s| - 1]) else s
  }

  /** `raw.split(',')`. */
  function Split(s: string): (pieces: seq<string>)
    ensures pieces != []
  {
    if s == "" then [""]
    else
      var rest := Split(s[1..]);
      if s[0] == ',' then [""] + rest else [[s[0]] + rest[0]] + rest[1..]
  }

  function Join(pieces: seq<string>): string
    requires pieces != []
  {
    if |pieces| == 1 then pieces[0] else pieces[0] + "," + Join(pieces[1..])
  }

  /** The pieces are what lies between the commas. */
  lemma {:induction false} SplitIsExact(s: string)
    ensures Join(Split(s)) == s
    ensures forall i | 0 <= i < |Split(s)| :: ',' !in Split(s)[i]
  {
    if s != "" {
      SplitIsExact(s[1..]);
      var rest := Split(s[1..]);
      if s[0] == ',' {
        assert Join([""] + rest) == "" + "," + Join(rest) by {
          assert ([""] + rest)[1..] == rest;
        }
      } else {
        var pieces := [[s[0]] + rest[0]] + rest[1..];
        assert pieces[1..] == rest[1..];
      }
    }
  }

  /** All the values of one name, in order. */
  function Values(headers: seq<Header>, name: string): seq<string> {
    if headers == [] then []
    else
      var last := headers[|headers| - 1];
      Values(headers[..|headers| - 1], name) + (if last.name == name then [last.value] else [])
  }

  /** One `Connection` value nominates a header name. */
  predicate Nominates(value: string, name: string) {
    && IsText(value)
    && exists i :: 0 <= i < |Split(value)| && ParseName(Trim(Split(value)[i])) == Some(name)
  }

  predicate Nominated(headers: seq<Header>, name: string) {
    exists i :: 0 <= i < |Values(headers, CONNECTION)| && Nominates(Values(headers, CONNECTION)[i], name)
  }

  /** The proxy's table, or a `Connection` value, makes this a header of one connection only. */
  predicate HopByHop(headers: seq<Header>, name: string) {
    name in HOP_BY_HOP || Nominated(headers, name)
  }

  /** `connection_header_tokens`. */
  method ConnectionTokens(headers: seq<Header>) returns (tokens: set<string>)
    ensures forall name :: name in tokens <==> Nominated(headers, name)
  {
    hide ParseName, Trim, Split, IsText;
    tokens := {};
    var values := Values(headers, CONNECTION);
    for i := 0 to |values|
      invariant forall name :: name in tokens <==> exists k :: 0 <= k < i && Nominates(values[k], name)
    {
      var more := TokensOf(values[i]);
      tokens := tokens + more;
    }
  }

  /** The inner loop, over the tokens of one value. */
  method TokensOf(value: string) returns (tokens: set<string>)
    ensures forall name :: name in tokens <==> Nominates(value, name)
  {
    hide Trim, Split;
    tokens := {};
    if !IsText(value) {
      return;
    }
    var pieces := Split(value);
    for i := 0 to |pieces|
      invariant forall name :: name in tokens <==>
        exists k :: 0 <= k < i && ParseName(Trim(pieces[k])) == Some(name)
    {
      var token := Trim(pieces[i]);
      if token == "" {
        continue;
      }
      match ParseName(token) {
        case Some(name) => tokens := tokens + {name};
        case None =>
      }
    }
  }

  predicate Pad(s: string) { forall i | 0 <= i < |s| :: s[i] == ' ' || s[i] == '\t' }

  predicate Trimmed(s: string) {
    s != "" ==> s[0] != ' ' && s[0] != '\t' && s[|s| - 1] != ' ' && s[|s| - 1] != '\t'
  }

  /** `name` is `token` in lower case. */
  predicate LowerOf(name: string, token: string) {
    && |name| == |token|
    && forall i | 0 <= i < |token| ::
         name[i] == if 'A' <= token[i] <= 'Z' then (token[i] as int + 32) as char else token[i]
  }

  /** A header name, in any case. */
  predicate IsToken(s: string) { s != "" && |s| <= 65535 && forall i | 0 <= i < |s| :: IsNameChar(s[i]) }

  lemma {:induction false} LowerIs(s: string)
    ensures LowerOf(Lower(s), s)
  {
    if s != "" {
      LowerIs(s[1..]);
    }
  }

  lemma LowerIsUnique(a: string, b: string, token: string)
    requires LowerOf(a, token) && LowerOf(b, token)
    ensures a == b
  {
  }

  lemma {:induction false} TrimLeftIs(s: string) returns (l: string)
    ensures s == l + TrimLeft(s) && Pad(l)
    ensures TrimLeft(s) != "" ==> TrimLeft(s)[0] != ' ' && TrimLeft(s)[0] != '\t'
  {
    if s != "" && (s[0] == ' ' || s[0] == '\t') {
      var m := TrimLeftIs(s[1..]);
      l := [s[0]] + m;
    } else {
      l := "";
    }
  }

  lemma {:induction false} TrimRightIs(s: string) returns (r: string)
    ensures s == TrimRight(s) + r && Pad(r)
    ensures TrimRight(s) != "" ==> TrimRight(s)[|TrimRight(s)| - 1] != ' ' && TrimRight(s)[|TrimRight(s)| - 1] != '\t'
  {
    hide Pad;
    MorePad("", ' ');
    if s != "" && (s[|s| - 1] == ' ' || s[|s| - 1] == '\t') {
      var n := |s| - 1;
      var m := TrimRightIs(s[..n]);
      MorePad(m, s[n]);
      r := m + [s[n]];
      assert s == s[..n] + [s[n]];
    } else {
      r := "";
    }
  }

  lemma MorePad(m: string, c: char)
    ensures Pad("")
    ensures Pad(m) && (c == ' ' || c == '\t') ==> Pad(m + [c])
  {
  }

  /** `trim` takes the padding off both ends, and nothing else. */
  lemma TrimIs(s: string) returns (l: string, r: string)
    ensures s == l + Trim(s) + r && Pad(l) && Pad(r) && Trimmed(Trim(s))
  {
    hide TrimLeft, TrimRight;
    l := TrimLeftIs(s);
    r := TrimRightIs(TrimLeft(s));
    NoPad(TrimLeft(s), r);
    if Trim(s) == TrimLeft(s) {
      r := "";
    }
  }

  lemma NoPad(t: string, r: string)
    requires t == TrimRight(t) + r
    ensures t == "" ==> TrimRight(t) == ""
  {
  }

  lemma TrimIsUnique(l: string, t: string, r: string, l': string, t': string, r': string)
    requires l + t + r == l' + t' + r' && Pad(l) && Pad(r) && Pad(l') && Pad(r')
    requires Trimmed(t) && t != "" && Trimmed(t')
    ensures t == t'
  {
    var s := l + t + r;
    assert s[|l|] == t[0] && s[|s| - |r| - 1] == t[|t| - 1];
    PadConcat(l', r');
    assert t' == "" ==> s == l' + r';
    assert s[|l'|] == t'[0] && s[|s| - |r'| - 1] == t'[|t'| - 1];
    FirstInside(s, l, l');
    FirstInside(s, l', l);
    LastInside(s, r, r');
    LastInside(s, r', r);
    assert t == s[|l|..|s| - |r|] && t' == s[|l'|..|s| - |r'|];
  }

  lemma PadConcat(a: string, b: string)
    requires Pad(a) && Pad(b)
    ensures Pad(a + b)
  {
  }

  lemma FirstInside(s: string, l: string, m: string)
    requires l <= s && m <= s && Pad(m) && |l| < |s| && s[|l|] != ' ' && s[|l|] != '\t'
    ensures |m| <= |l|
  {
  }

  lemma LastOf(s: string, m: string, k: nat)
    requires |m| <= |s| && s[|s| - |m|..] == m
    ensures k < |m| ==> m[|m| - k - 1] == s[|s| - k - 1]
  {
  }

  lemma LastInside(s: string, r: string, m: string)
    requires |r| < |s| && |m| <= |s| && s[|s| - |m|..] == m && Pad(m)
    requires s[|s| - |r| - 1] != ' ' && s[|s| - |r| - 1] != '\t'
    ensures |m| <= |r|
  {
    LastOf(s, m, |r|);
  }

  lemma TokenIsTrimmed(t: string)
    requires IsToken(t)
    ensures Trimmed(t)
  {
  }

  /** A `Connection` value nominates the names, in lower case, that stand between its commas with
      optional spaces and tabs around them. */
  lemma NominationIsExact(value: string, name: string)
    ensures Nominates(value, name) <==>
      IsText(value) && exists i, l, t, r ::
        && 0 <= i < |Split(value)| && Split(value)[i] == l + t + r
        && Pad(l) && Pad(r) && IsToken(t) && LowerOf(name, t)
  {
    hide Split, Trim, IsText, Pad, Trimmed, Lower, LowerOf, IsToken, ParseName;
    if Nominates(value, name) {
      var i :| 0 <= i < |Split(value)| && ParseName(Trim(Split(value)[i])) == Some(name);
      var piece := Split(value)[i];
      var l, r := TrimIs(piece);
      ParsedIsToken(Trim(piece));
      LowerIs(Trim(piece));
      assert Split(value)[i] == l + Trim(piece) + r;
    }
    forall i, l, t, r | IsText(value) && 0 <= i < |Split(value)| && Split(value)[i] == l + t + r
                        && Pad(l) && Pad(r) && IsToken(t) && LowerOf(name, t)
      ensures Nominates(value, name)
    {
      PieceNominates(value, i, l, t, r, name);
    }
  }

  lemma ParsedIsToken(t: string)
    ensures ParseName(t) == if IsToken(t) then Some(Lower(t)) else None
  {
    hide Lower;
    assert forall c | c in t :: exists i :: 0 <= i < |t| && t[i] == c;
    assert forall i | 0 <= i < |t| :: t[i] in t;
  }

  lemma PieceNominates(value: string, i: nat, l: string, t: string, r: string, name: string)
    requires IsText(value) && i < |Split(value)| && Split(value)[i] == l + t + r
    requires Pad(l) && Pad(r) && IsToken(t) && LowerOf(name, t)
    ensures Nominates(value, name)
  {
    hide Split, Trim, IsText, Pad, Trimmed, Lower, LowerOf, ParseName;
    var l', r' := TrimIs(Split(value)[i]);
    TokenIsTrimmed(t);
    TrimIsUnique(l, t, r, l', Trim(Split(value)[i]), r');
    ParsedIsToken(t);
    LowerIs(t);
    LowerIsUnique(name, Lower(t), t);
  }

  /** The names that are always of one connection only (section 6.1 of RFC 7230). */
  lemma AlwaysHopByHop(name: string)
    ensures name in HOP_BY_HOP <==>
      || name == "connection" || name == "keep-alive" || name == "transfer-encoding" || name == "te"
      || name == "trailer" || name == "trailers" || name == "upgrade" || name == "proxy-authorization"
      || name == "proxy-authenticate" || name == "proxy-connection"
  {
    assert HOP_BY_HOP[0] == "connection" && HOP_BY_HOP[1] == "keep-alive" && HOP_BY_HOP[2] == "transfer-encoding";
    assert HOP_BY_HOP[3] == "te" && HOP_BY_HOP[4] == "trailer" && HOP_BY_HOP[5] == "trailers";
    assert HOP_BY_HOP[6] == "upgrade" && HOP_BY_HOP[7] == "proxy-authorization";
    assert HOP_BY_HOP[8] == "proxy-authenticate" && HOP_BY_HOP[9] == "proxy-connection";
  }

  // ---------------------------------------------------------------- header maps

  /** `HeaderMap::remove`. */
  function Removed(headers: seq<Header>, name: string): seq<Header> {
    if headers == [] then []
    else
      var last := headers[|headers| - 1];
      Removed(headers[..|headers| - 1], name) + (if last.name == name then [] else [last])
  }

  /** `HeaderMap::insert`: one value in place of all. */
  function Inserted(headers: seq<Header>, name: string, value: string): seq<Header> {
    Removed(headers, name) + [Header(name, value)]
  }

  lemma ValuesAppend(headers: seq<Header>, h: Header, name: string)
    ensures Values(headers + [h], name) == Values(headers, name) + (if h.name == name then [h.value] else [])
  {
    assert (headers + [h])[..|headers|] == headers;
  }

  lemma {:induction false} ValuesRemoved(headers: seq<Header>, gone: string, name: string)
    ensures Values(Removed(headers, gone), name) == if name == gone then [] else Values(headers, name)
  {
    if headers != [] {
      var n := |headers| - 1;
      ValuesRemoved(headers[..n], gone, name);
      ValuesAppend(Removed(headers[..n], gone), headers[n], name);
      assert Removed(headers[..n], gone) + [] == Removed(headers[..n], gone);
    }
  }

  lemma ValuesInserted(headers: seq<Header>, name: string, value: string)
    ensures forall n :: Values(Inserted(headers, name, value), n) == if n == name then [value] else Values(headers, n)
  {
    forall n
      ensures Values(Inserted(headers, name, value), n) == if n == name then [value] else Values(headers, n)
    {
      ValuesRemoved(headers, name, n);
      ValuesAppend(Removed(headers, name), Header(name, value), n);
    }
  }

  /** Copying the headers that pass the filter; `also` are names dropped besides. */
  method CopyPassing(headers: seq<Header>, also: set<string>) returns (out: seq<Header>)
    ensures forall n :: Values(out, n) == if HopByHop(headers, n) || n in also then [] else Values(headers, n)
  {
    hide Nominated, Values, Copied;
    var tokens := ConnectionTokens(headers);
    out := [];
    NothingCopied(headers, also);
    for i := 0 to |headers|
      invariant Copied(headers, also, i, out)
    {
      var h := headers[i];
      ghost var before := out;
      if h.name !in HOP_BY_HOP && h.name !in tokens && h.name !in also {
        out := out + [h];
      }
      CopiedOne(headers, also, i, before, out);
    }
    AllCopied(headers, also, out);
  }

  /** The copy of the first `i` headers. */
  ghost predicate Copied(headers: seq<Header>, also: set<string>, i: nat, out: seq<Header>)
    requires i <= |headers|
  {
    forall n :: Values(out, n) == if HopByHop(headers, n) || n in also then [] else Values(headers[..i], n)
  }

  lemma NothingCopied(headers: seq<Header>, also: set<string>)
    ensures Copied(headers, also, 0, [])
  {
    assert headers[..0] == [];
  }

  lemma AllCopied(headers: seq<Header>, also: set<string>, out: seq<Header>)
    requires Copied(headers, also, |headers|, out)
    ensures forall n :: Values(out, n) == if HopByHop(headers, n) || n in also then [] else Values(headers, n)
  {
    hide HopByHop, Values;
    assert headers[..|headers|] == headers;
  }

  lemma CopiedOne(headers: seq<Header>, also: set<string>, i: nat, before: seq<Header>, out: seq<Header>)
    requires i < |headers| && Copied(headers, also, i, before)
    requires out ==
      if HopByHop(headers, headers[i].name) || headers[i].name in also then before else before + [headers[i]]
    ensures Copied(headers, also, i + 1, out)
  {
    hide HopByHop, Values;
    var h := headers[i];
    assert headers[..i] + [h] == headers[..i + 1];
    forall n
      ensures Values(out, n) == if HopByHop(headers, n) || n in also then [] else Values(headers[..i + 1], n)
    {
      ValuesAppend(headers[..i], h, n);
      ValuesAppend(before, h, n);
    }
  }

  // -------------------------------------------------------------------- requests

  /** What the upstream server is told under each name. */
  ghost function Forwarded(headers: seq<Header>, host: string, ip: string, identity: string, name: string)
    : seq<string>
  {
    if name == CONTENT_LENGTH then []
    else if name == CLIENT_IDENTITY then [identity]
    else if name == FORWARDED_PROTO then ["https"]
    else if (name == FORWARDED_FOR || name == REAL_IP) && IsText(ip) then [ip]
    else if name == HOST && IsText(host) then [host]
    else if HopByHop(headers, name) then []
    else Values(headers, name)
  }

  /** The headers that are the proxy's own, whatever the client sent under their names. */
  lemma OwnHeaders(headers: seq<Header>, host: string, ip: string, identity: string)
    ensures Forwarded(headers, host, ip, identity, "x-vvv-client-spki-sha256") == [identity]
    ensures Forwarded(headers, host, ip, identity, "x-forwarded-proto") == ["https"]
    ensures Forwarded(headers, host, ip, identity, "content-length") == []
    ensures IsText(ip) ==> Forwarded(headers, host, ip, identity, "x-forwarded-for") == [ip]
    ensures IsText(ip) ==> Forwarded(headers, host, ip, identity, "x-real-ip") == [ip]
    ensures IsText(host) ==> Forwarded(headers, host, ip, identity, "host") == [host]
    ensures Returned(headers, "server") == [] && Returned(headers, "content-length") == []
  {
    hide HopByHop, Values, IsText;
    assert CONTENT_LENGTH[0] == 'c' && CLIENT_IDENTITY[0] == 'x' && FORWARDED_PROTO[0] == 'x' && HOST[0] == 'h';
    assert FORWARDED_FOR[2] == 'f' && REAL_IP[2] == 'r' && CLIENT_IDENTITY[2] == 'v' && FORWARDED_PROTO[2] == 'f';
    assert |FORWARDED_FOR| == 15 && |FORWARDED_PROTO| == 17;
    assert forall i | 0 <= i < |SECURITY| :: SECURITY[i].name[0] != 'c' && |SECURITY[i].name| > 6;
  }

  /** The request's headers as the proxy sends them on; `None` for the 502 answer that an identity
      unfit for a header value gets. */
  method RewriteRequest(headers: seq<Header>, host: string, ip: string, identity: string)
    returns (sent: Option<seq<Header>>)
    ensures sent == None <==> !IsText(identity)
    ensures sent.Some? ==> forall n :: Values(sent.value, n) == Forwarded(headers, host, ip, identity, n)
  {
    hide HopByHop, Values, Inserted, IsText;
    var out := CopyPassing(headers, {CLIENT_IDENTITY});
    if IsText(host) {
      out := Put(out, HOST, host);
    }
    if IsText(ip) {
      out := Put(out, FORWARDED_FOR, ip);
      out := Put(out, REAL_IP, ip);
    }
    out := Put(out, FORWARDED_PROTO, "https");
    if !IsText(identity) {
      return None;
    }
    out := Put(out, CLIENT_IDENTITY, identity);
    forall n {
      ValuesRemoved(out, CONTENT_LENGTH, n);
    }
    sent := Some(Removed(out, CONTENT_LENGTH));
  }

  method Put(headers: seq<Header>, name: string, value: string) returns (out: seq<Header>)
    ensures forall n :: Values(out, n) == if n == name then [value] else Values(headers, n)
  {
    ValuesInserted(headers, name, value);
    out := Inserted(headers, name, value);
  }

  // ------------------------------------------------------------------- responses

  predicate IsSecurity(name: string) {
    exists i :: 0 <= i < |SECURITY| && SECURITY[i].name == name
  }

  function SecurityValue(name: string): string
    requires IsSecurity(name)
  {
    if name == SECURITY[0].name then SECURITY[0].value
    else if name == SECURITY[1].name then SECURITY[1].value
    else if name == SECURITY[2].name then SECURITY[2].value
    else SECURITY[3].value
  }

  /** What the client is told under each name. */
  ghost function Returned(headers: seq<Header>, name: string): seq<string> {
    if IsSecurity(name) then [SecurityValue(name)]
    else if name == CONTENT_LENGTH || name == SERVER || HopByHop(headers, name) then []
    else Values(headers, name)
  }

  ghost function PartlySecured(headers: seq<Header>, i: nat, name: string): seq<string>
    requires i <= |SECURITY|
  {
    if exists k :: 0 <= k < i && SECURITY[k].name == name then [SecurityValue(name)]
    else if name == CONTENT_LENGTH || name == SERVER || HopByHop(headers, name) then []
    else Values(headers, name)
  }

  method RewriteResponse(headers: seq<Header>) returns (out: seq<Header>)
    ensures forall n :: Values(out, n) == Returned(headers, n)
  {
    hide HopByHop, Values;
    out := CopyPassing(headers, {CONTENT_LENGTH, SERVER});
    for i := 0 to |SECURITY|
      invariant forall n :: Values(out, n) == PartlySecured(headers, i, n)
    {
      SecurityNames(i);
      out := Put(out, SECURITY[i].name, SECURITY[i].value);
    }
  }

  lemma SecurityNames(i: nat)
    requires i < |SECURITY|
    ensures IsSecurity(SECURITY[i].name) && SecurityValue(SECURITY[i].name) == SECURITY[i].value
  {
    assert SECURITY[0].name[0] == 's' && SECURITY[1].name[2] == 'c' && SECURITY[2].name[2] == 'f';
    assert SECURITY[3].name[0] == 'r' && SECURITY[1].name[0] == 'x' && SECURITY[2].name[0] == 'x';
  }

  /** The proxy's security policy, as every client sees it. */
  lemma SecurityPolicy(headers: seq<Header>)
    ensures Returned(headers, "strict-transport-security") == ["max-age=63072000; includeSubDomains; preload"]
    ensures Returned(headers, "x-content-type-options") == ["nosniff"]
    ensures Returned(headers, "x-frame-options") == ["DENY"]
    ensures Returned(headers, "referrer-policy") == ["no-referrer"]
  {
    hide HopByHop, Values;
    SecurityNames(0);
    SecurityNames(1);
    SecurityNames(2);
    SecurityNames(3);
  }

  // -------------------------------------------------------------------- theorems

  /** A forwarded request nominates nothing and carries no header of the connection it came on,
      save those the proxy sets to its own value; and rewriting it again changes no value. */
  lemma ForwardingIsClean(headers: seq<Header>, sent: seq<Header>, host: string, ip: string, identity: string)
    requires IsText(host) && IsText(ip)
    requires forall n :: Values(sent, n) == Forwarded(headers, host, ip, identity, n)
    ensures forall n :: HopByHop(headers, n) && Values(sent, n) != [] ==>
      n in {HOST, FORWARDED_FOR, REAL_IP, FORWARDED_PROTO, CLIENT_IDENTITY}
    ensures forall n :: HopByHop(sent, n) <==> n in HOP_BY_HOP
    ensures forall n :: Forwarded(sent, host, ip, identity, n) == Values(sent, n)
  {
    hide Nominated, Values, IsText, HopByHop;
    OwnNames();
    TableIsHopByHop(headers, CONNECTION);
    assert Values(sent, CONNECTION) == Forwarded(headers, host, ip, identity, CONNECTION);
    NothingNominated(sent);
    forall n
      ensures Forwarded(sent, host, ip, identity, n) == Values(sent, n)
    {
      TableIsHopByHop(headers, n);
    }
  }

  lemma TableIsHopByHop(headers: seq<Header>, name: string)
    ensures name in HOP_BY_HOP ==> HopByHop(headers, name)
    ensures CONNECTION in HOP_BY_HOP
  {
    assert CONNECTION == HOP_BY_HOP[0];
  }

  lemma NothingNominated(headers: seq<Header>)
    requires Values(headers, CONNECTION) == []
    ensures forall n :: HopByHop(headers, n) <==> n in HOP_BY_HOP
  {
    hide Nominates;
  }

  /** An answer keeps no header of the upstream connection either, and the security headers are
      the proxy's; rewriting it again changes no value. */
  lemma ReturningIsClean(headers: seq<Header>, out: seq<Header>)
    requires forall n :: Values(out, n) == Returned(headers, n)
    ensures forall n :: HopByHop(headers, n) && Values(out, n) != [] ==> IsSecurity(n)
    ensures forall n :: HopByHop(out, n) <==> n in HOP_BY_HOP
    ensures forall n :: Returned(out, n) == Values(out, n)
  {
    hide Nominated, Values, HopByHop, SecurityValue;
    assert !IsSecurity(CONNECTION) by {
      assert forall i | 0 <= i < |SECURITY| :: SECURITY[i].name[0] != 'c';
    }
    hide IsSecurity;
    TableIsHopByHop(headers, CONNECTION);
    assert Values(out, CONNECTION) == Returned(headers, CONNECTION);
    NothingNominated(out);
    forall n
      ensures Returned(out, n) == Values(out, n)
    {
      TableIsHopByHop(headers, n);
    }
  }

  lemma OwnNames()
    ensures CONNECTION !in {CONTENT_LENGTH, CLIENT_IDENTITY, FORWARDED_PROTO, FORWARDED_FOR, REAL_IP, HOST}
  {
    assert CONNECTION[0] == 'c' && CLIENT_IDENTITY[0] == 'x' && CONNECTION[3] == 'n' && CONTENT_LENGTH[3] == 't';
    assert FORWARDED_PROTO[0] == 'x' && FORWARDED_FOR[0] == 'x' && REAL_IP[0] == 'x' && HOST[0] == 'h';
  }
}
