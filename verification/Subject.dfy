/** The subject grammar (subject.go): what is built, what is parsed, and which endpoint it reaches. */
module Subject {
  import opened Common
  import opened Utf8

  const DOT: Byte := 0x2E
  const SLASH: Byte := 0x2F

  function Ascii(s: string): (b: Bytes)
    ensures |b| == |s|
  {
    seq(|s|, i requires 0 <= i < |s| => s[i] as int)
  }

  const REQ: Bytes := Ascii(".req.")
  const DEFAULT_PREFIX: Bytes := Ascii("mcp.v1")
  const UNDERSCORE: Bytes := [0x5F]
  const STAR: Bytes := [0x2A]
  const REST: Bytes := [0x3E]
  const TOOLS_CALL: Bytes := Ascii("tools/call")
  const PROMPTS_GET: Bytes := Ascii("prompts/get")
  const RESOURCES_READ: Bytes := Ascii("resources/read")

  predicate TokenByte(c: Byte) {
    0x30 <= c <= 0x39 || 0x41 <= c <= 0x5A || 0x61 <= c <= 0x7A || c == 0x5F || c == 0x2D
  }

  predicate TokenSafe(s: Bytes) { s != [] && forall c :: c in s ==> TokenByte(c) }

  // ---- Splitting and joining ----

  function Split(s: Bytes, sep: Byte): (toks: seq<Bytes>)
    ensures toks != []
  {
    if s == [] then [[]]
    else
      var rest := Split(s[1..], sep);
      if s[0] == sep then [[]] + rest else [[s[0]] + rest[0]] + rest[1..]
  }

  function Join(toks: seq<Bytes>, sep: Byte): Bytes
    requires toks != []
  {
    if |toks| == 1 then toks[0] else toks[0] + [sep] + Join(toks[1..], sep)
  }

  lemma {:induction false} JoinSplit(s: Bytes, sep: Byte)
    ensures Join(Split(s, sep), sep) == s
  {
    if s != [] {
      var rest := Split(s[1..], sep);
      JoinSplit(s[1..], sep);
      if s[0] == sep {
        assert ([[]] + rest)[1..] == rest;
      } else {
        var toks := [[s[0]] + rest[0]] + rest[1..];
        assert toks[1..] == rest[1..];
      }
      assert s == [s[0]] + s[1..];
    }
  }

  lemma {:induction false} SplitToken(t: Bytes, sep: Byte)
    requires sep !in t
    ensures Split(t, sep) == [t]
  {
    if t != [] {
      assert t[0] in t && t == [t[0]] + t[1..];
      SplitToken(t[1..], sep);
      assert [t[1..]][1..] == [];
    }
  }

  lemma {:induction false} SplitHead(t: Bytes, s: Bytes, sep: Byte)
    requires sep !in t
    ensures Split(t + [sep] + s, sep) == [t] + Split(s, sep)
  {
    var w := t + [sep] + s;
    if t == [] {
      assert w[1..] == s;
    } else {
      assert t[0] in t;
      assert w[1..] == t[1..] + [sep] + s && t == [t[0]] + t[1..];
      SplitHead(t[1..], s, sep);
      assert ([t[1..]] + Split(s, sep))[1..] == Split(s, sep);
    }
  }

  lemma {:induction false} SplitJoin(toks: seq<Bytes>, sep: Byte)
    requires toks != [] && forall t :: t in toks ==> sep !in t
    ensures Split(Join(toks, sep), sep) == toks
  {
    if |toks| == 1 {
      SplitToken(toks[0], sep);
    } else {
      SplitHead(toks[0], Join(toks[1..], sep), sep);
      SplitJoin(toks[1..], sep);
    }
  }

  lemma {:induction false} SplitConcat(a: Bytes, b: Bytes, sep: Byte)
    ensures Split(a + [sep] + b, sep) == Split(a, sep) + Split(b, sep)
  {
    var w := a + [sep] + b;
    if a == [] {
      assert w[1..] == b;
    } else {
      assert w[1..] == a[1..] + [sep] + b;
      SplitConcat(a[1..], b, sep);
    }
  }

  lemma TokensSplit(toks: seq<Bytes>)
    requires toks != [] && forall t :: t in toks ==> TokenSafe(t)
    ensures Split(Join(toks, DOT), DOT) == toks
  {
    forall t | t in toks
      ensures DOT !in t
    {
      assert !TokenByte(DOT);
    }
    SplitJoin(toks, DOT);
  }

  // ---- The grammar: verb is the MCP method, as in tools/call ----

  datatype Field = NoField | NameField | UriField

  /** mcpspec.NameField. */
  function FieldOf(verb: Bytes): Field {
    if verb == TOOLS_CALL || verb == PROMPTS_GET then NameField
    else if verb == RESOURCES_READ then UriField
    else NoField
  }

  function NameToken(name: Bytes): Bytes { if TokenSafe(name) then name else UNDERSCORE }

  function SubjectNameToken(verb: Bytes, name: Bytes): (tok: Bytes)
    ensures TokenSafe(tok)
  {
    if FieldOf(verb) == NameField then NameToken(name) else UNDERSCORE
  }

  function Filled(s: Bytes, default: Bytes): Bytes { if s == [] then default else s }

  function Head(prefix: Bytes): Bytes { Filled(prefix, DEFAULT_PREFIX) + REQ }

  datatype Parsed = Parsed(tenant: Bytes, user: Bytes, server: Bytes, verb: Bytes, name: Bytes)

  predicate Buildable(tenant: Bytes, user: Bytes, server: Bytes, verb: Bytes) {
    && TokenSafe(tenant) && TokenSafe(Filled(user, UNDERSCORE)) && TokenSafe(server) && verb != []
    && forall seg :: seg in Split(verb, SLASH) ==> TokenSafe(seg)
  }

  function Tokens(tenant: Bytes, user: Bytes, server: Bytes, verb: Bytes, name: Bytes): seq<Bytes> {
    [tenant, Filled(user, UNDERSCORE), server] + Split(verb, SLASH) + [SubjectNameToken(verb, name)]
  }

  function BuildSubject(prefix: Bytes, tenant: Bytes, user: Bytes, server: Bytes, verb: Bytes, name: Bytes): Option<Bytes> {
    if !Buildable(tenant, user, server, verb) then None
    else
      Some(Head(prefix) + tenant + [DOT] + Filled(user, UNDERSCORE) + [DOT] + server + [DOT]
           + Join(Split(verb, SLASH), DOT) + [DOT] + SubjectNameToken(verb, name))
  }

  function ParseSubject(subject: Bytes, prefix: Bytes): Option<Parsed> {
    var head := Head(prefix);
    if !(head <= subject) then None
    else
      var toks := Split(subject[|head|..], DOT);
      if |toks| < 5 || (exists t :: t in toks && !TokenSafe(t)) then None
      else Some(Parsed(toks[0], toks[1], toks[2], Join(toks[3..|toks| - 1], SLASH), toks[|toks| - 1]))
  }

  lemma {:induction false} JoinSnoc(toks: seq<Bytes>, last: Bytes, sep: Byte)
    requires toks != []
    ensures Join(toks + [last], sep) == Join(toks, sep) + [sep] + last
  {
    if |toks| > 1 {
      JoinSnoc(toks[1..], last, sep);
      assert (toks + [last])[1..] == toks[1..] + [last];
    } else {
      assert (toks + [last])[1..] == [last];
    }
  }

  lemma JoinCons(t: Bytes, toks: seq<Bytes>, sep: Byte)
    requires toks != []
    ensures Join([t] + toks, sep) == t + [sep] + Join(toks, sep)
  {
  }

  lemma BuiltTokens(prefix: Bytes, tenant: Bytes, user: Bytes, server: Bytes, verb: Bytes, name: Bytes)
    requires Buildable(tenant, user, server, verb)
    ensures BuildSubject(prefix, tenant, user, server, verb, name)
      == Some(Head(prefix) + Join(Tokens(tenant, user, server, verb, name), DOT))
  {
    hide Join, Split, TokenSafe, SubjectNameToken, Head, Filled;
    var segs, tok := Split(verb, SLASH), SubjectNameToken(verb, name);
    var u := Filled(user, UNDERSCORE);
    JoinSnoc(segs, tok, DOT);
    JoinCons(server, segs + [tok], DOT);
    JoinCons(u, [server] + (segs + [tok]), DOT);
    JoinCons(tenant, [u] + ([server] + (segs + [tok])), DOT);
    assert Tokens(tenant, user, server, verb, name) == [tenant] + ([u] + ([server] + (segs + [tok])));
    Associate(Head(prefix), tenant, u, server, Join(segs, DOT), tok, [DOT]);
  }

  lemma Associate<T>(h: seq<T>, a: seq<T>, b: seq<T>, c: seq<T>, d: seq<T>, e: seq<T>, x: seq<T>)
    ensures h + a + x + b + x + c + x + d + x + e == h + (a + x + (b + x + (c + x + (d + x + e))))
  {
  }

  /** Parsing a built subject gives back what it was built from, with the name as its token. */
  lemma ParseBuild(prefix: Bytes, tenant: Bytes, user: Bytes, server: Bytes, verb: Bytes, name: Bytes)
    requires BuildSubject(prefix, tenant, user, server, verb, name).Some?
    ensures ParseSubject(BuildSubject(prefix, tenant, user, server, verb, name).value, prefix)
      == Some(Parsed(tenant, Filled(user, UNDERSCORE), server, verb, SubjectNameToken(verb, name)))
  {
    hide Split, Join, Head, SubjectNameToken;
    BuiltTokens(prefix, tenant, user, server, verb, name);
    var toks := Tokens(tenant, user, server, verb, name);
    var subject := Head(prefix) + Join(toks, DOT);
    assert forall t :: t in toks ==> TokenSafe(t);
    TokensSplit(toks);
    assert subject[|Head(prefix)|..] == Join(toks, DOT);
    assert toks[3..|toks| - 1] == Split(verb, SLASH);
    JoinSplit(verb, SLASH);
    hide TokenSafe, BuildSubject;
  }

  /** A built subject names the tool or prompt, if its name can be a token, and nothing else. */
  lemma BuiltName(prefix: Bytes, tenant: Bytes, user: Bytes, server: Bytes, verb: Bytes, name: Bytes)
    requires BuildSubject(prefix, tenant, user, server, verb, name).Some?
    ensures var p := ParseSubject(BuildSubject(prefix, tenant, user, server, verb, name).value, prefix);
            p.Some? && p.value.name ==
              if (verb == Ascii("tools/call") || verb == Ascii("prompts/get")) && TokenSafe(name) then name else Ascii("_")
  {
    ParseBuild(prefix, tenant, user, server, verb, name);
    assert Ascii("_") == UNDERSCORE;
    assert |Ascii("resources/read")| == 14;
    hide BuildSubject, ParseSubject, TokenSafe, Ascii;
  }

  predicate TokenChar(c: char) { '0' <= c <= '9' || 'A' <= c <= 'Z' || 'a' <= c <= 'z' || c == '_' || c == '-' }

  /** A token is one or more letters, digits, underscores and hyphens. */
  lemma SafeAlphabet(s: string)
    ensures TokenSafe(Ascii(s)) <==> s != "" && forall c :: c in s ==> TokenChar(c)
  {
    var b := Ascii(s);
    forall c | c in s
      ensures c as int in b
    {
      var i :| 0 <= i < |s| && s[i] == c;
      assert b[i] == c as int;
    }
    forall x | x in b
      ensures exists c :: c in s && c as int == x
    {
      var i :| 0 <= i < |b| && b[i] == x;
      assert s[i] in s;
    }
    assert forall c: char :: TokenByte(c as int) <==> TokenChar(c);
    hide Ascii;
  }

  /** Exactly what could be read back is built: everything else is refused. */
  lemma BuildsExactly(prefix: Bytes, tenant: Bytes, user: Bytes, server: Bytes, verb: Bytes, name: Bytes)
    ensures var u, tok := Filled(user, UNDERSCORE), SubjectNameToken(verb, name);
            BuildSubject(prefix, tenant, user, server, verb, name).Some? <==>
              exists subject :: ParseSubject(subject, prefix) == Some(Parsed(tenant, u, server, verb, tok))
  {
    var u, tok := Filled(user, UNDERSCORE), SubjectNameToken(verb, name);
    hide SubjectNameToken, Head;
    if BuildSubject(prefix, tenant, user, server, verb, name).Some? {
      ParseBuild(prefix, tenant, user, server, verb, name);
    }
    forall subject | ParseSubject(subject, prefix) == Some(Parsed(tenant, u, server, verb, tok))
      ensures Buildable(tenant, user, server, verb)
    {
      hide BuildSubject, Join;
      ParsedIsSafe(subject, prefix);
    }
  }

  lemma ParsedIsSafe(subject: Bytes, prefix: Bytes)
    requires ParseSubject(subject, prefix).Some?
    ensures var p := ParseSubject(subject, prefix).value;
            && TokenSafe(p.tenant) && TokenSafe(p.user) && TokenSafe(p.server) && TokenSafe(p.name) && p.verb != []
            && forall seg :: seg in Split(p.verb, SLASH) ==> TokenSafe(seg)
  {
    var toks := Split(subject[|Head(prefix)|..], DOT);
    var segs := toks[3..|toks| - 1];
    forall t | t in segs
      ensures SLASH !in t
    {
      assert t in toks && TokenSafe(t) && !TokenByte(SLASH);
    }
    SplitJoin(segs, SLASH);
    assert segs[0] in toks;
    hide Split, TokenSafe, Head;
  }

  /** A subject is determined by its parse: no two subjects make the same authorization statement. */
  lemma ParseInjective(a: Bytes, b: Bytes, prefix: Bytes)
    requires ParseSubject(a, prefix).Some? && ParseSubject(a, prefix) == ParseSubject(b, prefix)
    ensures a == b
  {
    ParsedTokens(a, prefix);
    ParsedTokens(b, prefix);
    hide ParseSubject;
  }

  function Spelled(p: Parsed): seq<Bytes> { [p.tenant, p.user, p.server] + Split(p.verb, SLASH) + [p.name] }

  lemma ParsedTokens(subject: Bytes, prefix: Bytes)
    requires ParseSubject(subject, prefix).Some?
    ensures subject == Head(prefix) + Join(Spelled(ParseSubject(subject, prefix).value), DOT)
  {
    var head := Head(prefix);
    var toks := Split(subject[|head|..], DOT);
    var segs := toks[3..|toks| - 1];
    forall t | t in segs
      ensures SLASH !in t
    {
      assert t in toks && TokenSafe(t) && !TokenByte(SLASH);
    }
    SplitJoin(segs, SLASH);
    assert toks == [toks[0], toks[1], toks[2]] + segs + [toks[|toks| - 1]];
    JoinSplit(subject[|head|..], DOT);
    assert subject == head + subject[|head|..];
    hide Split, Join, TokenSafe, Head;
  }

  // ---- Endpoints ----

  /** The endpoint subject, with an unset token widened to the wildcard; a user without a tenant is refused. */
  function EndpointSubject(prefix: Bytes, tenant: Bytes, user: Bytes, server: Bytes): Option<Bytes> {
    if !TokenSafe(server) || (tenant == [] && user != []) then None
    else if (tenant != [] && !TokenSafe(tenant)) || (user != [] && !TokenSafe(user)) then None
    else Some(Head(prefix) + Filled(tenant, STAR) + [DOT] + Filled(user, STAR) + [DOT] + server + [DOT] + REST)
  }

  /** NATS subject matching, token by token: * is any one token, a final > any one or more. */
  predicate Matches(pattern: seq<Bytes>, toks: seq<Bytes>) {
    if pattern == [REST] then toks != []
    else if pattern == [] || toks == [] then pattern == [] && toks == []
    else (pattern[0] == STAR || pattern[0] == toks[0]) && Matches(pattern[1..], toks[1..])
  }

  lemma {:induction false} MatchesAfter(head: seq<Bytes>, pattern: seq<Bytes>, toks: seq<Bytes>)
    requires pattern != []
    ensures Matches(head + pattern, head + toks) <==> Matches(pattern, toks)
  {
    if head == [] {
      assert head + pattern == pattern && head + toks == toks;
    } else {
      assert (head + pattern)[1..] == head[1..] + pattern && (head + toks)[1..] == head[1..] + toks;
      assert |head + pattern| > 1;
      MatchesAfter(head[1..], pattern, toks);
    }
  }

  lemma MatchesEndpoint(t: Bytes, u: Bytes, s: Bytes, toks: seq<Bytes>)
    requires |toks| > 3 && s != STAR
    ensures Matches([t, u, s, REST], toks) <==>
      (t == STAR || t == toks[0]) && (u == STAR || u == toks[1]) && s == toks[2]
  {
    assert [t, u, s, REST][1..] == [u, s, REST];
    assert [u, s, REST][1..] == [s, REST];
    assert [s, REST][1..] == [REST];
    var t1, t2 := toks[1..], toks[1..][1..];
    assert t1[0] == toks[1] && t2[0] == toks[2] && t2[1..] != [];
    assert Matches([REST], t2[1..]);
    assert Matches([s, REST], t2) <==> s == toks[2];
    assert Matches([u, s, REST], t1) <==> (u == STAR || u == toks[1]) && Matches([s, REST], t2);
  }

  lemma SafeIsNoWildcard(t: Bytes)
    requires TokenSafe(t)
    ensures t != STAR && DOT !in t
  {
    assert STAR[0] in STAR && !TokenByte(STAR[0]);
    assert !TokenByte(DOT);
  }

  /** The tokens of prefix.req. followed by a run of tokens. */
  lemma HeadSplit(prefix: Bytes, rest: Bytes)
    ensures Split(Head(prefix) + rest, DOT) == Split(Filled(prefix, DEFAULT_PREFIX), DOT) + [Ascii("req")] + Split(rest, DOT)
  {
    var p, req := Filled(prefix, DEFAULT_PREFIX), Ascii("req");
    assert Head(prefix) + rest == p + [DOT] + (req + [DOT] + rest);
    SplitConcat(p, req + [DOT] + rest, DOT);
    assert DOT !in req;
    SplitHead(req, rest, DOT);
    assert Split(p, DOT) + ([req] + Split(rest, DOT)) == Split(p, DOT) + [req] + Split(rest, DOT);
  }

  lemma EndpointTokens(prefix: Bytes, tenant: Bytes, user: Bytes, server: Bytes)
    requires EndpointSubject(prefix, tenant, user, server).Some?
    ensures Split(EndpointSubject(prefix, tenant, user, server).value, DOT)
      == Split(Filled(prefix, DEFAULT_PREFIX), DOT) + [Ascii("req")] + [Filled(tenant, STAR), Filled(user, STAR), server, REST]
  {
    var t, u := Filled(tenant, STAR), Filled(user, STAR);
    SafeIsNoWildcard(server);
    assert DOT !in t by {
      if tenant != [] {
        SafeIsNoWildcard(tenant);
      }
    }
    assert DOT !in u by {
      if user != [] {
        SafeIsNoWildcard(user);
      }
    }
    var rest := t + [DOT] + (u + [DOT] + (server + [DOT] + REST));
    assert EndpointSubject(prefix, tenant, user, server).value == Head(prefix) + rest;
    hide Head, TokenSafe, Filled;
    HeadSplit(prefix, rest);
    SplitToken(REST, DOT);
    SplitHead(server, REST, DOT);
    SplitHead(u, server + [DOT] + REST, DOT);
    SplitHead(t, u + [DOT] + (server + [DOT] + REST), DOT);
    assert [t] + ([u] + ([server] + [REST])) == [t, u, server, REST];
  }

  /** A built subject reaches an endpoint exactly when the endpoint is its own server's, in a scope it lies in. */
  lemma ReachesItsOwn(prefix: Bytes, tenant: Bytes, user: Bytes, server: Bytes, verb: Bytes, name: Bytes,
                      t: Bytes, u: Bytes, s: Bytes)
    requires BuildSubject(prefix, tenant, user, server, verb, name).Some?
    requires EndpointSubject(prefix, t, u, s).Some?
    ensures Matches(Split(EndpointSubject(prefix, t, u, s).value, DOT),
                    Split(BuildSubject(prefix, tenant, user, server, verb, name).value, DOT))
      <==> s == server && (t == [] || t == tenant) && (u == [] || u == Filled(user, UNDERSCORE))
  {
    var toks := Tokens(tenant, user, server, verb, name);
    var head := Split(Filled(prefix, DEFAULT_PREFIX), DOT) + [Ascii("req")];
    var pattern := [Filled(t, STAR), Filled(u, STAR), s, REST];
    hide Split, Join, Matches, SubjectNameToken, Head, Ascii;
    BuiltTokens(prefix, tenant, user, server, verb, name);
    assert forall k :: k in toks ==> TokenSafe(k);
    TokensSplit(toks);
    HeadSplit(prefix, Join(toks, DOT));
    EndpointTokens(prefix, t, u, s);
    SafeIsNoWildcard(s);
    assert t != [] ==> TokenSafe(t);
    assert u != [] ==> TokenSafe(u);
    if t != [] {
      SafeIsNoWildcard(t);
    }
    if u != [] {
      SafeIsNoWildcard(u);
    }
    hide BuildSubject, EndpointSubject, TokenSafe;
    MatchesAfter(head, pattern, toks);
    MatchesEndpoint(Filled(t, STAR), Filled(u, STAR), s, toks);
  }
}
