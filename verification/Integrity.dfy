/**
The agreement check (integrity.go): the subject NATS enforced, the mirrored headers and the body name one
and the same call; and the requests a client publishes (client.go) are exactly what it accepts.
*/
module Integrity {
  import opened Common
  import opened Utf8
  import opened Json
  import opened ScanModel
  import opened CaseFold
  import opened Params
  import opened Subject
  import opened HeaderValue

  const META: Bytes := Ascii("_meta")
  const NAME: Bytes := Ascii("name")
  const URI: Bytes := Ascii("uri")
  const META_VERSION: Bytes := Ascii("io.modelcontextprotocol/protocolVersion")
  const PROGRESS_TOKEN: Bytes := Ascii("progressToken")
  const PROTOCOL_VERSION: Bytes := Ascii("2026-07-28")

  const INVALID_REQUEST: int := -32600
  const HEADER_MISMATCH: int := -32020
  const UNSUPPORTED_VERSION: int := -32022

  /** What dispatch hands to Check; an absent header reads as empty. doc is the parse of raw. */
  datatype Inbound = Inbound(
    isRequest: bool, verb: Bytes, subject: Parsed, headerMethod: Bytes, headerName: Bytes, headerVersion: Bytes,
    raw: Bytes, doc: Option<Doc>)

  function At(p: Fields, key: Bytes): Option<Value> { if key in p then Some(p[key]) else None }

  /** json.Unmarshal into a string: absent and null give nothing, a value of another type does not fit. */
  function Text(v: Option<Value>): Option<Bytes> {
    if v.None? || v.value.Null? then Some([]) else if v.value.Str? then Some(Decode(v.value.body)) else None
  }

  function ObjectOf(v: Option<Value>): Option<Fields> {
    if v.None? || v.value.Null? then Some(map[])
    else if v.value.Container? && v.value.isObject then Some(Members(v.value.items))
    else None
  }

  function NameKey(f: Field): Bytes { if f == NameField then NAME else URI }

  // ---- What agreement means ----

  ghost predicate Decodable(fold: Folding, m: Inbound) {
    Blank(m.raw) || (m.doc.Some? && Unambiguous(fold, m.doc.value.value))
  }

  function FieldsOf(m: Inbound): Fields {
    if Blank(m.raw) || Unmarshal(m.doc).Err? then map[] else Unmarshal(m.doc).value
  }

  function Meta(p: Fields): Fields { if ObjectOf(At(p, META)).Some? then ObjectOf(At(p, META)).value else map[] }

  ghost predicate MetaReadable(fold: Folding, p: Fields) {
    && Readable(fold, p, META) && ObjectOf(At(p, META)).Some?
    && Readable(fold, Meta(p), META_VERSION) && Readable(fold, Meta(p), PROGRESS_TOKEN)
  }

  /** name is what the body calls, empty for a method that carries none. */
  ghost predicate Names(fold: Folding, verb: Bytes, p: Fields, name: Bytes) {
    if FieldOf(verb) == NoField then name == []
    else Readable(fold, p, NameKey(FieldOf(verb))) && Text(At(p, NameKey(FieldOf(verb)))) == Some(name)
  }

  predicate Claims(p: Fields, version: Bytes) { Text(At(Meta(p), META_VERSION)) == Some(version) }

  predicate SameMethod(m: Inbound) { m.headerMethod == m.verb && m.subject.verb == m.verb }

  /** Subject, header and body name one call of a readable body. */
  ghost predicate Calls(fold: Folding, m: Inbound, name: Bytes) {
    var p := FieldsOf(m);
    && m.isRequest && SameMethod(m) && Decodable(fold, m) && MetaReadable(fold, p) && Names(fold, m.verb, p, name)
    && (FieldOf(m.verb) != NoField ==> name != [] && DecodeHeaderValue(m.headerName) == Some(name))
    && m.subject.name == SubjectNameToken(m.verb, name)
  }

  predicate SameVersion(m: Inbound, version: Bytes) {
    Claims(FieldsOf(m), version) && DecodeHeaderValue(m.headerVersion) == Some(version)
  }

  ghost predicate Agrees(fold: Folding, m: Inbound, name: Bytes) {
    Calls(fold, m, name) && SameVersion(m, PROTOCOL_VERSION)
  }

  // ---- Which disagreement is reported ----

  /** The params are JSON, whole or absent, and not too deep to be judged. */
  predicate Judgeable(m: Inbound) { Blank(m.raw) || (m.doc.Some? && Nesting(m.doc.value.value) <= MAX_PARAMS_DEPTH) }

  /** The first thing that cannot be read has the wrong type, rather than two meanings. */
  ghost predicate Misshapen(fold: Folding, m: Inbound)
    requires Judgeable(m)
  {
    var p := FieldsOf(m);
    if !Decodable(fold, m) then
      var v := m.doc.value.value;
      SingleKeyed(v) && !v.Null? && !(v.Container? && v.isObject)
    else
      || (Readable(fold, p, META) && ObjectOf(At(p, META)).None?)
      || (MetaReadable(fold, p) && (m.verb == Ascii("tools/call") || m.verb == Ascii("prompts/get"))
          && Readable(fold, p, Ascii("name")) && Text(At(p, Ascii("name"))).None?)
      || (MetaReadable(fold, p) && m.verb == Ascii("resources/read")
          && Readable(fold, p, Ascii("uri")) && Text(At(p, Ascii("uri"))).None?)
      || ((exists name :: Calls(fold, m, name)) && Text(At(Meta(p), META_VERSION)).None?)
  }

  // ---- Check ----

  function BadParams(f: Fault): int { if f.Repeats? || f.CaseClash? then HEADER_MISMATCH else INVALID_REQUEST }

  lemma NullDecodes(fold: Folding)
    ensures Unambiguous(fold, Null)
  {
  }

  method CheckReadableMeta(fold: Folding, p: Fields) returns (fault: Option<Fault>)
    requires FoldingOk(fold)
    ensures fault.None? <==> MetaReadable(fold, p)
    ensures fault.Some? ==>
      if Readable(fold, p, META) && ObjectOf(At(p, META)).None? then fault.value == BadBody else fault.value.CaseClash?
  {
    fault := CheckReadable(fold, p, META);
    if fault.Some? {
      return;
    }
    var meta := ObjectOf(At(p, META));
    if meta.None? {
      return Some(BadBody);
    }
    fault := CheckReadable(fold, meta.value, META_VERSION);
    if fault.None? {
      fault := CheckReadable(fold, meta.value, PROGRESS_TOKEN);
    }
  }

  /** Params.Name: empty where the method carries no name. */
  method ReadName(fold: Folding, p: Fields, verb: Bytes) returns (r: Result<Bytes, Fault>)
    requires FoldingOk(fold)
    ensures forall name :: Names(fold, verb, p, name) <==> r == Ok(name)
    ensures r.Err? ==> FieldOf(verb) != NoField && var key := NameKey(FieldOf(verb));
      if Readable(fold, p, key) then r.error == NotString && Text(At(p, key)).None? else r.error.CaseClash?
  {
    if FieldOf(verb) == NoField {
      return Ok([]);
    }
    var key := NameKey(FieldOf(verb));
    var clash := CheckReadable(fold, p, key);
    if clash.Some? {
      return Err(clash.value);
    }
    var text := Text(At(p, key));
    return if text.Some? then Ok(text.value) else Err(NotString);
  }

  /**
  A request is accepted exactly when it agrees with itself, and the name returned is the one it agrees on. An
  unsupported version is reported if it is all that is wrong, what has the wrong type as an invalid request,
  and every other disagreement, ambiguity included, as a mismatch.
  */
  method Check(fold: Folding, m: Inbound) returns (r: Result<Bytes, int>)
    requires FoldingOk(fold) && Parses(m.raw, m.doc)
    ensures r.Ok? ==> Agrees(fold, m, r.value)
    ensures r.Err? ==> forall name :: !Agrees(fold, m, name)
    ensures r.Err? ==> r.error == -32600 || r.error == -32020 || r.error == -32022
    ensures r == Err(-32022) <==> exists name, v :: v != PROTOCOL_VERSION && Calls(fold, m, name) && SameVersion(m, v)
    ensures !m.isRequest ==> r == Err(-32600)
    ensures m.isRequest && !SameMethod(m) ==> r == Err(-32020)
    ensures m.isRequest && SameMethod(m) && Judgeable(m) ==> (r == Err(-32600) <==> Misshapen(fold, m))
  {
    hide FoldingOk, Parses, Unambiguous, Readable, DecodeHeaderValue, SubjectNameToken, Ascii;
    if !m.isRequest {
      return Err(INVALID_REQUEST);
    }
    if m.headerMethod != m.verb || m.subject.verb != m.verb {
      return Err(HEADER_MISMATCH);
    }
    var params := DecodeParams(fold, m.raw, m.doc);
    if params.Err? {
      NullDecodes(fold);
      return Err(BadParams(params.error));
    }
    var p := params.value;
    assert p == FieldsOf(m);
    var fault := CheckReadableMeta(fold, p);
    if fault.Some? {
      return Err(BadParams(fault.value));
    }
    var name := ReadName(fold, p, m.verb);
    if name.Err? {
      return Err(BadParams(name.error));
    }
    hide Names, Decodable, MetaReadable;
    if FieldOf(m.verb) != NoField && (name.value == [] || DecodeHeaderValue(m.headerName) != Some(name.value)) {
      return Err(HEADER_MISMATCH);
    }
    if m.subject.name != SubjectNameToken(m.verb, name.value) {
      return Err(HEADER_MISMATCH);
    }
    assert Calls(fold, m, name.value);
    var version := Text(At(Meta(p), META_VERSION));
    if version.None? {
      return Err(INVALID_REQUEST);
    }
    if DecodeHeaderValue(m.headerVersion) != version {
      return Err(HEADER_MISMATCH);
    }
    assert SameVersion(m, version.value);
    if version != Some(PROTOCOL_VERSION) {
      return Err(UNSUPPORTED_VERSION);
    }
    return Ok(name.value);
  }

  /**
  What is called, by method. A tool or prompt is named by a non-empty string under "name", which the decoded
  header repeats and which is the subject's token if it can be one; a resource by one under "uri", with the
  "_" token; and any other method carries no name, with the "_" token.
  */
  lemma AcceptedNames(fold: Folding, m: Inbound, name: Bytes)
    requires Agrees(fold, m, name)
    ensures m.headerMethod == m.verb && m.subject.verb == m.verb
    ensures m.verb == Ascii("tools/call") || m.verb == Ascii("prompts/get") ==>
      && Carries(FieldsOf(m), Ascii("name"), name) && DecodeHeaderValue(m.headerName) == Some(name)
      && m.subject.name == if TokenSafe(name) then name else Ascii("_")
    ensures m.verb == Ascii("resources/read") ==>
      && Carries(FieldsOf(m), Ascii("uri"), name) && DecodeHeaderValue(m.headerName) == Some(name)
      && m.subject.name == Ascii("_")
    ensures m.verb != Ascii("tools/call") && m.verb != Ascii("prompts/get") && m.verb != Ascii("resources/read") ==>
      name == [] && m.subject.name == Ascii("_")
  {
    assert UNDERSCORE == Ascii("_");
    MethodsDiffer();
    hide Decodable, MetaReadable, Readable, DecodeHeaderValue, TokenSafe, Ascii, FieldsOf, Decode;
  }

  /** The version agreed on is the one supported, as _meta spells it. */
  lemma AcceptedVersion(fold: Folding, m: Inbound, name: Bytes)
    requires Agrees(fold, m, name)
    ensures var p := FieldsOf(m);
            && Ascii("_meta") in p && p[Ascii("_meta")].Container? && p[Ascii("_meta")].isObject
            && Carries(Members(p[Ascii("_meta")].items), Ascii("io.modelcontextprotocol/protocolVersion"), Ascii("2026-07-28"))
            && DecodeHeaderValue(m.headerVersion) == Some(Ascii("2026-07-28"))
  {
    assert |PROTOCOL_VERSION| == 10;
    hide Calls, DecodeHeaderValue, Ascii, FieldsOf, Decode, Members;
  }

  lemma MethodsDiffer()
    ensures Ascii("resources/read") != Ascii("tools/call") && Ascii("resources/read") != Ascii("prompts/get")
  {
    assert |Ascii("resources/read")| == 14 && |Ascii("tools/call")| == 10 && |Ascii("prompts/get")| == 11;
  }

  /** The field holds the name as a non-empty string. */
  predicate Carries(p: Fields, key: Bytes, name: Bytes) {
    name != [] && key in p && p[key].Str? && Decode(p[key].body) == name
  }

  /** The subject fixes the call: on a named subject that tool or prompt, on the "_" subject none that could be named. */
  lemma SubjectFixesTheCall(fold: Folding, m: Inbound, name: Bytes)
    requires Agrees(fold, m, name)
    ensures m.verb == m.subject.verb
    ensures m.verb == Ascii("tools/call") || m.verb == Ascii("prompts/get") ==>
      if m.subject.name == Ascii("_") then !TokenSafe(name) || name == Ascii("_") else name == m.subject.name
  {
    AcceptedNames(fold, m, name);
    hide Agrees, Ascii, TokenSafe;
  }

  // ---- Do and Check ----

  /** What Do is asked to send, lifted from the body by its caller. */
  datatype Request = Request(server: Bytes, verb: Bytes, name: Bytes, version: Bytes, raw: Bytes, doc: Option<Doc>)

  /** What the gateway makes of what Do publishes. */
  function Received(prefix: Bytes, tenant: Bytes, user: Bytes, q: Request): Option<Inbound>
    requires Octets(q.name) && Octets(q.version)
  {
    var subject := BuildSubject(prefix, tenant, user, q.server, q.verb, q.name);
    if subject.None? || ParseSubject(subject.value, prefix).None? then None
    else
      Some(Inbound(true, q.verb, ParseSubject(subject.value, prefix).value, q.verb,
                   if q.name == [] then [] else EncodeHeaderValue(q.name), EncodeHeaderValue(q.version), q.raw, q.doc))
  }

  /** The name and version were read from the body. */
  ghost predicate Lifted(fold: Folding, q: Request) {
    var p := if Blank(q.raw) || Unmarshal(q.doc).Err? then map[] else Unmarshal(q.doc).value;
    Names(fold, q.verb, p, q.name) && Claims(p, q.version)
  }

  lemma TextValid(v: Option<Value>)
    requires Text(v).Some?
    ensures Valid(Text(v).value) && Octets(Text(v).value)
  {
    if v.Some? && v.value.Str? {
      DecodeValid(v.value.body);
    }
    ValidOctets(Text(v).value);
  }

  lemma LiftedValid(fold: Folding, q: Request)
    requires Lifted(fold, q)
    ensures Valid(q.name) && Octets(q.name) && Valid(q.version) && Octets(q.version)
  {
    var p := if Blank(q.raw) || Unmarshal(q.doc).Err? then map[] else Unmarshal(q.doc).value;
    TextValid(At(Meta(p), META_VERSION));
    if FieldOf(q.verb) != NoField {
      TextValid(At(p, NameKey(FieldOf(q.verb))));
    }
    hide Text, Valid, Octets;
    assert q.name == [] ==> Valid(q.name) && Octets(q.name) by { ValidOctets([]); }
  }

  predicate TakesName(verb: Bytes) {
    verb == Ascii("tools/call") || verb == Ascii("prompts/get") || verb == Ascii("resources/read")
  }

  /** Its subject, header and body name one call, as far as its _meta is readable and the name it needs is there. */
  lemma DoCalls(fold: Folding, prefix: Bytes, tenant: Bytes, user: Bytes, q: Request)
    requires Lifted(fold, q) && Octets(q.name) && Octets(q.version)
    requires Received(prefix, tenant, user, q).Some? && Decodable(fold, Received(prefix, tenant, user, q).value)
    ensures var m := Received(prefix, tenant, user, q).value;
            Calls(fold, m, q.name) <==> MetaReadable(fold, FieldsOf(m)) && (FieldOf(q.verb) != NoField ==> q.name != [])
  {
    LiftedValid(fold, q);
    ParseBuild(prefix, tenant, user, q.server, q.verb, q.name);
    HeaderRoundTrip(q.name);
    hide EncodeHeaderValue, DecodeHeaderValue, BuildSubject, ParseSubject, MetaReadable, Decodable, Claims, Names, Valid,
      Octets, Ascii, SubjectNameToken, Blank, Unmarshal, FieldOf;
  }

  lemma DoVersion(fold: Folding, prefix: Bytes, tenant: Bytes, user: Bytes, q: Request)
    requires Lifted(fold, q) && Octets(q.name) && Octets(q.version)
    requires Received(prefix, tenant, user, q).Some?
    ensures var m := Received(prefix, tenant, user, q).value; SameVersion(m, PROTOCOL_VERSION) <==> q.version == PROTOCOL_VERSION
  {
    LiftedValid(fold, q);
    HeaderRoundTrip(q.version);
    hide EncodeHeaderValue, DecodeHeaderValue, BuildSubject, ParseSubject, Names, Valid, Octets, Ascii, Blank, Unmarshal, Text, Meta;
  }

  /**
  A published request whose params decode passes Check if and only if its _meta is readable, its version is
  supported, and it has the name its method needs; and then the name Check returns is the one published.
  */
  lemma DoPassesCheck(fold: Folding, prefix: Bytes, tenant: Bytes, user: Bytes, q: Request)
    requires Lifted(fold, q) && Octets(q.name) && Octets(q.version)
    requires Received(prefix, tenant, user, q).Some? && Decodable(fold, Received(prefix, tenant, user, q).value)
    ensures var m := Received(prefix, tenant, user, q).value;
            Agrees(fold, m, q.name) <==>
              && MetaReadable(fold, FieldsOf(m)) && q.version == Ascii("2026-07-28") && (TakesName(q.verb) ==> q.name != [])
  {
    assert TakesName(q.verb) <==> FieldOf(q.verb) != NoField by { hide Ascii; }
    DoCalls(fold, prefix, tenant, user, q);
    DoVersion(fold, prefix, tenant, user, q);
    hide Calls, SameVersion, Received, Lifted, Octets, Decodable, MetaReadable, FieldOf, Ascii, TakesName;
  }

  const CAPITAL_TOKEN: Bytes := [0x50] + PROGRESS_TOKEN[1..]

  /**
  Decodable params, a supported version and a name are not enough: with "ProgressToken" in _meta, which is
  an open bag that decoding does not hold to the whole-object rule, no such request passes.
  */
  lemma SiblingTokenRefused(fold: Folding, m: Inbound, name: Bytes)
    requires FoldingOk(fold) && fold.next(0x70) == 0x50
    requires CAPITAL_TOKEN in Meta(FieldsOf(m))
    ensures !Agrees(fold, m, name)
  {
    var low, high := PROGRESS_TOKEN, CAPITAL_TOKEN;
    assert low[0] == 0x70 && high[0] == 0x50 && low != high;
    assert DecodeRune(low) == Decoded(0x70, 1, true) && DecodeRune(high) == Decoded(0x50, 1, true);
    assert high[1..] == low[1..];
    assert Step(fold, 1, 0x70) == fold.next(Step(fold, 0, 0x70)) == 0x50;
    FoldRuneMeans(fold, 0x70, 0x50);
    hide FoldingOk, Ascii, DecodeRune, FoldRune;
    EqualFoldStep(fold, high, low);
    assert EqualFold(fold, high, low);
  }

  /** Nothing is unparseable: Do's own subject always parses. */
  lemma BuiltIsReceived(prefix: Bytes, tenant: Bytes, user: Bytes, q: Request)
    requires Octets(q.name) && Octets(q.version) && Buildable(tenant, Filled(user, UNDERSCORE), q.server, q.verb)
    ensures Received(prefix, tenant, user, q).Some?
  {
    ParseBuild(prefix, tenant, user, q.server, q.verb, q.name);
    hide ParseSubject;
  }

  function Member(key: Bytes, v: Value, rest: Items): Items { Item([], Key(key, [], []), v, [], rest) }

  function Single(key: Bytes, v: Value): Items { Member(key, v, End([])) }

  lemma MemberMeans(key: Bytes, v: Value, rest: Items)
    requires PlainAscii(key) && ValueOk(v)
    ensures forall first :: ItemsOk(Member(key, v, rest), true, first) <==> ItemsOk(rest, true, false)
    ensures Keys(Member(key, v, rest)) == [key] + Keys(rest)
    ensures Members(Member(key, v, rest)) == map[key := v] + Members(rest)
    ensures AllSingleKeyed(Member(key, v, rest)) <==> SingleKeyed(v) && AllSingleKeyed(rest)
    ensures ItemsNesting(Member(key, v, rest)) == if Nesting(v) > ItemsNesting(rest) then Nesting(v) else ItemsNesting(rest)
  {
    PlainAsciiBody(key);
    hide BodyOk, Decode, Valid, PlainAscii;
  }

  /** An object in an object: {outer: {a: v, b: null}}. */
  function Nested(outer: Bytes, a: Bytes, v: Value, b: Bytes): Doc {
    Doc([], Container(true, Single(outer, Container(true, Member(a, v, Single(b, Null))))), [])
  }

  lemma NoMembers()
    ensures Keys(End([])) == [] && Members(End([])) == map[]
  {
  }

  lemma NestedInner(a: Bytes, v: Value, b: Bytes)
    requires PlainAscii(a) && PlainAscii(b) && a != b && ValueOk(v) && !v.Container?
    ensures var inner := Container(true, Member(a, v, Single(b, Null)));
            ValueOk(inner) && SingleKeyed(inner) && Nesting(inner) == 1 && Members(inner.items) == map[a := v, b := Null]
  {
    hide PlainAscii, Decode, BodyOk, Member, Keys, Members;
    NoMembers();
    MemberMeans(b, Null, End([]));
    MemberMeans(a, v, Single(b, Null));
    assert Keys(Member(a, v, Single(b, Null))) == [a, b];
  }

  lemma NestedOuter(fold: Folding, outer: Bytes, inner: Value)
    requires PlainAscii(outer) && inner.Container? && ValueOk(inner) && SingleKeyed(inner) && Nesting(inner) == 1
    ensures var v := Container(true, Single(outer, inner));
            ValueOk(v) && Unambiguous(fold, v) && Members(v.items) == map[outer := inner]
  {
    hide PlainAscii, Decode, BodyOk, Member, Keys, Members;
    NoMembers();
    MemberMeans(outer, inner, End([]));
    assert Keys(Single(outer, inner)) == [outer];
    assert FoldDistinct(fold, Elements([outer]));
  }

  lemma ObjectIsNotBlank(items: Items)
    ensures !Blank(PrintDoc(Doc([], Container(true, items), [])))
  {
    var raw := PrintDoc(Doc([], Container(true, items), []));
    hide PrintItems;
    assert raw[0] == OPEN_OBJECT;
    assert DecodeRune(raw).rune == OPEN_OBJECT;
    assert Runes(raw)[0] == OPEN_OBJECT && OPEN_OBJECT in Runes(raw);
    assert !UnicodeSpace(OPEN_OBJECT);
  }

  lemma NestedMeans(fold: Folding, outer: Bytes, a: Bytes, v: Value, b: Bytes)
    requires PlainAscii(outer) && PlainAscii(a) && PlainAscii(b) && a != b && ValueOk(v) && !v.Container?
    ensures var d := Nested(outer, a, v, b); var inner := Container(true, Member(a, v, Single(b, Null)));
            && DocOk(d) && Unambiguous(fold, d.value) && !Blank(PrintDoc(d))
            && Unmarshal(Some(d)) == Ok(map[outer := inner]) && Members(inner.items) == map[a := v, b := Null]
  {
    hide PlainAscii, Unambiguous, PrintDoc, Blank, SingleKeyed, Nesting, ValueOk, Members;
    NestedInner(a, v, b);
    NestedOuter(fold, outer, Container(true, Member(a, v, Single(b, Null))));
    ObjectIsNotBlank(Single(outer, Container(true, Member(a, v, Single(b, Null)))));
  }

  predicate PlainText(s: string) {
    forall i :: 0 <= i < |s| ==> ' ' <= s[i] <= '~' && s[i] != '"' && s[i] != '\\'
  }

  lemma PlainTextBytes(s: string)
    requires PlainText(s)
    ensures PlainAscii(Ascii(s))
  {
  }

  lemma MetaPlain()
    ensures PlainAscii(META)
  {
    PlainTextBytes("_meta");
    hide PlainAscii, Ascii;
  }

  lemma VersionKeyPlain()
    ensures PlainAscii(META_VERSION) && |META_VERSION| == 39
  {
    PlainTextBytes("io.modelcontextprotocol/protocolVersion");
    hide PlainAscii, Ascii;
  }

  lemma VersionPlain()
    ensures PlainAscii(PROTOCOL_VERSION)
  {
    PlainTextBytes("2026-07-28");
    hide PlainAscii, Ascii;
  }

  lemma TokenPlain()
    ensures PlainAscii(CAPITAL_TOKEN) && |CAPITAL_TOKEN| == 13
  {
    PlainTextBytes("progressToken");
    assert PlainAscii(PROGRESS_TOKEN);
    assert |PROGRESS_TOKEN| == 13;
    hide PROGRESS_TOKEN, Ascii;
  }

  /** {"_meta":{"io.modelcontextprotocol/protocolVersion":"2026-07-28","ProgressToken":null}} */
  function SiblingDoc(): Doc { Nested(META, META_VERSION, Str(PROTOCOL_VERSION), CAPITAL_TOKEN) }

  /** What Do publishes for a method without a name and these params. */
  function SiblingRequest(server: Bytes, verb: Bytes): Request {
    Request(server, verb, [], PROTOCOL_VERSION, PrintDoc(SiblingDoc()), Some(SiblingDoc()))
  }

  lemma SiblingRequestMeans(fold: Folding, server: Bytes, verb: Bytes)
    requires FieldOf(verb) == NoField
    ensures var q := SiblingRequest(server, verb);
            && Parses(q.raw, q.doc) && Lifted(fold, q) && Octets(q.name) && Octets(q.version)
            && !Blank(q.raw) && Unambiguous(fold, q.doc.value.value)
            && Unmarshal(q.doc).Ok? && CAPITAL_TOKEN in Meta(Unmarshal(q.doc).value)
  {
    hide PlainAscii, Unambiguous, PrintDoc, Blank, DocOk, Members, Unmarshal, Nested, FieldOf, Octets, Valid, BodyOk, Decode,
      META, META_VERSION, CAPITAL_TOKEN, PROTOCOL_VERSION;
    MetaPlain();
    VersionKeyPlain();
    VersionPlain();
    TokenPlain();
    PlainAsciiBody(PROTOCOL_VERSION);
    ValidOctets(PROTOCOL_VERSION);
    NoOctets();
    NestedMeans(fold, META, META_VERSION, Str(PROTOCOL_VERSION), CAPITAL_TOKEN);
  }

  lemma NoOctets()
    ensures Octets([])
  {
  }

  /**
  On every subject that Do can build for a method without a name there is such a request: Do publishes it
  and Check refuses it.
  */
  lemma SiblingTokenIsPublished(fold: Folding, prefix: Bytes, tenant: Bytes, user: Bytes, server: Bytes, verb: Bytes)
    requires FoldingOk(fold) && fold.next(0x70) == 0x50
    requires Buildable(tenant, Filled(user, UNDERSCORE), server, verb) && FieldOf(verb) == NoField
    ensures var q := SiblingRequest(server, verb);
            && Parses(q.raw, q.doc) && Lifted(fold, q) && Octets(q.name) && Octets(q.version)
            && Received(prefix, tenant, user, q).Some?
            && Decodable(fold, Received(prefix, tenant, user, q).value)
            && forall name :: !Agrees(fold, Received(prefix, tenant, user, q).value, name)
  {
    hide Parses, Lifted, Octets, FoldingOk, ParseSubject, BuildSubject, Blank, Unambiguous, Agrees, EncodeHeaderValue, Buildable,
      Meta, Unmarshal, FieldOf, Filled, META, META_VERSION, CAPITAL_TOKEN, PROTOCOL_VERSION;
    var q := SiblingRequest(server, verb);
    SiblingRequestMeans(fold, server, verb);
    BuiltIsReceived(prefix, tenant, user, q);
    var m := Received(prefix, tenant, user, q).value;
    forall name
      ensures !Agrees(fold, m, name)
    {
      SiblingTokenRefused(fold, m, name);
    }
  }
}
