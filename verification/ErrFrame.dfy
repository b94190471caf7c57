/**
Error responses: what errWithID reports, and how it is fitted into max_payload (server.go:851-952). The
JSON quoting of a message and what a header serializer charges for a value are parameters; both leave
plain text as it is.
*/
module ErrFrame {
  import opened Common

  /** quote writes a JSON string; charge is the length of a header value as it is serialized. */
  datatype Codec = Codec(quote: string -> string, charge: string -> nat)

  /** Printable ASCII that JSON encoding does not escape. */
  predicate Plain(s: string) {
    forall c :: c in s ==> ' ' <= c <= '~' && c != '"' && c != '\\' && c != '<' && c != '>' && c != '&'
  }

  predicate Edged(s: string) { s != [] && s[0] != ' ' && s[|s| - 1] != ' ' }

  ghost predicate CodecOk(k: Codec) {
    forall s :: Plain(s) && Edged(s) ==> k.quote(s) == "\"" + s + "\"" && k.charge(s) == |s|
  }

  /** strconv.Itoa. */
  function CodeText(code: int): string { if code < 0 then "-" + Decimal(-code) else Decimal(code) }

  /** jsonrpc.Encode of an error response; data is left out where there is none. */
  function Body(k: Codec, id: string, code: string, message: string, data: Option<string>): string {
    "{\"jsonrpc\":\"2.0\",\"id\":" + id + ",\"error\":{\"code\":" + code + ",\"message\":" + k.quote(message)
    + (if data.Some? then ",\"data\":" + data.value else "") + "}}"
  }

  const BODY_FRAME: nat := |"{\"jsonrpc\":\"2.0\",\"id\":"| + |",\"error\":{\"code\":"| + |",\"message\":"| + |"}}"|

  /** One "Key: Value" line of a header. */
  function Line(key: string, value: nat): nat { |key| + 2 + value + 2 }

  /** micro copies the message into a header, so it is charged to max_payload twice. */
  function Overhead(k: Codec, code: string, message: string): nat {
    |"NATS/1.0\r\n"| + Line("Mcp-Frame", |"err"|) + Line("Nats-Service-Error", k.charge(message))
    + Line("Nats-Service-Error-Code", |code|) + 2
  }

  predicate Fits(k: Codec, code: string, body: string, message: string, max: nat) {
    |body| + Overhead(k, code, message) <= max
  }

  function Noted(message: string): string { message + " [error data omitted: does not fit NATS max_payload]" }

  function Shed(oversize: nat, max: nat): string {
    "error detail dropped: " + Decimal(oversize) + " byte error response" + " does not fit NATS" + " max_payload "
    + Decimal(max)
  }

  datatype Frame = Frame(body: string, message: string)

  function Fit(k: Codec, id: string, code: string, message: string, data: Option<string>, body: string, max: nat): Frame {
    if Fits(k, code, body, message, max) then Frame(body, message)
    else
      var noted := Noted(message);
      var lean := Body(k, id, code, noted, None);
      if data.Some? && Fits(k, code, lean, noted, max) then Frame(lean, noted)
      else Frame(Body(k, id, code, Shed(|body|, max), None), Shed(|body|, max))
  }

  lemma ShedPieces()
    ensures Plain("error detail dropped: ") && Plain(" byte error response")
    ensures Plain(" does not fit NATS") && Plain(" max_payload ")
  {
  }

  lemma ShedPlain(oversize: nat, max: nat)
    ensures Plain(Shed(oversize, max)) && Edged(Shed(oversize, max))
  {
    ShedPieces();
    assert Plain(Decimal(oversize)) && Plain(Decimal(max));
    var s := Shed(oversize, max);
    var d := Decimal(max);
    assert s[0] == 'e' && s[|s| - 1] == d[|d| - 1];
  }

  /** What the last form costs: the id once, the message twice, and the fixed parts. */
  function ShedCost(id: string, code: string, oversize: nat, max: nat): nat {
    BODY_FRAME + |id| + |code| + |Shed(oversize, max)| + 2
    + |"NATS/1.0\r\n"| + Line("Mcp-Frame", |"err"|) + Line("Nats-Service-Error", |Shed(oversize, max)|)
    + Line("Nats-Service-Error-Code", |code|) + 2
  }

  /** Whatever is sent carries the request's id, and a body whose message is the one its header copies; no more is left out than must be. */
  lemma FitKeepsId(k: Codec, id: string, code: string, message: string, data: Option<string>, max: nat)
    ensures var body := Body(k, id, code, message, data);
            var f := Fit(k, id, code, message, data, body, max);
            && (exists d :: f.body == Body(k, id, code, f.message, d))
            && (Fits(k, code, body, message, max) ==> f == Frame(body, message))
            && var lean := Body(k, id, code, Noted(message), None);
               (!Fits(k, code, body, message, max) && data.Some? && Fits(k, code, lean, Noted(message), max) ==>
                 f == Frame(lean, Noted(message)))
  {
    var body := Body(k, id, code, message, data);
    var f := Fit(k, id, code, message, data, body, max);
    hide Shed, Noted, Fits, Body;
    assert f.body == Body(k, id, code, f.message, if f.message == message && f.body == body then data else None);
  }

  /** The last form costs what ShedCost says, because its text is written the same in JSON and in a header. */
  lemma ShedFits(k: Codec, id: string, code: string, oversize: nat, max: nat)
    requires CodecOk(k)
    ensures var shed := Shed(oversize, max);
            Fits(k, code, Body(k, id, code, shed, None), shed, max) <==> ShedCost(id, code, oversize, max) <= max
  {
    ShedPlain(oversize, max);
    var shed := Shed(oversize, max);
    assert k.quote(shed) == "\"" + shed + "\"" && k.charge(shed) == |shed|;
    BodyLength(k, id, code, shed);
    hide Shed, Body;
  }

  lemma BodyLength(k: Codec, id: string, code: string, message: string)
    ensures |Body(k, id, code, message, None)| == BODY_FRAME + |id| + |code| + |k.quote(message)|
  {
  }

  /**
  The frame sent fits exactly when the original did, or the form without data did, or the id and twice
  the last message fit.
  */
  lemma FitFits(k: Codec, id: string, code: string, message: string, data: Option<string>, max: nat)
    requires CodecOk(k)
    ensures var body := Body(k, id, code, message, data);
            var f := Fit(k, id, code, message, data, body, max);
            Fits(k, code, f.body, f.message, max) <==>
              || Fits(k, code, body, message, max)
              || (data.Some? && Fits(k, code, Body(k, id, code, Noted(message), None), Noted(message), max))
              || ShedCost(id, code, |body|, max) <= max
  {
    hide Shed, Noted, Body, Fits, ShedCost, CodecOk;
    var body := Body(k, id, code, message, data);
    ShedFits(k, id, code, |body|, max);
    if !Fits(k, code, body, message, max) {
      if data.Some? && Fits(k, code, Body(k, id, code, Noted(message), None), Noted(message), max) {
        assert Fit(k, id, code, message, data, body, max) == Frame(Body(k, id, code, Noted(message), None), Noted(message));
      }
    }
  }

  // ---- errWithID ----

  const NO_DESCRIPTION: string := "backend reported an error with no description"
  const ENCODING_FAILED: string := "error encoding failed"
  const INTERNAL_ERROR: int := -32603
  const CANNED: string :=
    "{\"jsonrpc\":\"2.0\",\"id\":" + "null" + ",\"error\":{\"code\":" + "-32603" + ",\"message\":"
    + ("\"" + ENCODING_FAILED + "\"") + "" + "}}"

  /** An error to report; encodable says whether the id is JSON, without which no response can be built. */
  datatype Report = Report(id: string, code: int, message: string, data: Option<string>, encodable: bool)

  /** What is published: the body, and the code and message that its headers copy. */
  datatype Answer = Answer(code: int, message: string, body: string)

  /** The report an error ends up as: described, and canned where its own body cannot be built. */
  function Told(r: Report): Report {
    if r.encodable then r.(message := if r.message == "" then NO_DESCRIPTION else r.message)
    else Report("null", INTERNAL_ERROR, ENCODING_FAILED, None, true)
  }

  /** errWithID (server.go:855-883). */
  function Answered(k: Codec, r: Report, max: nat): Answer {
    var t := Told(r);
    var code := CodeText(t.code);
    var body := if r.encodable then Body(k, t.id, code, t.message, t.data) else CANNED;
    var f := Fit(k, t.id, code, t.message, t.data, body, max);
    Answer(t.code, f.message, f.body)
  }

  lemma CannedIsEncoded(k: Codec)
    requires CodecOk(k)
    ensures CANNED == Body(k, "null", CodeText(INTERNAL_ERROR), ENCODING_FAILED, None)
  {
    FailedPlain();
    assert k.quote(ENCODING_FAILED) == "\"" + ENCODING_FAILED + "\"";
    InternalText();
    hide Plain, Edged, CodeText, ENCODING_FAILED;
  }

  lemma FailedPlain()
    ensures Plain(ENCODING_FAILED) && Edged(ENCODING_FAILED)
  {
  }

  lemma InternalText()
    ensures CodeText(INTERNAL_ERROR) == "-32603"
  {
    assert Decimal(32) == "32";
    assert Decimal(326) == "326";
    assert Decimal(3260) == "3260";
    assert Decimal(32603) == "32603";
  }

  /**
  Whatever is reported, there is an answer to publish: its message, which micro copies into a header and
  refuses if empty, is not; its body is a response with that code and message; and the id is the
  request's, unless that id is no JSON.
  */
  lemma AnswerIsWhole(k: Codec, r: Report, max: nat)
    requires CodecOk(k)
    ensures var a := Answered(k, r, max); var t := Told(r);
            && a.message != "" && a.code == t.code
            && (exists d :: a.body == Body(k, t.id, CodeText(a.code), a.message, d))
            && (r.encodable ==> t.id == r.id && t.code == r.code)
  {
    hide Body, Fit, CodecOk, CodeText, Told, CANNED, ENCODING_FAILED, NO_DESCRIPTION;
    var t := Told(r);
    var code := CodeText(t.code);
    ToldIsDescribed(r);
    CannedIsEncoded(k);
    FitKeepsId(k, t.id, code, t.message, t.data, max);
    FitDescribes(k, t.id, code, t.message, t.data, Body(k, t.id, code, t.message, t.data), max);
  }

  lemma ToldIsDescribed(r: Report)
    ensures Told(r).message != "" && (r.encodable ==> Told(r).id == r.id && Told(r).code == r.code)
    ensures !r.encodable ==> Told(r) == Report("null", INTERNAL_ERROR, ENCODING_FAILED, None, true)
  {
  }

  lemma FitDescribes(k: Codec, id: string, code: string, message: string, data: Option<string>, body: string, max: nat)
    requires message != ""
    ensures Fit(k, id, code, message, data, body, max).message != ""
  {
    hide Body, Fits;
  }
}
