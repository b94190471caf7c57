/**
JSON texts (RFC 8259) as trees that keep their white space, and the value a string denotes to
encoding/json. A string body may hold bytes that are not UTF-8: the decoder accepts and replaces them.
*/
module Json {
  import opened Common
  import opened Utf8

  const QUOTE: Byte := 0x22
  const COMMA: Byte := 0x2C
  const COLON: Byte := 0x3A
  const BACKSLASH: Byte := 0x5C
  const OPEN_ARRAY: Byte := 0x5B
  const CLOSE_ARRAY: Byte := 0x5D
  const LETTER_U: Byte := 0x75
  const OPEN_OBJECT: Byte := 0x7B
  const CLOSE_OBJECT: Byte := 0x7D

  datatype Exponent = Exponent(upper: bool, sign: Bytes, digits: Bytes)

  datatype Value =
    | Null
    | True
    | False
    | Number(minus: bool, whole: Bytes, frac: Bytes, exp: Option<Exponent>)
    | Str(body: Bytes)
    | Container(isObject: bool, items: Items)

  /** The elements or members of one container; blank is the white space inside an empty one. */
  datatype Items =
    | End(blank: Bytes)
    | Item(before: Bytes, tag: Tag, value: Value, after: Bytes, rest: Items)

  datatype Tag = NoKey | Key(name: Bytes, gap: Bytes, space: Bytes)

  datatype Doc = Doc(before: Bytes, value: Value, after: Bytes)

  // ---- Which trees are JSON ----

  predicate IsSpace(c: Byte) { c == 0x20 || c == 0x09 || c == 0x0A || c == 0x0D }

  predicate Space(s: Bytes) { forall i :: 0 <= i < |s| ==> IsSpace(s[i]) }

  predicate Digits(s: Bytes) { forall i :: 0 <= i < |s| ==> 0x30 <= s[i] <= 0x39 }

  predicate NumberOk(v: Value)
    requires v.Number?
  {
    && v.whole != [] && Digits(v.whole) && (v.whole[0] == 0x30 ==> |v.whole| == 1) && Digits(v.frac)
    && (v.exp.Some? ==>
          v.exp.value.digits != [] && Digits(v.exp.value.digits) && v.exp.value.sign in {[], [0x2B], [0x2D]})
  }

  predicate HexDigit(c: Byte) { 0x30 <= c <= 0x39 || 0x41 <= c <= 0x46 || 0x61 <= c <= 0x66 }

  function HexValue(c: Byte): int {
    if c <= 0x39 then c - 0x30 else if c <= 0x46 then c - 0x37 else c - 0x57
  }

  /** The code unit of a \u escape at the head of s, as getu4 in encoding/json reads it. */
  function Unit(s: Bytes): Option<int> {
    if |s| >= 6 && s[0] == BACKSLASH && s[1] == LETTER_U && (forall i :: 2 <= i < 6 ==> HexDigit(s[i])) then
      Some(((HexValue(s[2]) * 16 + HexValue(s[3])) * 16 + HexValue(s[4])) * 16 + HexValue(s[5]))
    else None
  }

  const SHORT_ESCAPES: map<Byte, Byte> := map[
    0x22 := 0x22, 0x5C := 0x5C, 0x2F := 0x2F, 0x62 := 0x08, 0x66 := 0x0C, 0x6E := 0x0A, 0x72 := 0x0D, 0x74 := 0x09]

  predicate BodyOk(b: Bytes) {
    if b == [] then true
    else if b[0] == BACKSLASH then
      || (|b| >= 2 && b[1] in SHORT_ESCAPES && BodyOk(b[2..]))
      || (Unit(b).Some? && BodyOk(b[6..]))
    else b[0] != QUOTE && b[0] >= 0x20 && BodyOk(b[1..])
  }

  predicate TagOk(t: Tag) { t.Key? ==> BodyOk(t.name) && Space(t.gap) && Space(t.space) }

  predicate ValueOk(v: Value) {
    match v
    case Number(_, _, _, _) => NumberOk(v)
    case Str(body) => BodyOk(body)
    case Container(isObject, items) => ItemsOk(items, isObject, true)
    case _ => true
  }

  predicate ItemsOk(items: Items, isObject: bool, first: bool) {
    match items
    case End(blank) => Space(blank) && (first || blank == [])
    case Item(before, tag, value, after, rest) =>
      && Space(before) && tag.Key? == isObject && TagOk(tag) && ValueOk(value) && Space(after)
      && ItemsOk(rest, isObject, false)
  }

  predicate DocOk(d: Doc) { Space(d.before) && ValueOk(d.value) && Space(d.after) }

  // ---- Their text ----

  function PrintExponent(e: Option<Exponent>): Bytes {
    if e.None? then [] else [if e.value.upper then 0x45 else 0x65] + e.value.sign + e.value.digits
  }

  function PrintScalar(v: Value): Bytes
    requires !v.Str? && !v.Container?
  {
    match v
    case Null => [0x6E, 0x75, 0x6C, 0x6C]
    case True => [0x74, 0x72, 0x75, 0x65]
    case False => [0x66, 0x61, 0x6C, 0x73, 0x65]
    case Number(minus, whole, frac, exp) =>
      (if minus then [0x2D] else []) + whole + (if frac == [] then [] else [0x2E] + frac) + PrintExponent(exp)
  }

  function Quoted(body: Bytes): Bytes { [QUOTE] + body + [QUOTE] }

  function PrintTag(t: Tag): Bytes {
    if t.Key? then Quoted(t.name) + t.gap + [COLON] + t.space else []
  }

  function Opening(isObject: bool): Byte { if isObject then OPEN_OBJECT else OPEN_ARRAY }

  function Closing(isObject: bool): Byte { if isObject then CLOSE_OBJECT else CLOSE_ARRAY }

  function Print(v: Value): Bytes {
    match v
    case Str(body) => Quoted(body)
    case Container(isObject, items) => [Opening(isObject)] + PrintItems(items, true) + [Closing(isObject)]
    case _ => PrintScalar(v)
  }

  function PrintItems(items: Items, first: bool): Bytes {
    match items
    case End(blank) => blank
    case Item(before, tag, value, after, rest) =>
      (if first then [] else [COMMA]) + before + PrintTag(tag) + Print(value) + after + PrintItems(rest, false)
  }

  function PrintDoc(d: Doc): Bytes { d.before + Print(d.value) + d.after }

  // ---- What a string denotes ----

  predicate Surrogate(u: int) { 0xD800 <= u < 0xE000 }

  /** The low half of a surrogate pair whose high half is u, if s begins with one. */
  predicate Paired(u: int, s: Bytes) {
    u < 0xDC00 && Unit(s).Some? && 0xDC00 <= Unit(s).value < 0xE000
  }

  /** The text of a string body: escapes resolved, what cannot be read replaced by U+FFFD. */
  function Decode(b: Bytes): Bytes {
    if b == [] then []
    else if b[0] != BACKSLASH then
      var d := DecodeRune(b);
      EncodeRune(d.rune) + Decode(b[d.size..])
    else if Unit(b).Some? then
      var u := Unit(b).value;
      if !Surrogate(u) then EncodeRune(u) + Decode(b[6..])
      else if Paired(u, b[6..]) then
        EncodeRune((u - 0xD800) * 0x400 + (Unit(b[6..]).value - 0xDC00) + 0x10000) + Decode(b[12..])
      else EncodeRune(RUNE_ERROR) + Decode(b[6..])
    else if |b| >= 2 && b[1] in SHORT_ESCAPES then [SHORT_ESCAPES[b[1]]] + Decode(b[2..])
    else []
  }

  /** Without escapes a body that is UTF-8 already is its own text. */
  lemma {:induction false} PlainBody(b: Bytes)
    requires BACKSLASH !in b && Valid(b)
    ensures Decode(b) == b
    decreases |b|
  {
    if b != [] {
      EncodeDecoded(b);
      PlainBody(b[DecodeRune(b).size..]);
    }
  }

  /** Printable ASCII that needs no escape. */
  predicate PlainAscii(b: Bytes) { forall i :: 0 <= i < |b| ==> 0x20 <= b[i] < 0x80 && b[i] != QUOTE && b[i] != BACKSLASH }

  lemma {:induction false} PlainAsciiBody(b: Bytes)
    requires PlainAscii(b)
    ensures BodyOk(b) && Valid(b) && Decode(b) == b
  {
    if b != [] {
      PlainAsciiBody(b[1..]);
      assert DecodeRune(b) == Decoded(b[0], 1, true);
      assert EncodeRune(b[0]) == [b[0]];
    }
  }

  /** A decoded string is UTF-8, whatever the body held. */
  lemma {:induction false} DecodeValid(b: Bytes)
    ensures Valid(Decode(b))
    decreases |b|
  {
    if b == [] {
    } else if b[0] != BACKSLASH {
      DecodeValid(b[DecodeRune(b).size..]);
      RuneThenValid(DecodeRune(b).rune, Decode(b[DecodeRune(b).size..]));
    } else if Unit(b).Some? {
      var u := Unit(b).value;
      DecodeValid(b[6..]);
      RuneThenValid(u, Decode(b[6..]));
      RuneThenValid(RUNE_ERROR, Decode(b[6..]));
      if Surrogate(u) && Paired(u, b[6..]) {
        DecodeValid(b[12..]);
        RuneThenValid((u - 0xD800) * 0x400 + (Unit(b[6..]).value - 0xDC00) + 0x10000, Decode(b[12..]));
      }
    } else if |b| >= 2 && b[1] in SHORT_ESCAPES {
      DecodeValid(b[2..]);
      var c := SHORT_ESCAPES[b[1]];
      assert EncodeRune(c) == [c];
      RuneThenValid(c, Decode(b[2..]));
    }
    hide EncodeRune, DecodeRune, Unit;
  }

  lemma RuneThenValid(r: Rune, s: Bytes)
    requires Valid(s)
    ensures Valid(EncodeRune(r) + s)
  {
  }

  // ---- What makes a text ambiguous ----

  function Keys(items: Items): seq<Bytes> {
    match items
    case End(_) => []
    case Item(_, tag, _, _, rest) => (if tag.Key? then [Decode(tag.name)] else []) + Keys(rest)
  }

  /** No object at any depth names a key twice. */
  ghost predicate SingleKeyed(v: Value) {
    v.Container? ==> Distinct(Keys(v.items)) && AllSingleKeyed(v.items)
  }

  ghost predicate AllSingleKeyed(items: Items) {
    items.Item? ==> SingleKeyed(items.value) && AllSingleKeyed(items.rest)
  }

  function Nesting(v: Value): nat {
    if v.Container? then 1 + ItemsNesting(v.items) else 0
  }

  function ItemsNesting(items: Items): nat {
    match items
    case End(_) => 0
    case Item(_, _, value, _, rest) => if Nesting(value) > ItemsNesting(rest) then Nesting(value) else ItemsNesting(rest)
  }
}
