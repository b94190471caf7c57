/**
Header values (headervalue.go): printable ASCII as it is, anything else as base64 (section 4 of RFC 4648)
between two markers.
*/
module HeaderValue {
  import opened Common
  import opened Utf8
  import opened Params
  import opened Subject

  const OPENING: Bytes := Ascii("=?base64?")
  const CLOSING: Bytes := Ascii("?=")
  const PAD: Byte := 0x3D
  const QUESTION: Byte := 0x3F

  // ---- base64 ----

  function Symbol(v: int): Byte
    requires 0 <= v < 64
  {
    if v < 26 then 0x41 + v else if v < 52 then 0x61 + (v - 26) else if v < 62 then 0x30 + (v - 52)
    else if v == 62 then 0x2B else 0x2F
  }

  /** The value of a symbol, or -1. */
  function Value(c: Byte): (v: int)
    ensures -1 <= v < 64
  {
    if 0x41 <= c <= 0x5A then c - 0x41 else if 0x61 <= c <= 0x7A then c - 0x61 + 26
    else if 0x30 <= c <= 0x39 then c - 0x30 + 52 else if c == 0x2B then 62 else if c == 0x2F then 63 else -1
  }

  predicate Octets(s: Bytes) { forall i :: 0 <= i < |s| ==> 0 <= s[i] < 256 }

  function Quantum(a: Byte, b: Byte, c: Byte): Bytes
    requires 0 <= a < 256 && 0 <= b < 256 && 0 <= c < 256
  {
    [Symbol(a / 4), Symbol(a % 4 * 16 + b / 16), Symbol(b % 16 * 4 + c / 64), Symbol(c % 64)]
  }

  function Encode64(s: Bytes): Bytes
    requires Octets(s)
  {
    if s == [] then []
    else if |s| == 1 then Quantum(s[0], 0, 0)[..2] + [PAD, PAD]
    else if |s| == 2 then Quantum(s[0], s[1], 0)[..3] + [PAD]
    else Quantum(s[0], s[1], s[2]) + Encode64(s[3..])
  }

  /** StdEncoding skips line ends. */
  function Unfold(t: Bytes): Bytes {
    if t == [] then []
    else (if t[0] == 0x0D || t[0] == 0x0A then [] else [t[0]]) + Unfold(t[1..])
  }

  /** The three octets of four symbols; unused low bits are not checked. */
  function Octet3(a: int, b: int, c: int, d: int): Bytes {
    [a * 4 + b / 16, b % 16 * 16 + c / 4, c % 4 * 64 + d]
  }

  function Decode64(t: Bytes): Option<Bytes> {
    if t == [] then Some([])
    else if |t| < 4 || Value(t[0]) < 0 || Value(t[1]) < 0 then None
    else if t[2..] == [PAD, PAD] then Some(Octet3(Value(t[0]), Value(t[1]), 0, 0)[..1])
    else if Value(t[2]) < 0 then None
    else if t[3..] == [PAD] then Some(Octet3(Value(t[0]), Value(t[1]), Value(t[2]), 0)[..2])
    else if Value(t[3]) < 0 then None
    else
      var rest := Decode64(t[4..]);
      if rest.None? then None
      else Some(Octet3(Value(t[0]), Value(t[1]), Value(t[2]), Value(t[3])) + rest.value)
  }

  lemma SymbolValue(v: int)
    requires 0 <= v < 64
    ensures Value(Symbol(v)) == v && 0x2B <= Symbol(v) <= 0x7A && Symbol(v) != QUESTION && Symbol(v) != PAD
  {
  }

  lemma SextetsJoin(a: Byte, b: Byte, c: Byte)
    requires 0 <= a < 256 && 0 <= b < 256 && 0 <= c < 256
    ensures Octet3(a / 4, a % 4 * 16 + b / 16, b % 16 * 4 + c / 64, c % 64) == [a, b, c]
  {
  }

  lemma QuantumBack(a: Byte, b: Byte, c: Byte)
    requires 0 <= a < 256 && 0 <= b < 256 && 0 <= c < 256
    ensures var q := Quantum(a, b, c);
            && Value(q[0]) >= 0 && Value(q[1]) >= 0 && Value(q[2]) >= 0 && Value(q[3]) >= 0
            && Octet3(Value(q[0]), Value(q[1]), Value(q[2]), Value(q[3])) == [a, b, c]
            && (c == 0 ==> Value(q[3]) == 0) && (b == 0 && c == 0 ==> Value(q[2]) == 0)
            && forall x :: x in q ==> 0x2B <= x <= 0x7A && x != QUESTION && x != PAD
  {
    hide Symbol, Value;
    SymbolValue(a / 4);
    SymbolValue(a % 4 * 16 + b / 16);
    SymbolValue(b % 16 * 4 + c / 64);
    SymbolValue(c % 64);
    SextetsJoin(a, b, c);
  }

  lemma OneRoundTrip(s: Bytes)
    requires Octets(s) && |s| == 1
    ensures Decode64(Encode64(s)) == Some(s)
  {
    hide Symbol, Value;
    QuantumBack(s[0], 0, 0);
    assert Encode64(s)[2..] == [PAD, PAD];
    assert [s[0], 0, 0][..1] == s;
  }

  lemma TwoRoundTrip(s: Bytes)
    requires Octets(s) && |s| == 2
    ensures Decode64(Encode64(s)) == Some(s)
  {
    hide Symbol, Value;
    QuantumBack(s[0], s[1], 0);
    var q, t := Quantum(s[0], s[1], 0), Encode64(s);
    assert t[3..] == [PAD] && t[2] == q[2];
    assert q[2] in q;
    assert [s[0], s[1], 0][..2] == s;
  }

  lemma {:induction false} Base64RoundTrip(s: Bytes)
    requires Octets(s)
    ensures Decode64(Encode64(s)) == Some(s)
  {
    hide Symbol, Value;
    if |s| == 1 {
      OneRoundTrip(s);
    } else if |s| == 2 {
      TwoRoundTrip(s);
    } else if s != [] {
      QuantumBack(s[0], s[1], s[2]);
      Base64RoundTrip(s[3..]);
      var q, t := Quantum(s[0], s[1], s[2]), Encode64(s);
      assert t[..4] == q && t[4..] == Encode64(s[3..]);
      assert t[2] == q[2] && t[3] == q[3];
      assert q[2] in q && q[3] in q;
      assert s == [s[0], s[1], s[2]] + s[3..];
    }
  }

  lemma {:induction false} Base64Alphabet(s: Bytes)
    requires Octets(s)
    ensures forall c :: c in Encode64(s) ==> 0x2B <= c <= 0x7A && c != QUESTION
  {
    if |s| >= 3 {
      QuantumBack(s[0], s[1], s[2]);
      Base64Alphabet(s[3..]);
    } else if |s| == 2 {
      QuantumBack(s[0], s[1], 0);
    } else if |s| == 1 {
      QuantumBack(s[0], 0, 0);
    }
  }

  lemma {:induction false} UnfoldPlain(t: Bytes)
    requires forall c :: c in t ==> c != 0x0D && c != 0x0A
    ensures Unfold(t) == t
  {
    if t != [] {
      assert t[0] in t && t == [t[0]] + t[1..];
      assert forall c :: c in t[1..] ==> c in t;
      UnfoldPlain(t[1..]);
    }
  }

  // ---- The sentinel ----

  predicate Prefixed(v: Bytes) { OPENING <= v }

  predicate Suffixed(v: Bytes) { |v| >= |CLOSING| && v[|v| - |CLOSING|..] == CLOSING }

  predicate EdgeSpace(s: Bytes) {
    var rs := Runes(s);
    rs != [] && (UnicodeSpace(rs[0]) || UnicodeSpace(rs[|rs| - 1]))
  }

  predicate NeedsEncoding(s: Bytes) {
    s != [] && ((Prefixed(s) && Suffixed(s)) || EdgeSpace(s) || exists r :: r in Runes(s) && (r < 0x20 || r > 0x7E))
  }

  function EncodeHeaderValue(s: Bytes): Bytes
    requires Octets(s)
  {
    if NeedsEncoding(s) then OPENING + Encode64(s) + CLOSING else s
  }

  function DecodeHeaderValue(v: Bytes): Option<Bytes> {
    if !Prefixed(v) then Some(v)
    else
      var inner := v[|OPENING|..];
      if !Suffixed(inner) then Some(v)
      else
        var payload := inner[..|inner| - |CLOSING|];
        if QUESTION in payload then None
        else
          var raw := Decode64(Unfold(payload));
          if raw.Some? && Valid(raw.value) then raw else None
  }

  lemma {:induction false} ValidOctets(s: Bytes)
    requires Valid(s)
    ensures Octets(s)
    decreases |s|
  {
    if s != [] {
      var n := DecodeRune(s).size;
      ValidOctets(s[n..]);
      assert s == s[..n] + s[n..];
    }
  }

  /** A value that is not encoded is printable ASCII, byte for byte, with no space at either end. */
  lemma {:induction false} PlainBytes(s: Bytes)
    requires forall r :: r in Runes(s) ==> 0x20 <= r <= 0x7E
    ensures Runes(s) == s
    decreases |s|
  {
    if s != [] {
      var d := DecodeRune(s);
      assert Runes(s)[0] == d.rune && d.rune in Runes(s);
      assert d.size == 1;
      assert Runes(s)[1..] == Runes(s[1..]);
      assert forall r :: r in Runes(s)[1..] ==> r in Runes(s);
      PlainBytes(s[1..]);
      assert s == [s[0]] + s[1..];
    }
  }

  lemma WrappedDecodes(p: Bytes)
    requires QUESTION !in p
    ensures DecodeHeaderValue(OPENING + p + CLOSING) ==
      if Decode64(Unfold(p)).Some? && Valid(Decode64(Unfold(p)).value) then Decode64(Unfold(p)) else None
  {
    var v := OPENING + p + CLOSING;
    var inner := v[|OPENING|..];
    assert v[..|OPENING|] == OPENING;
    assert inner == p + CLOSING;
    assert inner[|p|..] == CLOSING && inner[..|p|] == p;
    hide Decode64, Unfold, Valid, Ascii;
  }

  /** Decoding undoes encoding, for every UTF-8 value, sentinel look-alikes included. */
  lemma HeaderRoundTrip(s: Bytes)
    requires Valid(s)
    ensures Octets(s) && DecodeHeaderValue(EncodeHeaderValue(s)) == Some(s)
  {
    ValidOctets(s);
    if NeedsEncoding(s) {
      Base64RoundTrip(s);
      Base64Alphabet(s);
      UnfoldPlain(Encode64(s));
      WrappedDecodes(Encode64(s));
    }
    hide Encode64, Decode64, Unfold, Octets, Ascii;
  }

  lemma HeaderInjective(s: Bytes, t: Bytes)
    requires Valid(s) && Valid(t) && Octets(s) && Octets(t) && EncodeHeaderValue(s) == EncodeHeaderValue(t)
    ensures s == t
  {
    HeaderRoundTrip(s);
    HeaderRoundTrip(t);
    hide EncodeHeaderValue, DecodeHeaderValue;
  }

  lemma EncodedSafe(s: Bytes)
    requires Octets(s) && NeedsEncoding(s)
    ensures var v := EncodeHeaderValue(s);
            (forall c :: c in v ==> 0x20 <= c <= 0x7E) && v != [] && v[0] != 0x20 && v[|v| - 1] != 0x20
  {
    hide Ascii, Encode64, NeedsEncoding, OPENING, CLOSING;
    Base64Alphabet(s);
    MarkersPlain();
  }

  lemma PlainSafe(s: Bytes)
    requires Octets(s) && !NeedsEncoding(s)
    ensures (forall c :: c in s ==> 0x20 <= c <= 0x7E) && (s != [] ==> s[0] != 0x20 && s[|s| - 1] != 0x20)
  {
    hide Ascii, Prefixed, Suffixed;
    if s != [] {
      PlainBytes(s);
      assert !UnicodeSpace(Runes(s)[0]) && !UnicodeSpace(Runes(s)[|s| - 1]);
      hide Runes;
    }
  }

  /** An encoded value is printable ASCII with no space at either end (section 5.5 of RFC 9110). */
  lemma HeaderSafe(s: Bytes)
    requires Octets(s)
    ensures var v := EncodeHeaderValue(s);
            && (forall c :: c in v ==> 0x20 <= c <= 0x7E)
            && (v != [] ==> v[0] != 0x20 && v[|v| - 1] != 0x20)
  {
    hide Ascii, Encode64, NeedsEncoding, OPENING, CLOSING;
    if NeedsEncoding(s) {
      EncodedSafe(s);
    } else {
      PlainSafe(s);
    }
  }

  lemma {:induction false} AsciiRunes(s: Bytes)
    requires forall i :: 0 <= i < |s| ==> 0x20 <= s[i] <= 0x7E
    ensures Runes(s) == s
    decreases |s|
  {
    if s != [] {
      assert DecodeRune(s) == Decoded(s[0], 1, true);
      AsciiRunes(s[1..]);
      assert s == [s[0]] + s[1..];
    }
  }

  /** Printable ASCII without a space at either end, and not to be mistaken for an encoded value. */
  predicate Plain(s: Bytes) {
    && (forall i :: 0 <= i < |s| ==> 0x20 <= s[i] <= 0x7E)
    && (s != [] ==> s[0] != 0x20 && s[|s| - 1] != 0x20)
    && !(Ascii("=?base64?") <= s && s[|s| - 2..] == Ascii("?="))
  }

  /** A plain value is written as it is, and every other between the markers. */
  lemma PlainIsKept(s: Bytes)
    requires Octets(s)
    ensures EncodeHeaderValue(s) == if Plain(s) then s else Ascii("=?base64?") + Encode64(s) + Ascii("?=")
  {
    if Plain(s) {
      PlainNeedsNone(s);
    }
    if !NeedsEncoding(s) {
      NoNeedIsPlain(s);
    }
    hide Ascii, Encode64, Octets, NeedsEncoding, Plain;
  }

  lemma NoNeedIsPlain(s: Bytes)
    requires Octets(s) && !NeedsEncoding(s)
    ensures Plain(s)
  {
    PlainSafe(s);
    assert forall i :: 0 <= i < |s| ==> s[i] in s;
    hide Ascii, Octets, EdgeSpace, Runes;
  }

  lemma PlainNeedsNone(s: Bytes)
    requires Plain(s)
    ensures !NeedsEncoding(s)
  {
    if s != [] {
      AsciiRunes(s);
      assert !UnicodeSpace(s[0]) && !UnicodeSpace(s[|s| - 1]);
      assert !(Prefixed(s) && Suffixed(s));
      assert forall r :: r in s ==> 0x20 <= r <= 0x7E;
    }
    hide Ascii, Runes, UnicodeSpace;
  }

  lemma MarkersPlain()
    ensures forall c :: c in OPENING || c in CLOSING ==> 0x20 < c <= 0x7E
    ensures |OPENING| > 0 && OPENING[0] != 0x20 && |CLOSING| == 2 && CLOSING[1] != 0x20
  {
  }
}
