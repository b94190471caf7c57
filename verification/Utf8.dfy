/**
UTF-8 as Go reads and writes it: a byte that begins no well-formed sequence reads as U+FFFD, one
byte wide, and a value that is no scalar is written as U+FFFD.
*/
module Utf8 {
  type Byte = int
  type Bytes = seq<Byte>
  type Rune = int

  const RUNE_ERROR: Rune := 0xFFFD

  predicate Scalar(r: Rune) { 0 <= r < 0xD800 || 0xE000 <= r <= 0x10FFFF }

  datatype Decoded = Decoded(rune: Rune, size: nat, ok: bool)

  const BAD: Decoded := Decoded(RUNE_ERROR, 1, false)

  predicate Tail(s: Bytes, i: nat) { i < |s| && 0x80 <= s[i] <= 0xBF }

  /** Where the second byte of a three-byte sequence may lie. */
  predicate Second3(a: Byte, b: Byte) {
    (if a == 0xE0 then 0xA0 else 0x80) <= b <= (if a == 0xED then 0x9F else 0xBF)
  }

  predicate Second4(a: Byte, b: Byte) {
    (if a == 0xF0 then 0x90 else 0x80) <= b <= (if a == 0xF4 then 0x8F else 0xBF)
  }

  /** Six more bits from a continuation byte, and the two halves of undoing it. */
  function Join(bits: int, b: Byte): int { bits * 0x40 + (b - 0x80) }

  function High(r: int): int { r / 0x40 }

  function Low(r: int): Byte { 0x80 + r % 0x40 }

  lemma JoinSplits(bits: int, b: Byte)
    requires 0x80 <= b <= 0xBF
    ensures High(Join(bits, b)) == bits && Low(Join(bits, b)) == b
  {
  }

  lemma SplitJoins(r: int)
    ensures Join(High(r), Low(r)) == r && 0x80 <= Low(r) <= 0xBF
  {
  }

  /** utf8.DecodeRune on a non-empty input. */
  function DecodeRune(s: Bytes): (d: Decoded)
    requires s != []
    ensures 1 <= d.size <= |s| && Scalar(d.rune)
  {
    var a := s[0];
    if 0 <= a < 0x80 then Decoded(a, 1, true)
    else if 0xC2 <= a <= 0xDF && Tail(s, 1) then
      Decoded(Join(a - 0xC0, s[1]), 2, true)
    else if 0xE0 <= a <= 0xEF && Tail(s, 1) && Second3(a, s[1]) && Tail(s, 2) then
      Decoded(Join(Join(a - 0xE0, s[1]), s[2]), 3, true)
    else if 0xF0 <= a <= 0xF4 && Tail(s, 1) && Second4(a, s[1]) && Tail(s, 2) && Tail(s, 3) then
      Decoded(Join(Join(Join(a - 0xF0, s[1]), s[2]), s[3]), 4, true)
    else BAD
  }

  /** utf8.EncodeRune. */
  function EncodeRune(r: Rune): (b: Bytes)
    ensures 1 <= |b| <= 4
  {
    if !Scalar(r) then [0xEF, 0xBF, 0xBD]
    else if r < 0x80 then [r]
    else if r < 0x800 then [0xC0 + High(r), Low(r)]
    else if r < 0x10000 then [0xE0 + High(High(r)), Low(High(r)), Low(r)]
    else [0xF0 + High(High(High(r))), Low(High(High(r))), Low(High(r)), Low(r)]
  }

  /** Writing what was read gives the bytes back, unless they were unreadable. */
  lemma EncodeDecoded(s: Bytes)
    requires s != [] && DecodeRune(s).ok
    ensures EncodeRune(DecodeRune(s).rune) == s[..DecodeRune(s).size]
  {
    var n := DecodeRune(s).size;
    if n == 2 {
      JoinSplits(s[0] - 0xC0, s[1]);
    } else if n == 3 {
      JoinSplits(s[0] - 0xE0, s[1]);
      JoinSplits(Join(s[0] - 0xE0, s[1]), s[2]);
    } else if n == 4 {
      JoinSplits(s[0] - 0xF0, s[1]);
      JoinSplits(Join(s[0] - 0xF0, s[1]), s[2]);
      JoinSplits(Join(Join(s[0] - 0xF0, s[1]), s[2]), s[3]);
    }
  }

  lemma DecodeTwo(r: Rune, s: Bytes)
    requires 0x80 <= r < 0x800 && |s| >= 2 && s[0] == 0xC0 + High(r) && s[1] == Low(r)
    ensures DecodeRune(s) == Decoded(r, 2, true)
  {
    SplitJoins(r);
  }

  lemma DecodeThree(r: Rune, s: Bytes)
    requires 0x800 <= r < 0x10000 && Scalar(r)
    requires |s| >= 3 && s[0] == 0xE0 + High(High(r)) && s[1] == Low(High(r)) && s[2] == Low(r)
    ensures DecodeRune(s) == Decoded(r, 3, true)
  {
    SplitJoins(r);
    SplitJoins(High(r));
  }

  lemma DecodeFour(r: Rune, s: Bytes)
    requires 0x10000 <= r && Scalar(r)
    requires |s| >= 4 && s[0] == 0xF0 + High(High(High(r))) && s[1] == Low(High(High(r)))
    requires s[2] == Low(High(r)) && s[3] == Low(r)
    ensures DecodeRune(s) == Decoded(r, 4, true)
  {
    SplitJoins(r);
    SplitJoins(High(r));
    SplitJoins(High(High(r)));
  }

  /** Reading what was written gives the rune back, whatever follows it. */
  lemma DecodeEncoded(r: Rune, rest: Bytes)
    requires Scalar(r)
    ensures DecodeRune(EncodeRune(r) + rest) == Decoded(r, |EncodeRune(r)|, true)
  {
    var s := EncodeRune(r) + rest;
    if r >= 0x80 {
      hide DecodeRune, High, Low;
      if r < 0x800 {
        DecodeTwo(r, s);
      } else if r < 0x10000 {
        DecodeThree(r, s);
      } else {
        DecodeFour(r, s);
      }
    }
  }

  /** The runes that ranging over a string visits. */
  function Runes(s: Bytes): (rs: seq<Rune>)
    ensures forall r :: r in rs ==> Scalar(r)
    decreases |s|
  {
    if s == [] then [] else [DecodeRune(s).rune] + Runes(s[DecodeRune(s).size..])
  }

  function Encode(rs: seq<Rune>): Bytes {
    if rs == [] then [] else EncodeRune(rs[0]) + Encode(rs[1..])
  }

  /** utf8.Valid. */
  predicate Valid(s: Bytes)
    decreases |s|
  {
    s == [] || (DecodeRune(s).ok && Valid(s[DecodeRune(s).size..]))
  }

  lemma {:induction false} RunesOfEncode(rs: seq<Rune>)
    requires forall r :: r in rs ==> Scalar(r)
    ensures Runes(Encode(rs)) == rs && Valid(Encode(rs))
  {
    if rs != [] {
      DecodeEncoded(rs[0], Encode(rs[1..]));
      RunesOfEncode(rs[1..]);
      assert Encode(rs)[|EncodeRune(rs[0])|..] == Encode(rs[1..]);
    }
  }

  lemma {:induction false} EncodeOfRunes(s: Bytes)
    requires Valid(s)
    ensures Encode(Runes(s)) == s
    decreases |s|
  {
    if s != [] {
      EncodeDecoded(s);
      EncodeOfRunes(s[DecodeRune(s).size..]);
      assert Runes(s)[1..] == Runes(s[DecodeRune(s).size..]);
    }
  }
}
