/**
The ambiguity scan of params.go as a function of the bytes still to read and the open frames, and the
recursive rule over JSON trees that it decides.
*/
module ScanModel {
  import opened Common
  import opened Utf8
  import opened Json

  const MAX_PARAMS_DEPTH: nat := 1000

  datatype Verdict = Clear | NotObject | TooDeep | Ambiguous(key: Bytes)

  datatype Frame = Frame(isObject: bool, expectKey: bool, seen: set<Bytes>)

  predicate IsStructural(c: Byte) {
    || c == OPEN_OBJECT || c == CLOSE_OBJECT || c == OPEN_ARRAY || c == CLOSE_ARRAY
    || c == COMMA || c == COLON || c == QUOTE || IsSpace(c)
  }

  /** How many bytes of s precede its first structural one. */
  function PlainLength(s: Bytes): (n: nat)
    ensures n <= |s| && (s != [] && !IsStructural(s[0]) ==> n > 0)
  {
    if s == [] || IsStructural(s[0]) then 0 else 1 + PlainLength(s[1..])
  }

  /** With s just past an opening quote: the length of the body before the closing one. */
  function BodyLength(s: Bytes): (n: Option<nat>)
    ensures n.Some? ==> n.value < |s| && s[n.value] == QUOTE
  {
    if s == [] then None
    else if s[0] == QUOTE then Some(0)
    else
      var step := if s[0] == BACKSLASH then 2 else 1;
      if |s| < step then None
      else
        var n := BodyLength(s[step..]);
        if n.None? then None else Some(step + n.value)
  }

  predicate Exact(body: Bytes) { BACKSLASH !in body && Valid(body) }

  /** What decodeStringSpan answers; None is the decoder's refusal. */
  function KeyText(body: Bytes): Option<Bytes> {
    if Exact(body) then Some(body) else if BodyOk(body) then Some(Decode(body)) else None
  }

  function Top(st: seq<Frame>): Frame
    requires st != []
  {
    st[|st| - 1]
  }

  function SetTop(st: seq<Frame>, f: Frame): seq<Frame>
    requires st != []
  {
    st[|st| - 1 := f]
  }

  predicate AtKey(st: seq<Frame>) { st != [] && Top(st).isObject && Top(st).expectKey }

  datatype KeyStep = KeyStep(verdict: Verdict, stack: seq<Frame>)

  /** What a string with this body does to the innermost frame. */
  function ReadString(body: Bytes, st: seq<Frame>): KeyStep {
    if !AtKey(st) then KeyStep(Clear, st)
    else
      var key := KeyText(body);
      if key.None? then KeyStep(NotObject, st)
      else if key.value in Top(st).seen then KeyStep(Ambiguous(key.value), st)
      else KeyStep(Clear, SetTop(st, Top(st).(seen := Top(st).seen + {key.value})))
  }

  /** A comma or colon. */
  function Separate(c: Byte, st: seq<Frame>): seq<Frame> {
    if st == [] then st
    else if c == COLON then SetTop(st, Top(st).(expectKey := false))
    else if Top(st).isObject then SetTop(st, Top(st).(expectKey := true))
    else st
  }

  /** The scan from here to the end of the input. */
  function Run(s: Bytes, st: seq<Frame>): Verdict
    decreases |s|
  {
    if s == [] then (if st == [] then Clear else NotObject)
    else if IsSpace(s[0]) then Run(s[1..], st)
    else if s[0] == OPEN_OBJECT || s[0] == OPEN_ARRAY then
      if |st| >= MAX_PARAMS_DEPTH then TooDeep
      else Run(s[1..], st + [Frame(s[0] == OPEN_OBJECT, s[0] == OPEN_OBJECT, {})])
    else if s[0] == CLOSE_OBJECT || s[0] == CLOSE_ARRAY then
      if st == [] then NotObject else Run(s[1..], st[..|st| - 1])
    else if s[0] == COMMA || s[0] == COLON then Run(s[1..], Separate(s[0], st))
    else if s[0] == QUOTE then
      var n := BodyLength(s[1..]);
      if n.None? then NotObject
      else
        var k := ReadString(s[1..1 + n.value], st);
        if k.verdict.Clear? then Run(s[n.value + 2..], k.stack) else k.verdict
    else Run(s[PlainLength(s)..], st)
  }

  // ---- The recursive rule ----

  /** The first fault of a value that is opened depth containers down, in document order. */
  function Check(v: Value, depth: nat): Verdict {
    if !v.Container? then Clear
    else if depth >= MAX_PARAMS_DEPTH then TooDeep
    else CheckItems(v.items, depth + 1, {})
  }

  function CheckItems(items: Items, depth: nat, seen: set<Bytes>): Verdict {
    match items
    case End(_) => Clear
    case Item(_, tag, value, _, rest) =>
      if tag.Key? && Decode(tag.name) in seen then Ambiguous(Decode(tag.name))
      else
        var inner := Check(value, depth);
        if !inner.Clear? then inner
        else CheckItems(rest, depth, if tag.Key? then seen + {Decode(tag.name)} else seen)
  }

  // ---- The scan on one token ----

  lemma {:induction false} RunSpace(w: Bytes, s: Bytes, st: seq<Frame>)
    requires Space(w)
    ensures Run(w + s, st) == Run(s, st)
    decreases |w|
  {
    if w == [] {
      assert w + s == s;
    } else {
      assert (w + s)[1..] == w[1..] + s;
      RunSpace(w[1..], s, st);
    }
  }

  lemma {:induction false} PlainPrefix(w: Bytes, s: Bytes)
    requires forall c :: c in w ==> !IsStructural(c)
    requires s == [] || IsStructural(s[0])
    ensures PlainLength(w + s) == |w|
    decreases |w|
  {
    if w == [] {
      assert w + s == s;
    } else {
      assert (w + s)[1..] == w[1..] + s;
      PlainPrefix(w[1..], s);
    }
  }

  /** A well-formed body runs up to the quote that closes it. */
  lemma {:induction false} BodyEnds(b: Bytes, s: Bytes)
    requires BodyOk(b)
    ensures BodyLength(b + [QUOTE] + s) == Some(|b|)
    decreases |b|
  {
    var t := b + [QUOTE] + s;
    if b != [] {
      var step := if b[0] == BACKSLASH then 2 else 1;
      assert BodyOk(b[step..]) by { EscapeTail(b); }
      assert t[step..] == b[step..] + [QUOTE] + s;
      BodyEnds(b[step..], s);
    }
  }

  lemma EscapeTail(b: Bytes)
    requires BodyOk(b) && b != []
    ensures |b| >= 2 || b[0] != BACKSLASH
    ensures BodyOk(b[if b[0] == BACKSLASH then 2 else 1..])
  {
    if b[0] == BACKSLASH && b[1] !in SHORT_ESCAPES {
      assert b[5..][1..] == b[6..];
      assert b[4..][1..] == b[5..];
      assert b[3..][1..] == b[4..];
      assert b[2..][1..] == b[3..];
      assert HexDigit(b[2]) && HexDigit(b[3]) && HexDigit(b[4]) && HexDigit(b[5]);
      assert BodyOk(b[5..]);
      assert BodyOk(b[4..]);
      assert BodyOk(b[3..]);
    }
  }

  lemma KeyTextDecodes(b: Bytes)
    requires BodyOk(b)
    ensures KeyText(b) == Some(Decode(b))
  {
    if Exact(b) {
      PlainBody(b);
    }
  }

  lemma RunString(b: Bytes, s: Bytes, st: seq<Frame>)
    requires BodyOk(b)
    ensures var k := ReadString(b, st);
            Run(Quoted(b) + s, st) == if k.verdict.Clear? then Run(s, k.stack) else k.verdict
  {
    var t := Quoted(b) + s;
    assert t[0] == QUOTE;
    assert t[1..] == b + [QUOTE] + s;
    BodyEnds(b, s);
    assert t[1..1 + |b|] == b;
    assert t[|b| + 2..] == s;
    hide BodyOk, BodyLength, ReadString;
  }

  lemma ScalarIsPlain(v: Value)
    requires ValueOk(v) && !v.Str? && !v.Container?
    ensures PrintScalar(v) != [] && forall c :: c in PrintScalar(v) ==> !IsStructural(c)
  {
    if v.Number? && v.exp.Some? {
      assert forall c :: c in v.exp.value.sign ==> c == 0x2B || c == 0x2D;
      assert forall c :: c in PrintExponent(v.exp) ==> !IsStructural(c);
    }
  }

  predicate Stops(s: Bytes) { s == [] || IsStructural(s[0]) }

  lemma RunScalar(v: Value, s: Bytes, st: seq<Frame>)
    requires ValueOk(v) && !v.Str? && !v.Container? && Stops(s)
    ensures Run(Print(v) + s, st) == Run(s, st)
  {
    var w := PrintScalar(v);
    ScalarIsPlain(v);
    PlainPrefix(w, s);
    var t := w + s;
    assert t[0] == w[0] && w[0] in w;
    assert t[PlainLength(t)..] == s;
    hide PlainLength, ValueOk, PrintScalar;
  }

  /** A member's key and colon: the frame learns the key, and a value is next. */
  lemma RunTag(tag: Tag, s: Bytes, st: seq<Frame>)
    requires TagOk(tag) && st != [] && Top(st).isObject == Top(st).expectKey == tag.Key?
    ensures Run(PrintTag(tag) + s, st) ==
      if !tag.Key? then Run(s, st)
      else if Decode(tag.name) in Top(st).seen then Ambiguous(Decode(tag.name))
      else Run(s, SetTop(st, Frame(true, false, Top(st).seen + {Decode(tag.name)})))
  {
    hide Run, BodyOk, Decode, KeyText, BodyLength;
    if tag.Key? {
      var r1 := [COLON] + (tag.space + s);
      assert PrintTag(tag) + s == Quoted(tag.name) + (tag.gap + r1);
      RunString(tag.name, tag.gap + r1, st);
      KeyTextDecodes(tag.name);
      var key := Decode(tag.name);
      if key !in Top(st).seen {
        var st1 := ReadString(tag.name, st).stack;
        assert Separate(COLON, st1) == SetTop(st, Frame(true, false, Top(st).seen + {key}));
        RunColon(tag, s, st1);
      }
    } else {
      assert PrintTag(tag) + s == s;
    }
  }

  lemma RunColon(tag: Tag, s: Bytes, st: seq<Frame>)
    requires tag.Key? && TagOk(tag)
    ensures Run(tag.gap + ([COLON] + (tag.space + s)), st) == Run(s, Separate(COLON, st))
  {
    var r1 := [COLON] + (tag.space + s);
    RunSpace(tag.gap, r1, st);
    assert r1[1..] == tag.space + s;
    RunSpace(tag.space, s, Separate(COLON, st));
    hide BodyOk, BodyLength;
  }

  // ---- The scan on a whole tree ----

  lemma {:induction false} RunValue(v: Value, s: Bytes, st: seq<Frame>)
    requires ValueOk(v) && Stops(s) && !AtKey(st)
    ensures Run(Print(v) + s, st) == if Check(v, |st|).Clear? then Run(s, st) else Check(v, |st|)
    decreases v, 0
  {
    match v
    case Str(body) => RunString(body, s, st);
    case Container(isObject, items) =>
      var inner := PrintItems(items, true) + ([Closing(isObject)] + s);
      var t := Print(v) + s;
      assert t == [Opening(isObject)] + inner;
      assert t[1..] == inner;
      if |st| < MAX_PARAMS_DEPTH {
        RunItems(items, true, s, st, Frame(isObject, isObject, {}));
      }
    case _ => RunScalar(v, s, st);
  }

  /** The rest of an open container, up to and including its closing bracket. */
  lemma {:induction false} RunItems(items: Items, first: bool, s: Bytes, st: seq<Frame>, f: Frame)
    requires ItemsOk(items, f.isObject, first) && f.expectKey == (first && f.isObject)
    ensures var c := CheckItems(items, |st| + 1, f.seen);
            Run(PrintItems(items, first) + ([Closing(f.isObject)] + s), st + [f]) == if c.Clear? then Run(s, st) else c
    decreases items, 1
  {
    var close := [Closing(f.isObject)] + s;
    if items.End? {
      RunSpace(items.blank, close, st + [f]);
      assert close[1..] == s;
      assert (st + [f])[..|st|] == st;
    } else {
      RunItem(items, first, s, st, f);
    }
  }

  /** The comma that separates an item from the one before it. */
  lemma RunComma(s: Bytes, st: seq<Frame>, f: Frame, first: bool)
    requires f.expectKey == (first && f.isObject)
    ensures Run(if first then s else [COMMA] + s, st + [f]) == Run(s, st + [f.(expectKey := f.isObject)])
  {
    assert ([COMMA] + s)[1..] == s;
    assert Separate(COMMA, st + [f]) == st + [f.(expectKey := f.isObject)];
    hide BodyLength, PlainLength, ReadString;
  }

  lemma ItemText(items: Items, first: bool, close: Bytes)
    requires items.Item?
    ensures var body := items.before + (PrintTag(items.tag) + (Print(items.value) + (items.after
                        + (PrintItems(items.rest, false) + close))));
            PrintItems(items, first) + close == if first then body else [COMMA] + body
  {
  }

  lemma Associate<T>(p: seq<T>, a: seq<T>, b: seq<T>, c: seq<T>, d: seq<T>, e: seq<T>, f: seq<T>)
    ensures p + a + b + c + d + e + f == p + (a + (b + (c + (d + (e + f)))))
  {
  }

  lemma SetTopLast(st: seq<Frame>, g: Frame, h: Frame)
    ensures Top(st + [g]) == g && SetTop(st + [g], h) == st + [h]
  {
  }

  /** What follows an item's value is white space, a comma or a bracket. */
  lemma StopsAfter(items: Items, close: Bytes)
    requires items.Item? && Space(items.after) && close != [] && IsStructural(close[0])
    requires items.rest.End? ==> items.rest.blank == []
    ensures Stops(items.after + (PrintItems(items.rest, false) + close))
  {
  }

  lemma {:induction false} RunItem(items: Items, first: bool, s: Bytes, st: seq<Frame>, f: Frame)
    requires items.Item?
    requires ItemsOk(items, f.isObject, first) && f.expectKey == (first && f.isObject)
    ensures var c := CheckItems(items, |st| + 1, f.seen);
            Run(PrintItems(items, first) + ([Closing(f.isObject)] + s), st + [f]) == if c.Clear? then Run(s, st) else c
    decreases items, 0
  {
    var close := [Closing(f.isObject)] + s;
    var t4 := PrintItems(items.rest, false) + close;
    var t3 := items.after + t4;
    var t2 := Print(items.value) + t3;
    var t1 := PrintTag(items.tag) + t2;
    var t0 := items.before + t1;
    var text := PrintItems(items, first) + close;
    var g := f.(expectKey := f.isObject);
    ItemText(items, first, close);
    RunComma(t0, st, f, first);
    hide Run, Decode, SetTop;
    RunSpace(items.before, t1, st + [g]);
    RunTag(items.tag, t2, st + [g]);
    var key := if items.tag.Key? then Decode(items.tag.name) else [];
    if !(items.tag.Key? && key in f.seen) {
      var h := Frame(f.isObject, false, if items.tag.Key? then f.seen + {key} else f.seen);
      SetTopLast(st, g, h);
      assert Stops(t3) by { StopsAfter(items, close); }
      RunValue(items.value, t3, st + [h]);
      RunSpace(items.after, t4, st + [h]);
      RunItems(items.rest, false, s, st, h);
    }
  }

  /** On every JSON text the scan finds what the recursive rule finds. */
  lemma ScanDecides(d: Doc)
    requires DocOk(d)
    ensures Run(PrintDoc(d), []) == Check(d.value, 0)
  {
    assert PrintDoc(d) == d.before + (Print(d.value) + (d.after + []));
    RunSpace(d.before, Print(d.value) + (d.after + []), []);
    RunValue(d.value, d.after + [], []);
    RunSpace(d.after, [], []);
  }

  /** Each verdict means what it says: no repeated key at any depth and bounded nesting, or one that fails. */
  lemma {:induction false} CheckMeans(v: Value, depth: nat)
    requires depth <= MAX_PARAMS_DEPTH
    ensures Check(v, depth).Clear? <==> SingleKeyed(v) && depth + Nesting(v) <= MAX_PARAMS_DEPTH
    ensures Check(v, depth).TooDeep? ==> depth + Nesting(v) > MAX_PARAMS_DEPTH
    ensures Check(v, depth).Ambiguous? ==> !SingleKeyed(v)
    ensures !Check(v, depth).NotObject?
  {
    if v.Container? && depth < MAX_PARAMS_DEPTH {
      CheckItemsMeans(v.items, depth + 1, {});
    }
  }

  lemma {:induction false} CheckItemsMeans(items: Items, depth: nat, seen: set<Bytes>)
    requires depth <= MAX_PARAMS_DEPTH
    ensures CheckItems(items, depth, seen).Clear? <==>
      && Distinct(Keys(items)) && (forall k :: k in Keys(items) ==> k !in seen)
      && AllSingleKeyed(items) && depth + ItemsNesting(items) <= MAX_PARAMS_DEPTH
    ensures CheckItems(items, depth, seen).TooDeep? ==> depth + ItemsNesting(items) > MAX_PARAMS_DEPTH
    ensures CheckItems(items, depth, seen).Ambiguous? ==>
      !(Distinct(Keys(items)) && (forall k :: k in Keys(items) ==> k !in seen) && AllSingleKeyed(items))
    ensures !CheckItems(items, depth, seen).NotObject?
  {
    if items.Item? {
      CheckMeans(items.value, depth);
      if items.tag.Key? {
        var key := Decode(items.tag.name);
        CheckItemsMeans(items.rest, depth, seen + {key});
        var ks := Keys(items.rest);
        assert Keys(items) == [key] + ks;
        DistinctCons(key, ks);
      } else {
        CheckItemsMeans(items.rest, depth, seen);
        assert Keys(items) == Keys(items.rest);
      }
    }
  }

  /** The verdict on a JSON text, stated on its tree. */
  lemma ScanMeans(d: Doc)
    requires DocOk(d)
    ensures Run(PrintDoc(d), []).Clear? <==> SingleKeyed(d.value) && Nesting(d.value) <= 1000
    ensures Run(PrintDoc(d), []).TooDeep? ==> Nesting(d.value) > 1000
    ensures Run(PrintDoc(d), []).Ambiguous? ==> !SingleKeyed(d.value)
    ensures !Run(PrintDoc(d), []).NotObject?
  {
    ScanDecides(d);
    CheckMeans(d.value, 0);
    hide Run, PrintDoc, DocOk, Check, SingleKeyed, Nesting;
  }

  lemma DistinctCons<T>(x: T, s: seq<T>)
    ensures Distinct([x] + s) <==> x !in s && Distinct(s)
  {
    if x !in s && Distinct(s) {
      DistinctJoin([x], s);
    } else if Distinct([x] + s) {
      forall i, j | 0 <= i < j < |s|
        ensures s[i] != s[j]
      {
        assert ([x] + s)[i + 1] != ([x] + s)[j + 1];
      }
      forall i | 0 <= i < |s|
        ensures s[i] != x
      {
        assert ([x] + s)[0] != ([x] + s)[i + 1];
      }
    }
  }
}
