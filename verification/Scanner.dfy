/** The scan as params.go runs it: a byte loop over a stack of frames that are updated in place. */
module Scanner {
  import opened Common
  import opened Utf8
  import opened Json
  import opened ScanModel

  const SMALL_OBJECT_KEYS: nat := 16

  /** One open container. Its keys are a short list until there are too many of them, then a set. */
  class ScanFrame {
    const isObject: bool
    var expectKey: bool
    var small: seq<Bytes>
    var keys: Option<set<Bytes>>

    ghost predicate Valid()
      reads this
    {
      if keys.Some? then small == [] else Distinct(small) && |small| <= SMALL_OBJECT_KEYS
    }

    ghost function Seen(): set<Bytes>
      reads this
    {
      if keys.Some? then keys.value else Elements(small)
    }

    ghost function View(): Frame
      reads this
    {
      Frame(isObject, expectKey, Seen())
    }

    constructor (isObject: bool)
      ensures Valid() && View() == Frame(isObject, isObject, {})
    {
      this.isObject := isObject;
      expectKey, small, keys := isObject, [], None;
    }

    /** Whichever form holds the keys, the frame behaves as one set of them. */
    method AddKey(key: Bytes) returns (ok: bool)
      requires Valid()
      modifies this`small, this`keys
      ensures Valid()
      ensures ok <==> key !in old(Seen())
      ensures Seen() == old(Seen()) + {key}
    {
      if keys.Some? {
        ok := key !in keys.value;
        keys := Some(keys.value + {key});
        return;
      }
      if key in small {
        return false;
      }
      if |small| < SMALL_OBJECT_KEYS {
        DistinctAppend(small, key);
        small := small + [key];
        return true;
      }
      var drained: set<Bytes> := {};
      for i := 0 to |small|
        invariant drained == Elements(small[..i])
      {
        assert small[..i + 1] == small[..i] + [small[i]];
        drained := drained + {small[i]};
      }
      assert small[..|small|] == small;
      keys := Some(drained + {key});
      small := [];
      return true;
    }
  }

  function Ahead(n: nat, o: Option<nat>): Option<nat> {
    if o.Some? then Some(n + o.value) else None
  }

  /** What a scan of the body that begins at start knows on reaching j. */
  ghost predicate Scanned(raw: Bytes, start: nat, j: nat, escaped: bool)
    requires start <= j && start <= |raw|
  {
    if j > |raw| then BodyLength(raw[start..]).None?
    else
      && BodyLength(raw[start..]) == Ahead(j - start, BodyLength(raw[j..]))
      && (escaped <==> BACKSLASH in raw[start..j])
  }

  lemma BodyStep(raw: Bytes, j: nat)
    requires j < |raw| && raw[j] != QUOTE
    ensures var next := if raw[j] == BACKSLASH then j + 2 else j + 1;
            BodyLength(raw[j..]) == if next > |raw| then None else Ahead(next - j, BodyLength(raw[next..]))
  {
  }

  /** A backslash among the next bytes is the first of them. */
  lemma SliceHas(raw: Bytes, start: nat, j: nat, next: nat)
    requires start <= j < next && j < |raw| && (next == j + 1 || raw[j] == BACKSLASH)
    ensures next <= |raw| ==> (BACKSLASH in raw[start..next] <==> BACKSLASH in raw[start..j] || raw[j] == BACKSLASH)
  {
  }

  /** One byte, or one escape, further. */
  lemma ScannedStep(raw: Bytes, start: nat, j: nat, escaped: bool)
    requires start <= j < |raw| && Scanned(raw, start, j, escaped) && raw[j] != QUOTE
    ensures Scanned(raw, start, if raw[j] == BACKSLASH then j + 2 else j + 1, escaped || raw[j] == BACKSLASH)
  {
    BodyStep(raw, j);
    SliceHas(raw, start, j, if raw[j] == BACKSLASH then j + 2 else j + 1);
    hide BodyLength;
  }

  lemma BodyAtQuote(s: Bytes)
    requires s != [] && s[0] == QUOTE
    ensures BodyLength(s) == Some(0)
  {
  }

  lemma BodyAtEnd()
    ensures BodyLength([]) == None
  {
  }

  /** The index past the closing quote, and whether the body is its own text; false if it never closes. */
  method ScanStringEnd(raw: Bytes, i: nat) returns (ok: bool, end: nat, exact: bool)
    requires i < |raw| && raw[i] == QUOTE
    ensures ok == BodyLength(raw[i + 1..]).Some?
    ensures ok ==> end == i + 2 + BodyLength(raw[i + 1..]).value && end <= |raw| && exact == Exact(raw[i + 1..end - 1])
  {
    hide BodyLength, Valid;
    var escaped := false;
    var j := i + 1;
    while j < |raw|
      invariant i < j <= |raw| + 1 && Scanned(raw, i + 1, j, escaped)
    {
      if raw[j] == QUOTE {
        BodyAtQuote(raw[j..]);
        return true, j + 1, !escaped && Valid(raw[i + 1..j]);
      }
      ScannedStep(raw, i + 1, j, escaped);
      if raw[j] == BACKSLASH {
        escaped := true;
        j := j + 1;
      }
      j := j + 1;
    }
    BodyAtEnd();
    return false, 0, false;
  }

  /** encoding/json refuses a body that is not well-formed. */
  method DecodeStringSpan(raw: Bytes, i: nat, end: nat, exact: bool) returns (key: Option<Bytes>)
    requires i + 2 <= end <= |raw| && exact == Exact(raw[i + 1..end - 1])
    ensures key == KeyText(raw[i + 1..end - 1])
  {
    var body := raw[i + 1..end - 1];
    if exact {
      return Some(body);
    }
    return if BodyOk(body) then Some(Decode(body)) else None;
  }

  /** The frames, and what they stand for. */
  ghost predicate Stands(stack: seq<ScanFrame>, st: seq<Frame>)
    reads stack
  {
    && |stack| == |st| && Distinct(stack)
    && forall k :: 0 <= k < |stack| ==> stack[k].Valid() && stack[k].View() == st[k]
  }

  method Punctuate(c: Byte, stack: seq<ScanFrame>, ghost st: seq<Frame>)
    requires Stands(stack, st) && (c == COMMA || c == COLON)
    modifies stack
    ensures Stands(stack, Separate(c, st))
  {
    if stack != [] {
      var top := stack[|stack| - 1];
      if c == COLON || top.isObject {
        top.expectKey := c == COMMA;
      }
    }
  }

  /** A string: stepped over, and decoded only where a key is expected. */
  method TakeString(raw: Bytes, i: nat, stack: seq<ScanFrame>, ghost st: seq<Frame>) returns (v: Verdict, end: nat)
    requires Stands(stack, st) && i < |raw| && raw[i] == QUOTE
    modifies stack
    ensures var n := BodyLength(raw[i + 1..]);
            if n.None? then v == NotObject
            else
              && end == i + 2 + n.value <= |raw|
              && var k := ReadString(raw[i + 1..end - 1], st);
                 v == k.verdict && (v.Clear? ==> Stands(stack, k.stack))
  {
    hide BodyLength, Exact, KeyText;
    var ok, exact;
    ok, end, exact := ScanStringEnd(raw, i);
    if !ok {
      return NotObject, end;
    }
    assert |st| == |stack|;
    if stack != [] && stack[|stack| - 1].isObject && stack[|stack| - 1].expectKey {
      var top := stack[|stack| - 1];
      var key := DecodeStringSpan(raw, i, end, exact);
      if key.None? {
        return NotObject, end;
      }
      var added := top.AddKey(key.value);
      return if added then Clear else Ambiguous(key.value), end;
    }
    return Clear, end;
  }

  method SkipPlain(raw: Bytes, i: nat) returns (j: nat)
    requires i < |raw| && !IsStructural(raw[i])
    ensures i < j <= |raw| && j == i + PlainLength(raw[i..])
  {
    j := i;
    while j < |raw| && !IsStructural(raw[j])
      invariant i <= j <= |raw|
      invariant PlainLength(raw[i..]) == j - i + PlainLength(raw[j..])
    {
      assert raw[j..][1..] == raw[j + 1..];
      j := j + 1;
    }
  }

  /** Run at index i, in terms of the indices after it. */
  lemma RunAt(raw: Bytes, i: nat, st: seq<Frame>)
    requires i < |raw|
    ensures var c := raw[i]; var r := Run(raw[i..], st);
            if IsSpace(c) then r == Run(raw[i + 1..], st)
            else if c == OPEN_OBJECT || c == OPEN_ARRAY then
              r == if |st| >= MAX_PARAMS_DEPTH then TooDeep
                   else Run(raw[i + 1..], st + [Frame(c == OPEN_OBJECT, c == OPEN_OBJECT, {})])
            else if c == CLOSE_OBJECT || c == CLOSE_ARRAY then
              r == if st == [] then NotObject else Run(raw[i + 1..], st[..|st| - 1])
            else if c == COMMA || c == COLON then r == Run(raw[i + 1..], Separate(c, st))
            else if c == QUOTE then
              var n := BodyLength(raw[i + 1..]);
              if n.None? then r == NotObject
              else
                var k := ReadString(raw[i + 1..i + 1 + n.value], st);
                r == if k.verdict.Clear? then Run(raw[i + 2 + n.value..], k.stack) else k.verdict
            else r == Run(raw[i + PlainLength(raw[i..])..], st)
  {
    hide BodyLength, PlainLength, ReadString, Separate;
    var s := raw[i..];
    assert s[1..] == raw[i + 1..];
    if raw[i] == QUOTE {
      var n := BodyLength(raw[i + 1..]);
      if n.Some? {
        assert s[1..1 + n.value] == raw[i + 1..i + 1 + n.value] && s[n.value + 2..] == raw[i + 2 + n.value..];
      }
    } else {
      assert s[PlainLength(s)..] == raw[i + PlainLength(s)..];
    }
  }

  lemma RunAtEnd(st: seq<Frame>)
    ensures Run([], st) == if st == [] then Clear else NotObject
  {
  }

  method ScanUnambiguous(raw: Bytes) returns (v: Verdict)
    ensures v == Run(raw, [])
  {
    hide Run, BodyLength, PlainLength, ReadString, Separate, ScanFrame.View, ScanFrame.Valid;
    var stack: seq<ScanFrame> := [];
    ghost var st: seq<Frame> := [];
    var i := 0;
    assert raw[0..] == raw;
    while i < |raw|
      invariant i <= |raw|
      invariant Stands(stack, st) && forall k :: 0 <= k < |stack| ==> fresh(stack[k])
      invariant Run(raw, []) == Run(raw[i..], st)
      decreases |raw| - i
    {
      RunAt(raw, i, st);
      var c := raw[i];
      if IsSpace(c) {
        i := i + 1;
      } else if c == OPEN_OBJECT || c == OPEN_ARRAY {
        if |stack| >= MAX_PARAMS_DEPTH {
          return TooDeep;
        }
        var f := new ScanFrame(c == OPEN_OBJECT);
        stack, st := stack + [f], st + [f.View()];
        i := i + 1;
      } else if c == CLOSE_OBJECT || c == CLOSE_ARRAY {
        if stack == [] {
          return NotObject;
        }
        stack, st := stack[..|stack| - 1], st[..|st| - 1];
        i := i + 1;
      } else if c == COMMA || c == COLON {
        Punctuate(c, stack, st);
        st := Separate(c, st);
        i := i + 1;
      } else if c == QUOTE {
        var r, end := TakeString(raw, i, stack, st);
        if !r.Clear? {
          return r;
        }
        st := ReadString(raw[i + 1..end - 1], st).stack;
        i := end;
      } else {
        i := SkipPlain(raw, i);
      }
    }
    RunAtEnd(st);
    assert raw[i..] == [];
    return if stack == [] then Clear else NotObject;
  }
}
