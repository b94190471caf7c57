/** The server's stream writer and the client's reading loop as wire's objects, and the stream end to end. */
module Wire {
  import opened Common
  import E = ErrFrame
  import S = StreamModel
  import A = StreamAnswers

  /**
  One stream's writer; out is what has been published. The sections below may interleave with those of
  other goroutines, which is what StreamModel is about; each is one section here.
  */
  class StreamWriter {
    const limits: S.Limits
    var done: bool
    var out: seq<S.Frame>

    constructor (limits: S.Limits)
      ensures !done && out == [] && this.limits == limits
    {
      this.limits := limits;
      done, out := false, [];
    }

    method Claim() returns (won: bool)
      modifies this`done
      ensures won == !old(done) && done
    {
      if done {
        return false;
      }
      done := true;
      return true;
    }

    method Msg(body: S.Bytes) returns (ok: bool)
      modifies this`out
      ensures ok <==> !done && S.Sized(limits, S.Msg(body))
      ensures out == if ok then old(out) + [S.Msg(body)] else old(out)
    {
      if done || |body| + S.MSG_OVERHEAD > limits.maxPayload {
        return false;
      }
      out := out + [S.Msg(body)];
      return true;
    }

    method KeepAlive() returns (live: bool)
      modifies this`out
      ensures live == !done
      ensures out == if live then old(out) + [S.KeepAlive] else old(out)
    {
      if done {
        return false;
      }
      out := out + [S.KeepAlive];
      return true;
    }

    /** parked is what the claim store answered, if it was asked; discarded is the claim to delete. */
    method End(body: S.Bytes, parked: Option<S.ClaimId>) returns (discarded: Option<S.ClaimId>)
      modifies this
      ensures done && |out| <= |old(out)| + 1 && old(out) <= out
      ensures old(done) ==> out == old(out)
      ensures var fits := |body| + S.END_OVERHEAD <= limits.maxPayload; var parkable := limits.parks && |body| <= 67_108_864;
              && (!old(done) ==> out == old(out) + [
                    if fits then S.End(body)
                    else if parkable && parked.Some? then S.Parked(parked.value)
                    else S.ErrOf(limits, S.TooLarge(limits, body))])
              && discarded == if old(done) && !fits && parkable then parked else None
    {
      if |body| + S.END_OVERHEAD > limits.maxPayload {
        if limits.parks && |body| <= S.CLAIM_MAX_BODY && parked.Some? {
          var won := Claim();
          if !won {
            return parked;
          }
          out := out + [S.Parked(parked.value)];
          return None;
        }
        var report := S.TooLarge(limits, body);
        Err(report.code, report.message, report.data, true);
        return None;
      }
      var won := Claim();
      if won {
        out := out + [S.End(body)];
      }
      return None;
    }

    method Err(code: int, message: string, data: Option<string>, encodable: bool)
      modifies this
      ensures done && out == if old(done) then old(out)
                             else old(out) + [S.ErrOf(limits, E.Report(limits.id, code, message, data, encodable))]
    {
      ErrWithID(limits.id, code, message, data, encodable);
    }

    /** errWithID: one terminal at most, and one that describes, fits as far as it can, and has this id. */
    method ErrWithID(id: string, code: int, message: string, data: Option<string>, encodable: bool)
      modifies this
      ensures done && out == if old(done) then old(out)
                             else old(out) + [S.ErrOf(limits, E.Report(id, code, message, data, encodable))]
    {
      var won := Claim();
      if !won {
        return;
      }
      var r := E.Report(id, code, message, data, encodable);
      if r.message == "" {
        r := r.(message := E.NO_DESCRIPTION);
      }
      var body := E.CANNED;
      if encodable {
        body := E.Body(limits.codec, r.id, E.CodeText(r.code), r.message, r.data);
      } else {
        r := E.Report("null", E.INTERNAL_ERROR, E.ENCODING_FAILED, None, true);
      }
      var frame := FitErrFrame(r, body);
      out := out + [S.Frame.Err(E.Answer(r.code, frame.message, frame.body))];
    }

    /** fitErrFrame (server.go:913-940). */
    method FitErrFrame(r: E.Report, body: string) returns (f: E.Frame)
      ensures f == E.Fit(limits.codec, r.id, E.CodeText(r.code), r.message, r.data, body, limits.maxPayload)
    {
      var code := E.CodeText(r.code);
      if E.Fits(limits.codec, code, body, r.message, limits.maxPayload) {
        return E.Frame(body, r.message);
      }
      if r.data.Some? {
        var noted := E.Noted(r.message);
        var lean := E.Body(limits.codec, r.id, code, noted, None);
        if E.Fits(limits.codec, code, lean, noted, limits.maxPayload) {
          return E.Frame(lean, noted);
        }
      }
      var shed := E.Shed(|body|, limits.maxPayload);
      return E.Frame(E.Body(limits.codec, r.id, code, shed, None), shed);
    }
  }

  // ---- The client's registry of subjects whose refusal fails a stream ----

  class Violations {
    var viol: map<string, set<int>>

    constructor ()
      ensures Valid() && forall s :: Regs(s) == {}
    {
      viol := map[];
    }

    ghost predicate Valid()
      reads this
    {
      forall s :: s in viol ==> viol[s] != {}
    }

    function Regs(subject: string): set<int>
      reads this
    {
      if subject in viol then viol[subject] else {}
    }

    method Register(reg: int, watched: seq<string>)
      requires Valid()
      modifies this
      ensures Valid() && forall s :: Regs(s) == old(Regs(s)) + if s in watched then {reg} else {}
    {
      for i := 0 to |watched|
        invariant Valid() && forall s :: Regs(s) == old(Regs(s)) + if s in watched[..i] then {reg} else {}
      {
        viol := viol[watched[i] := Regs(watched[i]) + {reg}];
      }
    }

    /** No registration of reg on a watched subject is left, nor an entry without registrations. */
    method Unregister(reg: int, watched: seq<string>)
      requires Valid()
      modifies this
      ensures Valid() && forall s :: Regs(s) == old(Regs(s)) - if s in watched then {reg} else {}
    {
      for i := 0 to |watched|
        invariant Valid() && forall s :: Regs(s) == old(Regs(s)) - if s in watched[..i] then {reg} else {}
      {
        var s := watched[i];
        if s in viol {
          var left := viol[s] - {reg};
          viol := if left == {} then viol - {s} else viol[s := left];
        }
      }
    }

    /** The streams to cancel with the refusal: exactly those that depend on the subject. */
    method Fail(subject: string) returns (regs: set<int>)
      requires Valid()
      modifies this
      ensures Valid() && regs == old(Regs(subject)) && forall s :: Regs(s) == if s == subject then {} else old(Regs(s))
    {
      regs := Regs(subject);
      viol := viol - {subject};
    }
  }

  // ---- The client's pump ----

  datatype Failure = StreamLost | NoGateway | Denied

  /** What the consumer reads from the channel. */
  datatype Item = Body(body: S.Bytes) | Final(body: S.Bytes) | Failed(why: Failure)

  predicate Closing(i: Item) { !i.Body? }

  /** The stream's context: ended by its caller, or by a permission violation, whichever came first. */
  datatype Context = Live | Abandoned | Refused

  /** What waiting for the next reply comes back with; a claimed body is fetched or not. */
  datatype Next =
    | Got(frame: S.Frame, fetched: Option<S.Bytes>)
    | Unknown
    | Inactive
    | NoResponders
    | Broken
    | Cancelled

  /**
  One turn of the loop: ctx is the context by the time its offer, if it makes one, is settled. Where a
  reader and an ended context are both ready picks says which the select took; where the violation
  itself is offered it says whether a reader came within the three seconds.
  */
  datatype Turn = Turn(next: Next, ctx: Context, picks: bool)

  /** What one turn offers the consumer, if anything. */
  function Offers(claims: bool, t: Turn): Option<Item> {
    match t.next
    case Got(f, fetched) =>
      (match f
       case KeepAlive => None
       case Msg(body) => Some(Body(body))
       case End(body) => Some(Final(body))
       case Err(answer) => Some(Final(answer.body))
       case Parked(_) => Some(if claims && fetched.Some? then Final(fetched.value) else Failed(StreamLost)))
    case Unknown => Some(Failed(StreamLost))
    case Inactive => Some(Failed(StreamLost))
    case NoResponders => Some(Failed(NoGateway))
    case Broken => Some(Failed(StreamLost))
    case Cancelled => if t.ctx.Refused? then Some(Failed(Denied)) else None
  }

  /** The consumer receives the offer: a live context leaves it no other way out. */
  predicate Taken(t: Turn) { t.picks || (t.ctx.Live? && !t.next.Cancelled?) }

  predicate Ends(claims: bool, t: Turn) {
    || t.next.Cancelled?
    || (Offers(claims, t).Some? && (!Taken(t) || Closing(Offers(claims, t).value)))
  }

  function Sent(claims: bool, t: Turn): seq<Item> {
    if Offers(claims, t).Some? && Taken(t) then [Offers(claims, t).value] else []
  }

  /** Everything the consumer reads. */
  function Pumped(claims: bool, turns: seq<Turn>): seq<Item> {
    if turns == [] then []
    else
      var t := turns[0];
      if Ends(claims, t) then Sent(claims, t) else Sent(claims, t) + Pumped(claims, turns[1..])
  }

  lemma PumpedStep(claims: bool, t: Turn, rest: seq<Turn>)
    ensures Pumped(claims, [t] + rest) == if Ends(claims, t) then Sent(claims, t) else Sent(claims, t) + Pumped(claims, rest)
  {
  }

  lemma Append<T>(a: seq<T>, b: seq<T>, c: seq<T>)
    ensures a + (b + c) == a + b + c
  {
  }

  /** pump (client.go:366-452). */
  method Pump(claims: bool, turns: seq<Turn>) returns (read: seq<Item>, closed: bool)
    ensures read == Pumped(claims, turns)
    ensures closed <==> exists i :: 0 <= i < |turns| && Ends(claims, turns[i])
  {
    read := [];
    assert turns[0..] == turns;
    for i := 0 to |turns|
      invariant Pumped(claims, turns) == read + Pumped(claims, turns[i..])
      invariant forall k :: 0 <= k < i ==> !Ends(claims, turns[k])
    {
      assert turns[i..] == [turns[i]] + turns[i + 1..];
      PumpedStep(claims, turns[i], turns[i + 1..]);
      Append(read, Sent(claims, turns[i]), Pumped(claims, turns[i + 1..]));
      var item, last := TakeTurn(claims, turns[i]);
      hide Pumped, Ends, Sent;
      read := read + item;
      if last {
        return read, true;
      }
    }
    return read, false;
  }

  /** deliver: the send or the end of the context, whichever is ready. */
  method Deliver(item: Item, ctx: Context, picks: bool) returns (read: seq<Item>, ok: bool)
    ensures ok == (picks || ctx.Live?) && read == if ok then [item] else []
  {
    if ctx.Live? {
      return [item], true;
    }
    return if picks then [item] else [], picks;
  }

  /** One turn of the loop: what it delivered, and whether the loop ends. */
  method TakeTurn(claims: bool, t: Turn) returns (read: seq<Item>, last: bool)
    ensures read == Sent(claims, t) && last == Ends(claims, t)
  {
    var ok;
    match t.next {
      case Cancelled => return if t.ctx.Refused? && t.picks then [Failed(Denied)] else [], true;
      case Got(frame, fetched) =>
        if frame.KeepAlive? {
          return [], false;
        }
        if frame.Msg? {
          read, ok := Deliver(Body(frame.body), t.ctx, t.picks);
          return read, !ok;
        }
        var item := Final(if frame.End? then frame.body else if frame.Err? then frame.answer.body else "");
        if frame.Parked? {
          item := if claims && fetched.Some? then Final(fetched.value) else Failed(StreamLost);
        }
        read, ok := Deliver(item, t.ctx, t.picks);
      case NoResponders => read, ok := Deliver(Failed(NoGateway), t.ctx, t.picks);
      case _ => read, ok := Deliver(Failed(StreamLost), t.ctx, t.picks);
    }
    return read, true;
  }

  /** The loop ends having handed its consumer a terminal. */
  predicate EndsWell(claims: bool, t: Turn) { Ends(claims, t) && Taken(t) && Offers(claims, t).Some? }

  /** The first turn that ends the loop, or none. */
  function LastTurn(claims: bool, turns: seq<Turn>): (n: nat)
    ensures n <= |turns| && (n < |turns| ==> Ends(claims, turns[n]))
    ensures forall i :: 0 <= i < n ==> !Ends(claims, turns[i])
  {
    if turns == [] || Ends(claims, turns[0]) then 0 else 1 + LastTurn(claims, turns[1..])
  }

  function Bodies(turns: seq<Turn>): seq<Item> {
    if turns == [] then []
    else BodyOf(turns[0]) + Bodies(turns[1..])
  }

  function BodyOf(t: Turn): seq<Item> {
    if t.next.Got? && t.next.frame.Msg? then [Body(t.next.frame.body)] else []
  }

  /**
  The consumer reads the notification bodies in order and then one terminal, if the turn that ends the
  loop could hand one over; if it could not - the stream was abandoned, or its context ended for any
  reason while an item was on offer - then none.
  */
  lemma {:induction false} PumpShape(claims: bool, turns: seq<Turn>)
    ensures var n := LastTurn(claims, turns);
            Pumped(claims, turns) == Bodies(turns[..n]) +
              if n < |turns| && EndsWell(claims, turns[n]) then [Offers(claims, turns[n]).value] else []
    ensures var n := LastTurn(claims, turns);
            n < |turns| && EndsWell(claims, turns[n]) ==> Closing(Offers(claims, turns[n]).value)
    decreases |turns|
  {
    var n := LastTurn(claims, turns);
    if turns == [] {
    } else if Ends(claims, turns[0]) {
      assert turns[..n] == [];
    } else {
      PumpShape(claims, turns[1..]);
      assert LastTurn(claims, turns[1..]) == n - 1;
      assert turns[..n][1..] == turns[1..][..n - 1];
      assert Sent(claims, turns[0]) == BodyOf(turns[0]);
      assert Pumped(claims, turns) == BodyOf(turns[0]) + Pumped(claims, turns[1..]);
      hide LastTurn, Ends, EndsWell, Offers, Pumped;
      Append(BodyOf(turns[0]), Bodies(turns[1..][..n - 1]),
             if n < |turns| && EndsWell(claims, turns[n]) then [Offers(claims, turns[n]).value] else []);
    }
  }

  // ---- A consumer that keeps reading ----

  /** An ended context stays as it ended; only an ended one cancels the wait, and it hides every other error. */
  predicate Proper(turns: seq<Turn>) {
    && (forall i :: 0 <= i < |turns| && turns[i].next.Cancelled? ==> !turns[i].ctx.Live?)
    && (forall i :: 0 < i < |turns| && !turns[i - 1].ctx.Live? ==> Follows(turns[i - 1], turns[i]))
  }

  predicate Follows(ended: Turn, t: Turn) {
    t.ctx == ended.ctx && !t.next.Inactive? && !t.next.NoResponders? && !t.next.Broken?
  }

  /** It never abandons its stream, and it is there for a violation that is offered to it. */
  predicate KeepsReading(turns: seq<Turn>) {
    forall i :: 0 <= i < |turns| ==> !turns[i].ctx.Abandoned? && (turns[i].next.Cancelled? ==> turns[i].picks)
  }

  /** The same turns, but for what the selects between a ready reader and an ended context took. */
  predicate Alike(turns: seq<Turn>, alt: seq<Turn>) {
    && |alt| == |turns| && KeepsReading(alt)
    && (forall i :: 0 <= i < |turns| ==> alt[i] == turns[i].(picks := alt[i].picks))
  }

  /** A violation ends the context while an item is on offer. */
  predicate Overlaps(claims: bool, t: Turn) { t.ctx.Refused? && !t.next.Cancelled? && Offers(claims, t).Some? }

  /** One terminal, and it comes last. */
  predicate OneTerminal(read: seq<Item>) {
    read != [] && Closing(read[|read| - 1]) && forall i :: 0 <= i < |read| - 1 ==> !Closing(read[i])
  }

  lemma {:induction false} BodiesDoNotClose(turns: seq<Turn>)
    ensures forall i :: 0 <= i < |Bodies(turns)| ==> !Closing(Bodies(turns)[i])
  {
    if turns != [] {
      BodiesDoNotClose(turns[1..]);
    }
  }

  /** Which picks were made matters only at an overlap. */
  lemma {:induction false} SameLastTurn(claims: bool, turns: seq<Turn>, alt: seq<Turn>)
    requires Alike(turns, alt) && KeepsReading(turns)
    requires forall i :: 0 <= i <= LastTurn(claims, turns) < |turns| ==> !Overlaps(claims, turns[i])
    requires LastTurn(claims, turns) < |turns|
    ensures LastTurn(claims, alt) == LastTurn(claims, turns)
    decreases |turns|
  {
    assert turns[0].ctx.Live? || turns[0].next.Cancelled? || Offers(claims, turns[0]).None? by {
      assert !Overlaps(claims, turns[0]);
    }
    assert alt[0] == turns[0].(picks := alt[0].picks);
    if !Ends(claims, turns[0]) {
      forall i | 0 <= i <= LastTurn(claims, turns[1..])
        ensures !Overlaps(claims, turns[1..][i])
      {
        assert turns[1..][i] == turns[i + 1];
      }
      SameLastTurn(claims, turns[1..], alt[1..]);
    }
  }

  /**
  A stream whose loop ends hands a consumer that keeps reading exactly one terminal, however the selects
  fall, if and only if no violation ends the context while an item is on offer.
  */
  lemma TerminalUnlessOverlap(claims: bool, turns: seq<Turn>)
    requires Proper(turns) && KeepsReading(turns) && LastTurn(claims, turns) < |turns|
    ensures (forall alt :: Alike(turns, alt) ==> OneTerminal(Pumped(claims, alt))) <==>
            (forall i :: 0 <= i <= LastTurn(claims, turns) ==> !Overlaps(claims, turns[i]))
  {
    hide Pumped, Bodies, Offers;
    var n := LastTurn(claims, turns);
    if forall i :: 0 <= i <= n ==> !Overlaps(claims, turns[i]) {
      forall alt | Alike(turns, alt)
        ensures OneTerminal(Pumped(claims, alt))
      {
        SameLastTurn(claims, turns, alt);
        EndsWithTerminal(claims, turns, alt);
      }
    } else {
      var i :| 0 <= i <= n && Overlaps(claims, turns[i]);
      var alt := seq(|turns|, k requires 0 <= k < |turns| => turns[k].(picks := turns[k].next.Cancelled?));
      LostAtOverlap(claims, turns, alt);
      assert Alike(turns, alt);
    }
  }

  lemma EndsWithTerminal(claims: bool, turns: seq<Turn>, alt: seq<Turn>)
    requires Proper(turns) && Alike(turns, alt) && LastTurn(claims, alt) == LastTurn(claims, turns) < |turns|
    requires !Overlaps(claims, turns[LastTurn(claims, turns)])
    ensures OneTerminal(Pumped(claims, alt))
  {
    hide Pumped, Bodies;
    var n := LastTurn(claims, alt);
    PumpShape(claims, alt);
    BodiesDoNotClose(alt[..n]);
    assert alt[n] == turns[n].(picks := alt[n].picks);
  }

  /** If the selects never take the reader, the first overlap ends the loop without a terminal. */
  lemma {:induction false} LostAtOverlap(claims: bool, turns: seq<Turn>, alt: seq<Turn>)
    requires Alike(turns, alt) && KeepsReading(turns)
    requires forall k :: 0 <= k < |alt| ==> alt[k].picks == alt[k].next.Cancelled?
    requires exists i :: 0 <= i <= LastTurn(claims, turns) < |turns| && Overlaps(claims, turns[i])
    ensures !OneTerminal(Pumped(claims, alt))
    decreases |turns|
  {
    assert alt[0] == turns[0].(picks := alt[0].picks);
    if Overlaps(claims, turns[0]) {
      assert Pumped(claims, alt) == [];
    } else {
      var i :| 0 <= i <= LastTurn(claims, turns) < |turns| && Overlaps(claims, turns[i]);
      assert !Ends(claims, turns[0]);
      assert turns[1..][i - 1] == turns[i];
      LostAtOverlap(claims, turns[1..], alt[1..]);
      PrependBody(Sent(claims, alt[0]), Pumped(claims, alt[1..]));
    }
  }

  lemma PrependBody(body: seq<Item>, read: seq<Item>)
    requires !OneTerminal(read) && |body| <= 1 && (body != [] ==> !Closing(body[0]))
    ensures !OneTerminal(body + read)
  {
    if OneTerminal(body + read) {
      assert read != [];
      forall i | 0 <= i < |read|
        ensures (body + read)[|body| + i] == read[i]
      {
      }
    }
  }

  /**
  The run in which it happens: a violation lands while a notification is on offer, and the consumer, who
  never abandoned the stream, reads no terminal at all. Had the select taken the reader, the violation
  would have been reported.
  */
  lemma ViolationDuringDelivery(body: S.Bytes)
    ensures var t := Turn(Got(S.Msg(body), None), Refused, false); var after := Turn(Cancelled, Refused, true);
            && Proper([t, after]) && KeepsReading([t, after]) && Overlaps(true, t)
            && Pumped(true, [t, after]) == []
            && Pumped(true, [t.(picks := true), after]) == [Body(body), Failed(Denied)]
  {
    var after := Turn(Cancelled, Refused, true);
    assert [Turn(Got(S.Msg(body), None), Refused, true), after][1..] == [after];
  }

  // ---- End to end ----

  /** The turns of a consumer that keeps reading, for frames that arrive in order and whose claims can be fetched. */
  function Turns(frames: seq<S.Frame>, store: map<S.ClaimId, S.Bytes>): seq<Turn> {
    if frames == [] then []
    else [TurnOf(frames[0], store)] + Turns(frames[1..], store)
  }

  function MsgBodies(frames: seq<S.Frame>): seq<Item> {
    if frames == [] then []
    else MsgBody(frames[0]) + MsgBodies(frames[1..])
  }

  function MsgBody(f: S.Frame): seq<Item> { if f.Msg? then [Body(f.body)] else [] }

  function FinalOf(f: S.Frame, store: map<S.ClaimId, S.Bytes>): Item
    requires S.Terminal(f)
  {
    match f
    case Parked(c) => if c in store then Final(store[c]) else Failed(StreamLost)
    case Err(answer) => Final(answer.body)
    case _ => Final(f.body)
  }

  /** What follows the notifications: the terminal the frames end with, or what next brings. */
  function Rest(claims: bool, frames: seq<S.Frame>, store: map<S.ClaimId, S.Bytes>, next: seq<Turn>): seq<Item> {
    if frames != [] && S.Terminal(frames[|frames| - 1]) then [FinalOf(frames[|frames| - 1], store)]
    else Pumped(claims, next)
  }

  lemma {:induction false} ReadThrough(claims: bool, frames: seq<S.Frame>, store: map<S.ClaimId, S.Bytes>, next: seq<Turn>)
    requires forall i :: 0 <= i < |frames| && S.Terminal(frames[i]) ==> i == |frames| - 1
    requires forall i :: 0 <= i < |frames| && frames[i].Parked? ==> claims
    ensures Pumped(claims, Turns(frames, store) + next) == MsgBodies(frames) + Rest(claims, frames, store, next)
    decreases |frames|
  {
    hide Pumped;
    if frames == [] {
      assert Turns(frames, store) + next == next;
    } else if S.Terminal(frames[0]) {
      assert frames == [frames[0]];
      ReadLast(claims, frames[0], store, next);
    } else {
      assert forall i :: 0 <= i < |frames[1..]| ==> frames[1..][i] == frames[i + 1];
      ReadThrough(claims, frames[1..], store, next);
      ReadMore(claims, frames, store, next);
    }
  }

  lemma ReadLast(claims: bool, f: S.Frame, store: map<S.ClaimId, S.Bytes>, next: seq<Turn>)
    requires S.Terminal(f) && (f.Parked? ==> claims)
    ensures Pumped(claims, Turns([f], store) + next) == MsgBodies([f]) + Rest(claims, [f], store, next)
  {
    hide Pumped;
    PumpedStep(claims, TurnOf(f, store), next);
    ReadFrame(claims, f, store);
    assert Turns([f], store) == [TurnOf(f, store)];
    assert [f][1..] == [];
    hide Sent, Ends, TurnOf;
  }

  lemma ReadMore(claims: bool, frames: seq<S.Frame>, store: map<S.ClaimId, S.Bytes>, next: seq<Turn>)
    requires frames != [] && !S.Terminal(frames[0])
    requires Pumped(claims, Turns(frames[1..], store) + next) == MsgBodies(frames[1..]) + Rest(claims, frames[1..], store, next)
    ensures Pumped(claims, Turns(frames, store) + next) == MsgBodies(frames) + Rest(claims, frames, store, next)
  {
    hide Pumped;
    var t, rest := TurnOf(frames[0], store), Turns(frames[1..], store) + next;
    assert Turns(frames, store) + next == [t] + rest;
    PumpedStep(claims, t, rest);
    ReadFrame(claims, frames[0], store);
    assert Rest(claims, frames[1..], store, next) == Rest(claims, frames, store, next) by {
      assert |frames| > 1 ==> frames[1..][|frames| - 2] == frames[|frames| - 1];
    }
    hide Rest, Sent, Ends, TurnOf, S.Terminal;
    Append(MsgBody(frames[0]), MsgBodies(frames[1..]), Rest(claims, frames, store, next));
  }

  function TurnOf(f: S.Frame, store: map<S.ClaimId, S.Bytes>): Turn {
    Turn(Got(f, if f.Parked? && f.claim in store then Some(store[f.claim]) else None), Live, false)
  }

  lemma ReadFrame(claims: bool, f: S.Frame, store: map<S.ClaimId, S.Bytes>)
    requires f.Parked? ==> claims
    ensures Ends(claims, TurnOf(f, store)) <==> S.Terminal(f)
    ensures Sent(claims, TurnOf(f, store)) == if S.Terminal(f) then [FinalOf(f, store)] else MsgBody(f)
  {
  }

  /**
  Whatever the gateway's goroutines did to a stream, a consumer that keeps reading gets its notification
  bodies in order and then exactly one terminal: the stream's own, or the loss that silence is read as. A
  gateway parks bodies only for a client that accepts claims, so no client is sent what it cannot read.
  */
  lemma EndToEnd(l: S.Limits, acts: seq<S.Action>, claims: bool, store: map<S.ClaimId, S.Bytes>)
    requires S.Run(l, acts).Some? && (l.parks ==> claims)
    ensures var s := S.Run(l, acts).value;
            Pumped(claims, Turns(s.frames, store) + [Turn(Inactive, Live, false)]) == MsgBodies(s.frames) +
              [if S.Ended(s) then FinalOf(s.frames[|s.frames| - 1], store) else Failed(StreamLost)]
  {
    S.StreamShape(l, acts);
    if !l.parks {
      A.ParkedOnlyIfAccepted(l, acts);
    }
    var s := S.Run(l, acts).value;
    hide S.Run;
    ReadThrough(claims, s.frames, store, [Turn(Inactive, Live, false)]);
  }

  // ---- What each way of ending is reported as ----

  /** A turn that ends the loop without a frame is reported as what it was. */
  lemma EndingsReported(claims: bool, next: Next)
    requires next.Unknown? || next.Inactive? || next.NoResponders? || next.Broken?
    ensures Pumped(claims, [Turn(next, Live, false)]) == [Failed(if next == NoResponders then NoGateway else StreamLost)]
  {
  }

  /** A parked body is read if the client accepts claims and can fetch it, and reported lost otherwise. */
  lemma ParkedRead(claims: bool, c: S.ClaimId, fetched: Option<S.Bytes>)
    ensures Pumped(claims, [Turn(Got(S.Parked(c), fetched), Live, false)])
      == [if claims && fetched.Some? then Final(fetched.value) else Failed(StreamLost)]
  {
  }
}
