/** The multiplexer as the object of mux.go: its two maps, its counter, and the calls they name. */
module Mux {
  import opened Common
  import opened MuxModel

  class PendingCall {
    const origId: Id
    const origToken: Option<Id>
    const listens: bool
    var resp: Option<Reply>
    var heard: seq<Heard>

    constructor (origId: Id, origToken: Option<Id>, listens: bool)
      ensures this.origId == origId && this.origToken == origToken && this.listens == listens && resp == None && heard == []
    {
      this.origId, this.origToken, this.listens := origId, origToken, listens;
      resp, heard := None, [];
    }

    /** The response channel holds one; a duplicate is dropped. */
    method Deliver(msg: Reply)
      modifies this`resp
      ensures resp == if old(resp).None? then Some(msg) else old(resp)
    {
      if resp.None? {
        resp := Some(msg);
      }
    }

    /** The last look of a call that was cancelled or lost its connection. */
    method Collect(why: Why) returns (out: Outcome)
      modifies this`resp
      ensures out == if old(resp).Some? then Answered(origId, old(resp).value) else Failed(why)
      ensures resp == None
    {
      if resp.Some? {
        out := Answered(origId, resp.value);
        resp := None;
        return;
      }
      return Failed(why);
    }
  }

  class Multiplexer {
    var seqNo: nat
    var calls: map<Id, PendingCall>
    var tokens: map<Id, PendingCall>
    var dead: bool

    constructor ()
      ensures seqNo == 0 && calls == map[] && tokens == map[] && !dead
    {
      seqNo, calls, tokens, dead := 0, map[], map[], false;
    }

    /** Call up to its write: a new number, and a registration unless the connection is dead. */
    method Register(id: Id, token: Option<Id>, listens: bool) returns (n: CallNo, c: PendingCall)
      modifies this`seqNo, this`calls, this`tokens
      ensures fresh(c) && c.origId == id && c.origToken == token && c.listens == listens && c.resp == None
      ensures n == seqNo == old(seqNo) + 1
      ensures calls == if dead then old(calls) else old(calls)[MuxId(n) := c]
      ensures tokens == if dead || token.None? then old(tokens) else old(tokens)[MuxToken(n) := c]
    {
      seqNo := seqNo + 1;
      n := seqNo;
      c := new PendingCall(id, token, listens);
      if dead {
        return;
      }
      calls := calls[MuxId(n) := c];
      if token.Some? {
        tokens := tokens[MuxToken(n) := c];
      }
    }

    method Unregister(n: CallNo)
      modifies this`calls, this`tokens
      ensures calls == old(calls) - {MuxId(n)} && tokens == old(tokens) - {MuxToken(n)}
    {
      calls := calls - {MuxId(n)};
      tokens := tokens - {MuxToken(n)};
    }

    /** A response reaches the call registered under its id, and no other; a closure names that call's own id. */
    method RouteResponse(msg: Response)
      modifies calls.Values`resp
      ensures msg.id in calls ==>
        var c := calls[msg.id];
        c.resp == if old(c.resp).None? then Some(Restored(c.origId, c.listens, msg)) else old(c.resp)
      ensures forall c :: c in calls.Values && !(msg.id in calls && calls[msg.id] == c) ==> c.resp == old(c.resp)
    {
      if msg.id in calls {
        var c := calls[msg.id];
        assert c in calls.Values;
        var subscription := msg.subscription;
        if c.listens {
          if subscription.Some? {
            subscription := Some(c.origId);
          }
        }
        c.Deliver(Reply(subscription, msg));
      }
    }

    /** Progress goes by token and events by subscription id; the caller's own is put back. */
    method RouteNotification(note: Note) returns (to: Option<PendingCall>)
      modifies calls.Values`heard, tokens.Values`heard
      ensures to == match note
                    case Progress(t, _) => if t in tokens then Some(tokens[t]) else None
                    case Event(id, _) => if id in calls then Some(calls[id]) else None
      ensures to.Some? ==>
        to.value.heard == old(if to.Some? then to.value.heard else []) +
          [Heard(if note.Progress? then to.value.origToken else Some(to.value.origId), note)]
      ensures forall c :: c in calls.Values + tokens.Values && to != Some(c) ==> c.heard == old(c.heard)
    {
      match note {
        case Progress(t, _) => to := if t in tokens then Some(tokens[t]) else None;
        case Event(id, _) => to := if id in calls then Some(calls[id]) else None;
      }
      if to.Some? {
        var c := to.value;
        c.heard := c.heard + [Heard(if note.Progress? then c.origToken else Some(c.origId), note)];
      }
    }
  }
}
