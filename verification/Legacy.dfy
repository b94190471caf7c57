/** The bridge's connection as the object of compat.go: one method for each section that holds its mutex, and the fan-out loop. */
module Legacy {
  import opened Common
  import opened L = LegacyModel

  class Conn {
    var synth: seq<Message>
    var queued: seq<Message>
    var listeners: map<StreamId, ListenFilter>
    var pending: map<StreamId, string>
    var closed: bool
    var deferred: bool

    constructor ()
      ensures synth == [] && queued == [] && listeners == map[] && pending == map[] && !closed && !deferred
    {
      synth, queued, listeners, pending, closed, deferred := [], [], map[], map[], false, false;
    }

    /** Close: every listener is told, in some order, by a message that cannot be dropped. */
    method Close() returns (order: seq<StreamId>)
      modifies this
      ensures closed && synth == old(synth) && pending == old(pending) && deferred == old(deferred)
      ensures old(closed) ==> queued == old(queued) && listeners == old(listeners)
      ensures !old(closed) ==>
        && Distinct(order) && Elements(order) == old(listeners).Keys
        && queued == old(queued) + Closures(order) && listeners == map[]
    {
      order := [];
      if closed {
        return;
      }
      closed := true;
      var todo := listeners.Keys;
      while todo != {}
        invariant todo <= listeners.Keys && Distinct(order)
        invariant forall id :: id in order <==> id in listeners && id !in todo
        invariant queued == old(queued) + Closures(order)
        invariant synth == old(synth) && listeners == old(listeners) && pending == old(pending) && deferred == old(deferred)
        invariant closed
        decreases |todo|
      {
        ghost var some := SomeElement(todo);
        var id :| id in todo;
        todo := todo - {id};
        assert Closures(order + [id]) == Closures(order) + [Closure(id)];
        order := order + [id];
        queued := queued + [Closure(id)];
      }
      assert forall id :: id in Elements(order) <==> id in listeners;
      listeners := map[];
    }

    /** The section after the acknowledgment was queued; false if Close came first. */
    method Register(id: StreamId, filter: ListenFilter) returns (ok: bool)
      modifies this`listeners
      ensures ok == !closed && listeners == if closed then old(listeners) else old(listeners)[id := filter]
    {
      if closed {
        return false;
      }
      listeners := listeners[id := filter];
      return true;
    }

    /** A cancellation; true if it was for a listen stream. */
    method Cancel(id: StreamId) returns (isListen: bool)
      modifies this`listeners, this`pending
      ensures isListen == (id in old(listeners))
      ensures listeners == old(listeners) - {id} && pending == old(pending) - {id}
    {
      isListen := id in listeners;
      listeners := listeners - {id};
      pending := pending - {id};
    }

    /** Read's first two attempts: the channel, then the queue, then a withheld error. */
    method Next() returns (m: Option<Message>, failed: bool)
      modifies this`synth, this`queued, this`deferred
      ensures failed ==> old(synth) == [] && old(queued) == [] && old(deferred) && !deferred && m.None?
      ensures m.Some? <==> old(synth) != [] || old(queued) != []
      ensures m.Some? ==> [m.value] + synth + queued == old(synth) + old(queued) && deferred == old(deferred)
      ensures m.None? ==> synth == old(synth) && queued == old(queued) && failed == old(deferred)
    {
      if synth != [] {
        m := Some(synth[0]);
        synth := synth[1..];
        return m, false;
      }
      if queued != [] {
        m := Some(queued[0]);
        queued := queued[1..];
        return m, false;
      }
      failed := deferred;
      deferred := false;
      return None, failed;
    }

    /** The listeners that want a kind, each once. */
    method Wanting(kind: Kind) returns (ids: seq<StreamId>)
      ensures Distinct(ids) && forall id :: id in ids <==> id in listeners && Wants(listeners[id], kind)
    {
      ids := [];
      var todo := listeners.Keys;
      while todo != {}
        invariant todo <= listeners.Keys && Distinct(ids)
        invariant forall id :: id in ids <==> id in listeners && id !in todo && Wants(listeners[id], kind)
        decreases |todo|
      {
        ghost var some := SomeElement(todo);
        var id :| id in todo;
        todo := todo - {id};
        if Wants(listeners[id], kind) {
          ids := ids + [id];
        }
      }
    }

    /**
    translateNotification's fan-out: one notice for each listener that wants the event, none lost. The
    channel takes what fits and the queue the rest, in the same order.
    */
    method FanOut(kind: Kind, event: nat) returns (ids: seq<StreamId>)
      requires |synth| <= SYNTH_SLOTS
      modifies this`synth, this`queued
      ensures Distinct(ids) && forall id :: id in ids <==> id in listeners && Wants(listeners[id], kind)
      ensures |synth| <= SYNTH_SLOTS
      ensures exists k ::
        && 0 <= k <= |ids| && (k == |ids| || |synth| == SYNTH_SLOTS)
        && synth == old(synth) + Notices(ids[..k], event) && queued == old(queued) + Notices(ids[k..], event)
    {
      ids := Wanting(kind);
      var overflow: seq<Message> := [];
      ghost var k := 0;
      for i := 0 to |ids|
        invariant k <= i && (k == i || |synth| == SYNTH_SLOTS) && |synth| <= SYNTH_SLOTS
        invariant synth == old(synth) + Notices(ids[..k], event) && overflow == Notices(ids[k..i], event)
        invariant queued == old(queued)
      {
        var m := Notice(ids[i], event);
        if |synth| < SYNTH_SLOTS {
          assert Notices(ids[..k + 1], event) == Notices(ids[..k], event) + [m];
          synth := synth + [m];
          k := k + 1;
        } else {
          assert Notices(ids[k..i + 1], event) == Notices(ids[k..i], event) + [m];
          overflow := overflow + [m];
        }
      }
      assert ids[k..|ids|] == ids[k..];
      queued := queued + overflow;
    }
  }
}
