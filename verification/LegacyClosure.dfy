/**
When a graceful closure stays behind the acknowledgment of its own stream: what Close queues, followed
through every later step of the bridge.
*/
module LegacyClosure {
  import opened Common
  import opened LegacyModel

  predicate NoClosure(ms: seq<Message>) { forall m :: m in ms ==> !m.Closure? }

  // ---- Closures come from Close, and wait in the queue alone ----

  predicate ChannelFree(s: Sys) { NoClosure(s.synth) && NoClosure(Overflow(s)) }

  predicate BeforeClose(s: Sys) { ChannelFree(s) && (!s.closed ==> NoClosure(s.queued) && NoClosure(s.read)) }

  lemma StepChannelFree(s: Sys, a: Action)
    requires ChannelFree(s) && Step(s, a).Some?
    ensures ChannelFree(Step(s, a).value)
  {
    hide Distinct, Elements, Wanting, Wants, Closures, Notices;
  }

  lemma StepBeforeClose(s: Sys, a: Action)
    requires BeforeClose(s) && Step(s, a).Some?
    ensures BeforeClose(Step(s, a).value)
  {
    StepChannelFree(s, a);
    hide Distinct, Elements, Wanting, Wants, Closures, Notices;
  }

  lemma {:induction false} RunBeforeClose(acts: seq<Action>)
    requires Run(acts).Some?
    ensures BeforeClose(Run(acts).value)
  {
    if acts != [] {
      RunBeforeClose(acts[..|acts| - 1]);
      StepBeforeClose(Run(acts[..|acts| - 1]).value, acts[|acts| - 1]);
      hide BeforeClose, Step;
    }
  }

  // ---- The acknowledgment on its way ----

  /** The acknowledgment has been read, or waits in the channel. */
  predicate AckComes(s: Sys, id: StreamId) { Ack(id) in s.read || Ack(id) in s.synth }

  lemma StepAckComes(s: Sys, a: Action, id: StreamId)
    requires AckComes(s, id) && Step(s, a).Some?
    ensures AckComes(Step(s, a).value, id)
  {
    hide Distinct, Elements, Wanting, Wants, Closures, Notices;
    assert s.synth != [] ==> s.synth == [s.synth[0]] + s.synth[1..];
  }

  /** A reader between the channel and the queue that is about to read the closure has read the acknowledgment. */
  predicate FrontAcked(s: Sys, id: StreamId) {
    s.reader.Draining? && s.queued != [] && s.queued[0] == Closure(id) ==> Ack(id) in s.read
  }

  /** Such a reader can only have come past an empty channel; until it reads, its queue only grows behind. */
  lemma StepFrontAcked(s: Sys, a: Action, id: StreamId)
    requires s.closed && AckComes(s, id) && FrontAcked(s, id) && Step(s, a).Some?
    ensures FrontAcked(Step(s, a).value, id) && Step(s, a).value.closed
  {
    hide Distinct, Elements, Wanting, Wants, Closures, Notices;
  }

  ghost predicate AckBeforeClosure(read: seq<Message>, id: StreamId) {
    forall j :: 0 <= j < |read| && read[j] == Closure(id) ==> exists i :: 0 <= i < j && read[i] == Ack(id)
  }

  lemma ReadNext(before: seq<Message>, after: seq<Message>, id: StreamId)
    requires AckBeforeClosure(before, id)
    requires after == before || (|after| == |before| + 1 && after[..|before|] == before
               && (after[|before|] == Closure(id) ==> Ack(id) in before))
    ensures AckBeforeClosure(after, id)
  {
    forall j | 0 <= j < |after| && after[j] == Closure(id)
      ensures exists i :: 0 <= i < j && after[i] == Ack(id)
    {
      if j < |before| {
        var i :| 0 <= i < j && before[i] == Ack(id);
        assert after[i] == before[i];
      } else {
        var i :| 0 <= i < |before| && before[i] == Ack(id);
        assert after[i] == before[i];
      }
    }
  }

  /** One message at a time; a closure only from the front of the queue, by a draining reader. */
  lemma StepReadsClosure(s: Sys, a: Action, id: StreamId)
    requires ChannelFree(s) && Step(s, a).Some?
    ensures var t := Step(s, a).value;
            t.read == s.read || (|t.read| == |s.read| + 1 && t.read[..|s.read|] == s.read
              && (t.read[|s.read|] == Closure(id) ==> s.reader.Draining? && s.queued != [] && s.queued[0] == Closure(id)))
  {
    hide Distinct, Elements, Wanting, Wants, Closures, Notices;
  }

  ghost predicate Behind(s: Sys, id: StreamId) {
    s.closed && ChannelFree(s) && AckComes(s, id) && FrontAcked(s, id) && AckBeforeClosure(s.read, id)
  }

  lemma StepBehind(s: Sys, a: Action, id: StreamId)
    requires Behind(s, id) && Step(s, a).Some?
    ensures Behind(Step(s, a).value, id)
  {
    hide Step, ChannelFree, AckComes, AckBeforeClosure;
    StepChannelFree(s, a);
    StepAckComes(s, a, id);
    StepFrontAcked(s, a, id);
    StepReadsClosure(s, a, id);
    ReadNext(s.read, Step(s, a).value.read, id);
  }

  // ---- The closure that overtakes ----

  /** The closure is the next thing to be read after before, or was it. */
  predicate Ahead(s: Sys, before: seq<Message>, id: StreamId) {
    || (s.closed && s.read == before && s.reader.Draining? && s.queued != [] && s.queued[0] == Closure(id))
    || before + [Closure(id)] <= s.read
  }

  lemma StepAhead(s: Sys, a: Action, before: seq<Message>, id: StreamId)
    requires Ahead(s, before, id) && Step(s, a).Some?
    ensures Ahead(Step(s, a).value, before, id)
  {
    hide Distinct, Elements, Wanting, Wants, Closures, Notices;
    StepReadsOn(s, a);
  }

  lemma StepReadsOn(s: Sys, a: Action)
    requires Step(s, a).Some?
    ensures s.read <= Step(s, a).value.read
  {
    hide Distinct, Elements, Wanting, Wants, Closures, Notices;
  }

  // ---- Close, and whatever comes after it ----

  lemma RunMore(acts: seq<Action>, more: seq<Action>)
    requires more != [] && Run(acts + more).Some?
    ensures var front := acts + more[..|more| - 1];
            Run(front).Some? && Step(Run(front).value, more[|more| - 1]) == Run(acts + more)
  {
    assert (acts + more)[..|acts + more| - 1] == acts + more[..|more| - 1];
  }

  lemma {:induction false} StaysBehind(acts: seq<Action>, more: seq<Action>, id: StreamId)
    requires Run(acts).Some? && Behind(Run(acts).value, id) && Run(acts + more).Some?
    ensures Behind(Run(acts + more).value, id)
    decreases |more|
  {
    hide Run, Step, Behind;
    if more == [] {
      assert acts + more == acts;
    } else {
      RunMore(acts, more);
      StaysBehind(acts, more[..|more| - 1], id);
      StepBehind(Run(acts + more[..|more| - 1]).value, more[|more| - 1], id);
    }
  }

  lemma {:induction false} StaysAhead(acts: seq<Action>, more: seq<Action>, before: seq<Message>, id: StreamId)
    requires Run(acts).Some? && Ahead(Run(acts).value, before, id) && Run(acts + more).Some?
    ensures Ahead(Run(acts + more).value, before, id)
    decreases |more|
  {
    hide Run, Step, Ahead;
    if more == [] {
      assert acts + more == acts;
    } else {
      RunMore(acts, more);
      StaysAhead(acts, more[..|more| - 1], before, id);
      StepAhead(Run(acts + more[..|more| - 1]).value, more[|more| - 1], before, id);
    }
  }

  /** Close finds the reader past the channel, the queue empty and id's acknowledgment unread, and queues id's closure first. */
  predicate Overtakes(s: Sys, order: seq<StreamId>, id: StreamId) {
    s.reader.Draining? && s.queued == [] && order != [] && order[0] == id && Ack(id) !in s.read
  }

  lemma ListenerAcked(s: Sys, id: StreamId)
    requires Acked(s) && id in s.listeners
    ensures AckComes(s, id)
  {
    assert AckedBy(s, id, |s.synth|);
  }

  lemma ClosePuts(s: Sys, order: seq<StreamId>, id: StreamId)
    requires BeforeClose(s) && !s.closed && AckComes(s, id) && Step(s, Close(order)).Some?
    ensures var t := Step(s, Close(order)).value;
            if Overtakes(s, order, id) then Ahead(t, s.read, id) else Behind(t, id)
  {
    var t := Step(s, Close(order)).value;
    assert t.read == s.read && t.queued == s.queued + Closures(order);
    assert AckBeforeClosure(s.read, id);
    hide Distinct, Elements;
  }

  lemma ReadAhead(read: seq<Message>, before: seq<Message>, id: StreamId)
    requires before + [Closure(id)] <= read && Ack(id) !in before
    ensures !AckBeforeClosure(read, id)
  {
    var j := |before|;
    assert read[j] == (before + [Closure(id)])[j];
    forall i | 0 <= i < j
      ensures read[i] != Ack(id)
    {
      assert read[i] == (before + [Closure(id)])[i] == before[i];
    }
  }

  /**
  Whatever happened before Close and happens after it, a stream's closure that is read is read after the
  stream's acknowledgment - unless, and exactly unless, Close came while the reader stood between the
  channel and an empty queue with that acknowledgment still in the channel, and this closure was queued first.
  */
  lemma ClosureFollowsAck(acts: seq<Action>, order: seq<StreamId>, more: seq<Action>, id: StreamId)
    requires Run(acts).Some? && !Run(acts).value.closed && id in Run(acts).value.listeners
    requires Run(acts + [Close(order)] + more).Some? && Closure(id) in Run(acts + [Close(order)] + more).value.read
    ensures AckBeforeClosure(Run(acts + [Close(order)] + more).value.read, id) <==> !Overtakes(Run(acts).value, order, id)
  {
    hide Run, Step, Staged, InOrder, Acked, AckFirst, Mourned, Conserved, BeforeClose, AckComes, Behind;
    var s, closing := Run(acts).value, acts + [Close(order)];
    RunInv(acts);
    RunBeforeClose(acts);
    ListenerAcked(s, id);
    RunFront(closing, more);
    RunMore(acts, [Close(order)]);
    assert acts + [Close(order)][..0] == acts;
    ClosePuts(s, order, id);
    var t := Run(closing + more).value;
    if Overtakes(s, order, id) {
      StaysAhead(closing, more, s.read, id);
      NoClosureRead(s, id);
      ReadAhead(t.read, s.read, id);
    } else {
      StaysBehind(closing, more, id);
      BehindReads(t, id);
    }
  }

  lemma NoClosureRead(s: Sys, id: StreamId)
    requires BeforeClose(s) && !s.closed
    ensures Closure(id) !in s.read
  {
  }

  lemma BehindReads(s: Sys, id: StreamId)
    requires Behind(s, id)
    ensures AckBeforeClosure(s.read, id)
  {
  }

  lemma {:induction false} RunFront(acts: seq<Action>, more: seq<Action>)
    requires Run(acts + more).Some?
    ensures Run(acts).Some?
    decreases |more|
  {
    if more == [] {
      assert acts + more == acts;
    } else {
      RunMore(acts, more);
      RunFront(acts, more[..|more| - 1]);
    }
    hide Run;
  }
}
