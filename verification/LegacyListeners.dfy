/** Who is listening at each point of a run, and what becomes of an error of the transport. */
module LegacyListeners {
  import opened Common
  import opened LegacyModel

  predicate Closed(acts: seq<Action>) { exists i :: 0 <= i < |acts| && acts[i].Close? }

  /** Registered and not cancelled since, and Close has not come before or after. */
  predicate Enrolled(acts: seq<Action>, id: StreamId) {
    !Closed(acts) && exists i :: 0 <= i < |acts| && acts[i] == Register(id) && Cancel(id) !in acts[i..]
  }

  predicate Asked(acts: seq<Action>, id: StreamId, f: ListenFilter) { Listen(id, f) in acts }

  /** What the writers and the listeners were made from. */
  ghost predicate Traced(s: Sys, acts: seq<Action>) {
    && (forall id, f :: Asked(acts, id, f) ==> id in s.writers)
    && (forall id, f, g :: Asked(acts, id, f) && Asked(acts, id, g) ==> f == g)
    && (forall id :: id in s.writers && !s.writers[id].Returned? ==> Asked(acts, id, s.writers[id].filter))
    && (forall id :: id in s.listeners ==> Asked(acts, id, s.listeners[id]))
  }

  /** Who the listeners are. */
  ghost predicate Listed(s: Sys, acts: seq<Action>) {
    (s.closed <==> Closed(acts)) && forall id :: id in s.listeners <==> Enrolled(acts, id)
  }

  lemma ClosedSnoc(front: seq<Action>, a: Action)
    ensures Closed(front + [a]) <==> Closed(front) || a.Close?
  {
    var acts := front + [a];
    assert acts[|front|] == a;
    if Closed(front) {
      var i :| 0 <= i < |front| && front[i].Close?;
      assert acts[i].Close?;
    }
  }

  lemma EnrolledSnoc(front: seq<Action>, a: Action, id: StreamId)
    ensures Enrolled(front + [a], id) <==>
      !Closed(front) && !a.Close? && (a == Register(id) || (a != Cancel(id) && Enrolled(front, id)))
  {
    var acts := front + [a];
    ClosedSnoc(front, a);
    assert acts[|front|..] == [a];
    forall i | 0 <= i < |front|
      ensures acts[i] == front[i] && acts[i..] == front[i..] + [a]
    {
    }
    if Enrolled(front, id) && a != Cancel(id) {
      var i :| 0 <= i < |front| && front[i] == Register(id) && Cancel(id) !in front[i..];
      assert acts[i] == Register(id) && Cancel(id) !in acts[i..];
    }
    hide Closed;
  }

  lemma StepListed(s: Sys, acts: seq<Action>, a: Action)
    requires Listed(s, acts) && Step(s, a).Some?
    ensures Listed(Step(s, a).value, acts + [a])
  {
    var t := Step(s, a).value;
    ClosedSnoc(acts, a);
    StepListens(s, a);
    hide Step;
    forall id
      ensures id in t.listeners <==> Enrolled(acts + [a], id)
    {
      EnrolledSnoc(acts, a, id);
    }
    hide Enrolled, Closed;
  }

  /** What one step does to the listeners. */
  lemma StepListens(s: Sys, a: Action)
    requires Step(s, a).Some? && (s.closed ==> forall id :: id !in s.listeners)
    ensures var t := Step(s, a).value;
            && t.closed == (s.closed || a.Close?)
            && (forall id :: id in t.listeners <==>
                  !s.closed && !a.Close? && (a == Register(id) || (a != Cancel(id) && id in s.listeners)))
  {
    hide Wanting, Notices, Closures, Distinct, Elements;
  }

  /** Where the filters come from. */
  lemma StepFilters(s: Sys, a: Action)
    requires Step(s, a).Some?
    ensures var t := Step(s, a).value;
            && (a.Listen? ==> a.stream !in s.writers)
            && (forall id :: id in s.writers || (a.Listen? && a.stream == id) ==> id in t.writers)
            && (forall id :: id in t.writers && !t.writers[id].Returned? ==>
                  if a.Listen? && a.stream == id then t.writers[id].filter == a.filter
                  else id in s.writers && !s.writers[id].Returned? && t.writers[id].filter == s.writers[id].filter)
            && (forall id :: id in t.listeners ==>
                  (id in s.listeners && t.listeners[id] == s.listeners[id])
                  || (id in s.writers && s.writers[id] == Pushed(t.listeners[id])))
  {
    hide Wanting, Notices, Closures, Distinct, Elements;
  }

  lemma StepTraced(s: Sys, acts: seq<Action>, a: Action)
    requires Traced(s, acts) && Step(s, a).Some?
    ensures Traced(Step(s, a).value, acts + [a])
  {
    StepFilters(s, a);
    hide Step;
    assert forall id, f :: Asked(acts + [a], id, f) <==> Asked(acts, id, f) || a == Listen(id, f);
    hide Asked;
  }

  lemma {:induction false} RunTraced(acts: seq<Action>)
    requires Run(acts).Some?
    ensures Traced(Run(acts).value, acts) && Listed(Run(acts).value, acts)
  {
    if acts != [] {
      var front, a := acts[..|acts| - 1], acts[|acts| - 1];
      assert acts == front + [a];
      RunTraced(front);
      StepTraced(Run(front).value, front, a);
      StepListed(Run(front).value, front, a);
      hide Traced, Listed, Step;
    }
  }

  /** The listeners are exactly the streams registered and neither cancelled nor closed since, each with the filter it asked for. */
  lemma ListenersExactly(acts: seq<Action>, id: StreamId, f: ListenFilter)
    requires Run(acts).Some?
    ensures var s := Run(acts).value; id in s.listeners && s.listeners[id] == f <==> Enrolled(acts, id) && Asked(acts, id, f)
  {
    RunTraced(acts);
    hide Run, Enrolled, Asked;
  }

  // ---- A transport error ----

  predicate Broken(s: Sys) { s.deferred || s.reader.Examining? || s.reader.Weighing? || s.reader.Failed? }

  lemma StepBroken(s: Sys, a: Action)
    requires Step(s, a).Some?
    ensures Broken(Step(s, a).value) <==> Broken(s) || a == Breaks
  {
  }

  /** An error of the transport is never lost: from when it comes until Read has returned it, it is held. */
  lemma {:induction false} ErrorIsHeld(acts: seq<Action>)
    requires Run(acts).Some?
    ensures Broken(Run(acts).value) <==> Breaks in acts
  {
    if acts != [] {
      var front, a := acts[..|acts| - 1], acts[|acts| - 1];
      assert acts == front + [a];
      ErrorIsHeld(front);
      StepBroken(Run(front).value, a);
      hide Step, Broken;
    }
  }

  lemma RunOn(acts: seq<Action>, a: Action)
    requires Run(acts).Some? && Step(Run(acts).value, a).Some?
    ensures Run(acts + [a]) == Step(Run(acts).value, a)
  {
    assert (acts + [a])[..|acts|] == acts;
  }

  lemma PollReads(s: Sys)
    requires s.reader.Polling?
    ensures Step(s, Poll) ==
      Some(if s.synth != [] then s.(read := s.read + [s.synth[0]], synth := s.synth[1..]) else s.(reader := Draining))
  {
  }

  lemma DrainReads(s: Sys)
    requires s.reader.Draining? && s.deferred
    ensures Step(s, Drain) ==
      Some(if s.queued != [] then s.(read := s.read + [s.queued[0]], queued := s.queued[1..], reader := Polling)
           else s.(deferred := false, reader := Failed))
  {
  }

  lemma HeadMoves(read: seq<Message>, from: seq<Message>, rest: seq<Message>)
    requires from != []
    ensures (read + [from[0]]) + from[1..] + rest == read + from + rest
  {
  }

  /** Nothing is lost to it either: a reader left to itself reads the channel, then the queue, and then the error. */
  lemma {:induction false} ErrorSurfaces(acts: seq<Action>) returns (more: seq<Action>)
    requires Run(acts).Some? && Run(acts).value.deferred && Run(acts).value.reader.Polling?
    ensures Run(acts + more).Some?
    ensures var s, t := Run(acts).value, Run(acts + more).value; t.reader.Failed? && t.read == s.read + s.synth + s.queued
    decreases |Run(acts).value.synth| + |Run(acts).value.queued|, 1
  {
    hide Run, Step;
    var s := Run(acts).value;
    PollReads(s);
    RunOn(acts, Poll);
    var polled := acts + [Poll];
    if s.synth != [] {
      var rest := ErrorSurfaces(polled);
      more := [Poll] + rest;
      assert acts + more == polled + rest;
      HeadMoves(s.read, s.synth, s.queued);
    } else {
      more := QueueSurfaces(acts, polled);
    }
  }

  lemma {:induction false} QueueSurfaces(acts: seq<Action>, polled: seq<Action>) returns (more: seq<Action>)
    requires Run(acts).Some? && Run(acts).value.deferred && Run(acts).value.reader.Polling? && Run(acts).value.synth == []
    requires polled == acts + [Poll] && Run(polled) == Some(Run(acts).value.(reader := Draining))
    ensures Run(acts + more).Some?
    ensures var s, t := Run(acts).value, Run(acts + more).value; t.reader.Failed? && t.read == s.read + s.synth + s.queued
    decreases |Run(acts).value.synth| + |Run(acts).value.queued|, 0
  {
    hide Run, Step;
    var s := Run(acts).value;
    DrainReads(Run(polled).value);
    RunOn(polled, Drain);
    var drained := polled + [Drain];
    if s.queued != [] {
      var rest := ErrorSurfaces(drained);
      more := [Poll, Drain] + rest;
      assert acts + more == drained + rest;
      HeadMoves(s.read, s.queued, []);
    } else {
      more := [Poll, Drain];
      assert acts + more == drained;
    }
  }
}
