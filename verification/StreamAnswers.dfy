/**
What a stream publishes, as the calls on it and the order of its claims settle it: which notifications get
out, which terminal frame each call of End or Err stands for, and which bodies may be parked.
*/
module StreamAnswers {
  import opened Common
  import E = ErrFrame
  import opened StreamModel

  predicate Claimed(acts: seq<Action>) { exists a :: a in acts && a.Claim? }

  predicate TooBig(l: Limits, body: Bytes) { |body| + |"NATS/1.0\r\nMcp-Frame: end\r\n\r\n"| > l.maxPayload }

  /** The caller opted in and the gateway has a store, and the body is at most 64 MiB. */
  predicate Parkable(l: Limits, body: Bytes) { l.parks && |body| <= 67_108_864 }

  /** The -32012 that names the response's size. */
  predicate Reproach(l: Limits, body: Bytes, f: Frame) {
    f == ErrOf(l, TooLarge(l, body)) && f.answer.code == -32012
  }

  /** The frame that a call of End with this body stands for, as the claim store answered. */
  ghost predicate Answers(l: Limits, acts: seq<Action>, t: TaskId, body: Bytes, f: Frame) {
    if !TooBig(l, body) then f == End(body)
    else if Parkable(l, body) then
      exists stored :: Put(t, stored) in acts && if stored.Some? then f == Parked(stored.value) else Reproach(l, body, f)
    else Reproach(l, body, f)
  }

  ghost predicate NoPut(acts: seq<Action>, t: TaskId) { forall stored :: Put(t, stored) !in acts }

  ghost predicate EndTold(l: Limits, acts: seq<Action>, t: TaskId, body: Bytes, a: Attempt) {
    match a
    case Parking(b) => b == body && TooBig(l, body) && Parkable(l, body) && NoPut(acts, t)
    case Holding(c) => TooBig(l, body) && Parkable(l, body) && Put(t, Some(c)) in acts
    case Ready(f) => Answers(l, acts, t, body, f)
    case Sending(f) => Answers(l, acts, t, body, f)
    case Discarding(c) => TooBig(l, body) && Parkable(l, body) && Put(t, Some(c)) in acts
    case Over => true
  }

  predicate ErrTold(l: Limits, report: E.Report, a: Attempt) {
    match a
    case Ready(f) => f == ErrOf(l, report)
    case Sending(f) => f == ErrOf(l, report)
    case Over => true
    case _ => false
  }

  ghost predicate CallsTold(s: Stream, l: Limits, acts: seq<Action>, t: TaskId) {
    && (t !in s.tasks ==> NoPut(acts, t))
    && (forall body :: CallEnd(t, body) in acts ==> t in s.tasks && EndTold(l, acts, t, body, s.tasks[t]))
    && (forall report :: CallErr(t, report) in acts ==> t in s.tasks && ErrTold(l, report, s.tasks[t]))
  }

  lemma ReproachCode(l: Limits, body: Bytes)
    ensures Reproach(l, body, ErrOf(l, TooLarge(l, body)))
  {
    hide E.Fit, E.Body, E.CodeText, Decimal;
  }

  /** Steps of other tasks leave the call as it was. */
  lemma OtherTask(s: Stream, l: Limits, acts: seq<Action>, a: Action, t: TaskId)
    requires CallsTold(s, l, acts, t) && Step(s, a).Some? && s.limits == l
    requires a.Notify? || a.Tick? || a.task != t
    ensures CallsTold(Step(s, a).value, l, acts + [a], t)
  {
    var u := Step(s, a).value;
    assert t in u.tasks <==> t in s.tasks;
    assert t in s.tasks ==> u.tasks[t] == s.tasks[t];
    assert forall stored :: Put(t, stored) in acts + [a] <==> Put(t, stored) in acts;
    hide ErrOf, TooLarge, EndBegins, Step, TooBig, Parkable, Reproach;
  }

  /** acts have gone on to more by a. */
  ghost predicate GoesOn(acts: seq<Action>, more: seq<Action>, a: Action) { forall x :: x in more <==> x in acts || x == a }

  lemma BeginsTold(l: Limits, acts: seq<Action>, t: TaskId, body: Bytes)
    requires NoPut(acts, t)
    ensures EndTold(l, acts, t, body, EndBegins(l, body))
  {
    ReproachCode(l, body);
    hide ErrOf, TooLarge, Reproach;
  }

  lemma CallTold(s: Stream, l: Limits, acts: seq<Action>, more: seq<Action>, a: Action, t: TaskId)
    requires CallsTold(s, l, acts, t) && Step(s, a).Some? && s.limits == l && GoesOn(acts, more, a)
    requires (a.CallEnd? || a.CallErr?) && a.task == t
    ensures CallsTold(Step(s, a).value, l, more, t)
  {
    if a.CallEnd? {
      BeginsTold(l, more, t, a.body);
    }
    hide ErrOf, TooLarge, EndBegins, EndTold;
  }

  lemma StoredTold(l: Limits, acts: seq<Action>, t: TaskId, body: Bytes, claim: Option<ClaimId>)
    requires Put(t, claim) in acts && TooBig(l, body) && Parkable(l, body)
    ensures EndTold(l, acts, t, body, if claim.Some? then Holding(claim.value) else Ready(ErrOf(l, TooLarge(l, body))))
  {
    ReproachCode(l, body);
    hide ErrOf, TooLarge, Reproach, TooBig, Parkable;
  }

  lemma ParkingTold(l: Limits, acts: seq<Action>, t: TaskId, body: Bytes, a: Attempt)
    requires EndTold(l, acts, t, body, a) && a.Parking?
    ensures a.body == body && TooBig(l, body) && Parkable(l, body)
  {
  }

  lemma PutTold(s: Stream, l: Limits, acts: seq<Action>, more: seq<Action>, a: Action, t: TaskId)
    requires CallsTold(s, l, acts, t) && Step(s, a).Some? && s.limits == l && GoesOn(acts, more, a)
    requires a.Put? && a.task == t
    ensures CallsTold(Step(s, a).value, l, more, t)
  {
    forall b | CallEnd(t, b) in more
      ensures EndTold(l, more, t, b, Step(s, a).value.tasks[t])
    {
      assert CallEnd(t, b) in acts;
      ParkingTold(l, acts, t, b, s.tasks[t]);
      StoredTold(l, more, t, b, a.claim);
    }
    hide ErrOf, TooLarge, EndTold, TooBig, Parkable;
  }

  lemma ClaimTold(s: Stream, l: Limits, acts: seq<Action>, more: seq<Action>, a: Action, t: TaskId)
    requires CallsTold(s, l, acts, t) && Step(s, a).Some? && s.limits == l && GoesOn(acts, more, a)
    requires (a.Claim? || a.Publish? || a.Delete?) && a.task == t
    ensures CallsTold(Step(s, a).value, l, more, t)
  {
    var u := Step(s, a).value;
    forall b | CallEnd(t, b) in more
      ensures EndTold(l, more, t, b, u.tasks[t])
    {
      assert EndTold(l, acts, t, b, s.tasks[t]);
      if s.tasks[t].Ready? {
        AnswersGoOn(l, acts, more, a, t, b, s.tasks[t].frame);
      } else if s.tasks[t].Holding? && u.tasks[t].Sending? {
        assert Put(t, Some(s.tasks[t].claim)) in more;
      }
    }
    hide ErrOf, TooLarge, Reproach, TooBig, Parkable;
  }

  lemma AnswersGoOn(l: Limits, acts: seq<Action>, more: seq<Action>, a: Action, t: TaskId, body: Bytes, f: Frame)
    requires Answers(l, acts, t, body, f) && GoesOn(acts, more, a)
    ensures Answers(l, more, t, body, f)
  {
    hide Reproach;
    if TooBig(l, body) && Parkable(l, body) {
      var stored :| Put(t, stored) in acts && if stored.Some? then f == Parked(stored.value) else Reproach(l, body, f);
      assert Put(t, stored) in more;
    }
  }

  lemma OwnTask(s: Stream, l: Limits, acts: seq<Action>, a: Action, t: TaskId)
    requires CallsTold(s, l, acts, t) && Step(s, a).Some? && s.limits == l
    requires !a.Notify? && !a.Tick? && a.task == t
    ensures CallsTold(Step(s, a).value, l, acts + [a], t)
  {
    assert GoesOn(acts, acts + [a], a);
    hide CallsTold, Step, GoesOn;
    if a.CallEnd? || a.CallErr? {
      CallTold(s, l, acts, acts + [a], a, t);
    } else if a.Put? {
      PutTold(s, l, acts, acts + [a], a, t);
    } else {
      ClaimTold(s, l, acts, acts + [a], a, t);
    }
  }

  lemma {:induction false} RunTold(l: Limits, acts: seq<Action>, t: TaskId)
    requires Run(l, acts).Some?
    ensures CallsTold(Run(l, acts).value, l, acts, t)
  {
    if acts != [] {
      var front, a := acts[..|acts| - 1], acts[|acts| - 1];
      assert acts == front + [a];
      RunTold(l, front, t);
      RunShaped(l, front);
      var s := Run(l, front).value;
      hide CallsTold, Step, Shaped;
      if a.Notify? || a.Tick? || a.task != t {
        OtherTask(s, l, front, a, t);
      } else {
        OwnTask(s, l, front, a, t);
      }
    }
  }

  lemma RunSplit(l: Limits, acts: seq<Action>, a: Action)
    requires Run(l, acts + [a]).Some?
    ensures Run(l, acts).Some? && Step(Run(l, acts).value, a) == Run(l, acts + [a])
  {
    assert (acts + [a])[..|acts|] == acts;
  }

  /**
  The terminal frame that answers a call of End: the body if it fits; if it does not and may be parked, the
  claim under which the store took it, or -32012 if the store refused; and -32012 if it may not be parked.
  */
  lemma EndIsAnswered(l: Limits, acts: seq<Action>, t: TaskId, body: Bytes)
    requires Run(l, acts + [Publish(t)]).Some? && CallEnd(t, body) in acts
    ensures Run(l, acts).Some?
    ensures exists f :: Answers(l, acts, t, body, f) && Run(l, acts + [Publish(t)]).value.frames == Run(l, acts).value.frames + [f]
  {
    hide Run, Answers, NoPut;
    RunSplit(l, acts, Publish(t));
    RunTold(l, acts, t);
    var s := Run(l, acts).value;
    assert EndTold(l, acts, t, body, s.tasks[t]);
    assert s.tasks[t].Sending? && Answers(l, acts, t, body, s.tasks[t].frame);
  }

  /** The terminal frame that answers a call of Err. */
  lemma ErrIsAnswered(l: Limits, acts: seq<Action>, t: TaskId, report: E.Report)
    requires Run(l, acts + [Publish(t)]).Some? && CallErr(t, report) in acts
    ensures Run(l, acts).Some?
    ensures Run(l, acts + [Publish(t)]).value.frames == Run(l, acts).value.frames + [ErrOf(l, report)]
  {
    hide Run, ErrOf, Answers, NoPut;
    RunSplit(l, acts, Publish(t));
    RunTold(l, acts, t);
    assert ErrTold(l, report, Run(l, acts).value.tasks[t]);
  }

  // ---- Only callers that opted in have bodies parked ----

  predicate Unparked(a: Attempt) {
    match a
    case Ready(f) => !f.Parked?
    case Sending(f) => !f.Parked?
    case Over => true
    case _ => false
  }

  predicate ParksNothing(s: Stream) {
    && s.stored == {} && (forall i :: 0 <= i < |s.frames| ==> !s.frames[i].Parked?)
    && forall t :: t in s.tasks ==> Unparked(s.tasks[t])
  }

  lemma ParksNothingStep(s: Stream, a: Action)
    requires ParksNothing(s) && Step(s, a).Some? && !s.limits.parks
    ensures ParksNothing(Step(s, a).value)
  {
    hide ErrOf, TooLarge;
  }

  lemma {:induction false} ParkedOnlyIfAccepted(l: Limits, acts: seq<Action>)
    requires Run(l, acts).Some? && !l.parks
    ensures ParksNothing(Run(l, acts).value)
  {
    if acts != [] {
      ParkedOnlyIfAccepted(l, acts[..|acts| - 1]);
      RunShaped(l, acts[..|acts| - 1]);
      ParksNothingStep(Run(l, acts[..|acts| - 1]).value, acts[|acts| - 1]);
      hide ParksNothing, Shaped, Step;
    }
  }

  // ---- What goes out before the claim ----

  /** The notifications that fit and the keepalives, up to the first claim. */
  function Spoken(l: Limits, acts: seq<Action>): seq<Frame> {
    if acts == [] then []
    else
      var front, a := acts[..|acts| - 1], acts[|acts| - 1];
      Spoken(l, front) +
        if Claimed(front) then []
        else if a.Tick? then [KeepAlive]
        else if a.Notify? && |a.body| + |"NATS/1.0\r\nMcp-Frame: msg\r\n\r\n"| <= l.maxPayload then [Msg(a.body)]
        else []
  }

  predicate DoneIfClaimed(s: Stream, acts: seq<Action>) { s.done <==> Claimed(acts) }

  lemma ClaimedStep(acts: seq<Action>, a: Action)
    ensures Claimed(acts + [a]) <==> Claimed(acts) || a.Claim?
  {
    assert forall x :: x in acts + [a] <==> x in acts || x == a;
  }

  lemma {:induction false} DoneIsClaimed(l: Limits, acts: seq<Action>)
    requires Run(l, acts).Some?
    ensures Run(l, acts).value.done <==> Claimed(acts)
  {
    if acts != [] {
      var front, a := acts[..|acts| - 1], acts[|acts| - 1];
      assert acts == front + [a];
      DoneIsClaimed(l, front);
      ClaimedStep(front, a);
      hide Claimed, ErrOf, TooLarge, EndBegins;
    }
  }

  /** Every notification that fits and every keepalive that comes before the claim is published, in order; then only the terminal. */
  lemma {:induction false} FramesAreSpoken(l: Limits, acts: seq<Action>)
    requires Run(l, acts).Some?
    ensures var s := Run(l, acts).value;
            s.frames == Spoken(l, acts) + if Ended(s) then [s.frames[|s.frames| - 1]] else []
  {
    if acts != [] {
      var front, a := acts[..|acts| - 1], acts[|acts| - 1];
      FramesAreSpoken(l, front);
      RunShaped(l, front);
      RunShaped(l, acts);
      DoneIsClaimed(l, front);
      SpokenStep(Run(l, front).value, a, Run(l, acts).value, Spoken(l, front));
      hide Claimed, Shaped, Step, Ended;
    } else {
      assert !Ended(NewStream(l));
    }
  }

  lemma SpokenStep(s: Stream, a: Action, t: Stream, spoken: seq<Frame>)
    requires Shaped(s) && Step(s, a) == Some(t)
    requires s.frames == spoken + if Ended(s) then [s.frames[|s.frames| - 1]] else []
    ensures t.frames == spoken
      + (if s.done then [] else if a.Tick? then [KeepAlive]
         else if a.Notify? && Sized(s.limits, Msg(a.body)) then [Msg(a.body)] else [])
      + if Ended(t) then [t.frames[|t.frames| - 1]] else []
  {
    hide ErrOf, TooLarge, EndBegins, Count;
    if a.Publish? {
      SendingCounts(s, a.task);
      assert !Ended(s) && s.done;
      assert AttemptOk(s.limits, s.tasks[a.task]);
    }
  }

  lemma SendingCounts(s: Stream, t: TaskId)
    requires t in s.tasks && s.tasks[t].Sending?
    ensures Count(s.tasks, IsSending()) >= 1
  {
    assert t in Matching(s.tasks, IsSending());
  }
}
