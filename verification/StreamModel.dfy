/**
One reply stream of the gateway (server.go:696-883): notifications, keepalives, and any number of
attempts to end it, interleaved. A step is one section that holds the writer's mutex, one call to the
claim store, or one publish of a terminal frame, which happens after the mutex is released.
*/
module StreamModel {
  import opened Common
  import E = ErrFrame

  type Bytes = string
  type ClaimId = int
  type TaskId = int

  const CLAIM_MAX_BODY: nat := 67_108_864

  /** Header bytes of a frame, charged to max_payload beside its body. */
  const MSG_OVERHEAD: nat := |"NATS/1.0\r\nMcp-Frame: msg\r\n\r\n"|
  const END_OVERHEAD: nat := |"NATS/1.0\r\nMcp-Frame: end\r\n\r\n"|

  /** Parked is an end frame that names a body left in the claim store. */
  datatype Frame = Msg(body: Bytes) | KeepAlive | End(body: Bytes) | Parked(claim: ClaimId) | Err(answer: E.Answer)

  predicate Terminal(f: Frame) { f.End? || f.Parked? || f.Err? }

  /** maxPayload, whether this caller's oversize bodies may be parked, and how and under what id errors are written. */
  datatype Limits = Limits(maxPayload: nat, parks: bool, codec: E.Codec, id: string)

  predicate Sized(l: Limits, f: Frame) {
    && (f.Msg? ==> |f.body| + MSG_OVERHEAD <= l.maxPayload)
    && (f.End? ==> |f.body| + END_OVERHEAD <= l.maxPayload)
    && (f.Err? ==> f.answer.message != "")
  }

  /** One call of End or Err. */
  datatype Attempt =
    | Parking(body: Bytes)
    | Holding(claim: ClaimId)
    | Ready(frame: Frame)
    | Sending(frame: Frame)
    | Discarding(claim: ClaimId)
    | Over

  datatype Stream = Stream(
    limits: Limits, done: bool, frames: seq<Frame>, tasks: map<TaskId, Attempt>,
    stored: set<ClaimId>, deleted: multiset<ClaimId>)

  function NewStream(l: Limits): Stream { Stream(l, false, [], map[], {}, multiset{}) }

  const TOO_LARGE: int := -32012

  function ErrOf(l: Limits, r: E.Report): (f: Frame)
    ensures f.Err?
  {
    Frame.Err(E.Answered(l.codec, r, l.maxPayload))
  }

  /** The error for a response that neither fits nor could be parked (server.go:840-842). */
  function TooLarge(l: Limits, body: Bytes): E.Report {
    E.Report(l.id, TOO_LARGE,
             "response " + Decimal(|body|) + " bytes (+" + Decimal(END_OVERHEAD) + " frame headers) exceeds NATS max_payload "
             + Decimal(l.maxPayload),
             Some("{\"limit\":" + Decimal(l.maxPayload) + ",\"size\":" + Decimal(|body|) + "}"), true)
  }

  /** How End begins with a body (server.go:810-844). */
  function EndBegins(l: Limits, body: Bytes): Attempt {
    if |body| + END_OVERHEAD <= l.maxPayload then Ready(End(body))
    else if l.parks && |body| <= CLAIM_MAX_BODY then Parking(body)
    else Ready(ErrOf(l, TooLarge(l, body)))
  }

  datatype Action =
    | Notify(body: Bytes)
    | Tick
    | CallEnd(task: TaskId, body: Bytes)
    | CallErr(task: TaskId, report: E.Report)
    | Put(task: TaskId, claim: Option<ClaimId>)
    | Claim(task: TaskId)
    | Publish(task: TaskId)
    | Delete(task: TaskId)

  function SetTask(s: Stream, t: TaskId, a: Attempt): Stream { s.(tasks := s.tasks[t := a]) }

  function Send(s: Stream, f: Frame): Stream { s.(frames := s.frames + [f]) }

  function Step(s: Stream, a: Action): Option<Stream> {
    match a
    case Notify(body) => Some(if s.done || !Sized(s.limits, Msg(body)) then s else Send(s, Msg(body)))
    case Tick => Some(if s.done then s else Send(s, KeepAlive))
    case CallEnd(t, body) => if t in s.tasks then None else Some(SetTask(s, t, EndBegins(s.limits, body)))
    case CallErr(t, report) => if t in s.tasks then None else Some(SetTask(s, t, Ready(ErrOf(s.limits, report))))
    case Put(t, claim) =>
      if !(t in s.tasks && s.tasks[t].Parking?) then None
      else if claim.None? then Some(SetTask(s, t, Ready(ErrOf(s.limits, TooLarge(s.limits, s.tasks[t].body)))))
      else if claim.value in s.stored then None
      else Some(SetTask(s, t, Holding(claim.value)).(stored := s.stored + {claim.value}))
    case Claim(t) =>
      if t !in s.tasks then None
      else
        (match s.tasks[t]
         case Ready(f) => Some(if s.done then SetTask(s, t, Over) else SetTask(s, t, Sending(f)).(done := true))
         case Holding(c) =>
           Some(if s.done then SetTask(s, t, Discarding(c)) else SetTask(s, t, Sending(Parked(c))).(done := true))
         case _ => None)
    case Publish(t) =>
      if !(t in s.tasks && s.tasks[t].Sending?) then None else Some(Send(SetTask(s, t, Over), s.tasks[t].frame))
    case Delete(t) =>
      if !(t in s.tasks && s.tasks[t].Discarding?) then None
      else Some(SetTask(s, t, Over).(deleted := s.deleted + multiset{s.tasks[t].claim}))
  }

  function Run(l: Limits, acts: seq<Action>): Option<Stream> {
    if acts == [] then Some(NewStream(l))
    else
      var before := Run(l, acts[..|acts| - 1]);
      if before.None? then None else Step(before.value, acts[|acts| - 1])
  }

  // ---- At most one terminal frame, and nothing after it ----

  function IsSending(): Attempt -> bool { (a: Attempt) => a.Sending? }

  predicate Ended(s: Stream) { s.frames != [] && Terminal(s.frames[|s.frames| - 1]) }

  predicate Shaped(s: Stream) {
    && (forall i :: 0 <= i < |s.frames| - 1 ==> !Terminal(s.frames[i]))
    && (forall i :: 0 <= i < |s.frames| ==> Sized(s.limits, s.frames[i]))
    && Weight(Ended(s)) + Count(s.tasks, IsSending()) == Weight(s.done)
    && (forall t :: t in s.tasks ==> AttemptOk(s.limits, s.tasks[t]) && (PastClaim(s.tasks[t]) ==> s.done))
  }

  predicate AttemptOk(l: Limits, a: Attempt) {
    a.Ready? || a.Sending? ==> Terminal(a.frame) && Sized(l, a.frame)
  }

  /** A call that has passed its claim leaves the stream done. */
  predicate PastClaim(a: Attempt) { a.Sending? || a.Discarding? || a.Over? }

  lemma ErrIsDescribed(l: Limits, r: E.Report)
    ensures Sized(l, ErrOf(l, r))
  {
    var t := E.Told(r);
    E.FitDescribes(l.codec, t.id, E.CodeText(t.code), t.message, t.data,
                   if r.encodable then E.Body(l.codec, t.id, E.CodeText(t.code), t.message, t.data) else E.CANNED, l.maxPayload);
    hide E.Fit, E.Body, E.CodeText, E.CANNED;
  }

  lemma EndBeginsWell(l: Limits, body: Bytes)
    ensures AttemptOk(l, EndBegins(l, body)) && !PastClaim(EndBegins(l, body)) && !EndBegins(l, body).Sending?
  {
    ErrIsDescribed(l, TooLarge(l, body));
    hide ErrOf, TooLarge;
  }

  lemma StepShaped(s: Stream, a: Action)
    requires Shaped(s) && Step(s, a).Some?
    ensures Shaped(Step(s, a).value)
  {
    hide Count, ErrOf, TooLarge, EndBegins;
    if !(a.Notify? || a.Tick?) {
      CountUpdate(s.tasks, a.task, Step(s, a).value.tasks[a.task], IsSending());
      match a
      case CallErr(_, report) => ErrIsDescribed(s.limits, report);
      case CallEnd(_, body) => EndBeginsWell(s.limits, body);
      case Put(t, _) => ErrIsDescribed(s.limits, TooLarge(s.limits, s.tasks[t].body));
      case _ =>
    }
  }

  lemma {:induction false} RunShaped(l: Limits, acts: seq<Action>)
    requires Run(l, acts).Some?
    ensures Shaped(Run(l, acts).value) && Run(l, acts).value.limits == l
  {
    if acts == [] {
      assert Matching(NewStream(l).tasks, IsSending()) == {};
    } else {
      RunShaped(l, acts[..|acts| - 1]);
      StepShaped(Run(l, acts[..|acts| - 1]).value, acts[|acts| - 1]);
      hide Shaped;
    }
  }

  /** The frames on the reply subject: notifications and keepalives, then at most one terminal, each of them fitting. */
  lemma StreamShape(l: Limits, acts: seq<Action>)
    requires Run(l, acts).Some?
    ensures var s := Run(l, acts).value;
            && (forall i :: 0 <= i < |s.frames| && Terminal(s.frames[i]) ==> i == |s.frames| - 1)
            && (forall i :: 0 <= i < |s.frames| ==> Sized(l, s.frames[i]))
            && (Ended(s) ==> s.done)
  {
    RunShaped(l, acts);
    hide Run;
  }

  /** One terminal is claimed at most once: the stream is done exactly when one has been sent or is being sent. */
  lemma OneClaim(l: Limits, acts: seq<Action>)
    requires Run(l, acts).Some?
    ensures var s := Run(l, acts).value;
            Weight(Ended(s)) + |set t | t in s.tasks && s.tasks[t].Sending?| == Weight(s.done)
  {
    RunShaped(l, acts);
    var s := Run(l, acts).value;
    assert Matching(s.tasks, IsSending()) == set t | t in s.tasks && s.tasks[t].Sending?;
    hide Run;
  }

  // ---- Every parked body has one end ----

  predicate Claims(f: Frame, c: ClaimId) { f.Parked? && f.claim == c }

  function CarriesClaim(c: ClaimId): Attempt -> bool {
    (a: Attempt) => (a.Holding? && a.claim == c) || (a.Discarding? && a.claim == c) || (a.Sending? && Claims(a.frame, c))
  }

  function Names(frames: seq<Frame>, c: ClaimId): nat {
    if frames == [] then 0 else Names(frames[..|frames| - 1], c) + Weight(Claims(frames[|frames| - 1], c))
  }

  predicate AccountedFor(s: Stream, c: ClaimId) {
    Count(s.tasks, CarriesClaim(c)) + Names(s.frames, c) + s.deleted[c] == Weight(c in s.stored)
  }

  predicate NoneReady(s: Stream) { forall t :: t in s.tasks && s.tasks[t].Ready? ==> !s.tasks[t].frame.Parked? }

  ghost predicate Accounted(s: Stream) { (forall c :: AccountedFor(s, c)) && NoneReady(s) }

  lemma SendNames(frames: seq<Frame>, f: Frame, c: ClaimId)
    ensures Names(frames + [f], c) == Names(frames, c) + Weight(Claims(f, c))
  {
    assert (frames + [f])[..|frames|] == frames;
  }

  lemma StepNoneReady(s: Stream, a: Action)
    requires NoneReady(s) && Step(s, a).Some?
    ensures NoneReady(Step(s, a).value)
  {
    hide ErrOf, TooLarge;
  }

  lemma StepAccounted(s: Stream, a: Action)
    requires Accounted(s) && Step(s, a).Some?
    ensures Accounted(Step(s, a).value)
  {
    hide AccountedFor, Step, NoneReady;
    var t := Step(s, a).value;
    StepNoneReady(s, a);
    forall c
      ensures AccountedFor(t, c)
    {
      StepAccountedFor(s, a, c);
    }
  }

  lemma StepAccountedFor(s: Stream, a: Action, c: ClaimId)
    requires AccountedFor(s, c) && NoneReady(s) && Step(s, a).Some?
    ensures AccountedFor(Step(s, a).value, c)
  {
    hide Count, Names;
    if a.Notify? {
      SendNames(s.frames, Msg(a.body), c);
    } else if a.Tick? {
      SendNames(s.frames, KeepAlive, c);
    } else {
      TaskAccountedFor(s, a, c);
    }
  }

  lemma TaskAccountedFor(s: Stream, a: Action, c: ClaimId)
    requires AccountedFor(s, c) && NoneReady(s) && Step(s, a).Some? && !a.Notify? && !a.Tick?
    ensures AccountedFor(Step(s, a).value, c)
  {
    hide Count, Names, ErrOf, TooLarge;
    CountUpdate(s.tasks, a.task, Step(s, a).value.tasks[a.task], CarriesClaim(c));
    if a.Publish? {
      SendNames(s.frames, s.tasks[a.task].frame, c);
    }
  }

  lemma {:induction false} RunAccounted(l: Limits, acts: seq<Action>)
    requires Run(l, acts).Some?
    ensures Accounted(Run(l, acts).value)
  {
    if acts == [] {
      forall c
        ensures AccountedFor(NewStream(l), c)
      {
        assert Matching(NewStream(l).tasks, CarriesClaim(c)) == {};
      }
    } else {
      RunAccounted(l, acts[..|acts| - 1]);
      StepAccounted(Run(l, acts[..|acts| - 1]).value, acts[|acts| - 1]);
      hide Accounted;
    }
  }

  /** Once no call is still under way, each parked body is named in one end frame or given one Delete, never both. */
  lemma ClaimsConserved(l: Limits, acts: seq<Action>, c: ClaimId)
    requires Run(l, acts).Some? && c in Run(l, acts).value.stored
    requires forall t :: t in Run(l, acts).value.tasks ==> Run(l, acts).value.tasks[t].Over?
    ensures var s := Run(l, acts).value; Names(s.frames, c) + s.deleted[c] == 1
  {
    RunAccounted(l, acts);
    var s := Run(l, acts).value;
    assert AccountedFor(s, c);
    hide Run;
    forall t | t in s.tasks
      ensures !CarriesClaim(c)(s.tasks[t])
    {
    }
    assert Matching(s.tasks, CarriesClaim(c)) == {};
  }
}
