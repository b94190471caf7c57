/**
Requests through dispatch, and Shutdown (server.go:367-482): which requests are counted, and that each
one handed over with a usable reply subject claims its terminal frame.
*/
module Dispatch {
  import opened Common
  import E = ErrFrame
  import S = StreamModel

  type ReqId = int

  /**
  Where one request is: handed over by micro, refused by the drain, on its own goroutine, in the handler,
  answered for by dispatch itself with task, or left. All between Started and Left are counted.
  */
  datatype Phase =
    | Handed
    | Refused
    | RefusalOut(task: S.TaskId, id: string)
    | Started
    | Handling
    | Fallback(task: S.TaskId)
    | Left

  datatype Request = Request(usable: bool, phase: Phase, stream: S.Stream)

  /** wg is the WaitGroup's counter; sawZero says that Shutdown's wait returned. */
  datatype Sys = Sys(requests: map<ReqId, Request>, draining: bool, wg: int, sawZero: bool)

  const START: Sys := Sys(map[], false, 0, false)

  datatype Action =
    | Arrive(req: ReqId, usable: bool, limits: S.Limits)
    | Begin(req: ReqId)
    | Refuse(req: ReqId, task: S.TaskId, id: string)
    | RefuseEnds(req: ReqId)
    | Drop(req: ReqId)
    | Reject(req: ReqId, task: S.TaskId, report: E.Report)
    | Handle(req: ReqId)
    | OnStream(req: ReqId, act: S.Action)
    | ReturnDone(req: ReqId)
    | ReturnCancelled(req: ReqId, task: S.TaskId)
    | ReturnErr(req: ReqId, task: S.TaskId, report: E.Report)
    | Finish(req: ReqId)
    | Drain
    | SeeZero

  function Draining(id: string): E.Report {
    E.Report(id, -32010, "gateway draining, re-issue the request", None, true)
  }

  predicate Counted(r: Request) { r.phase.Started? || r.phase.Handling? || r.phase.Fallback? }

  function Set(s: Sys, id: ReqId, r: Request): Sys { s.(requests := s.requests[id := r]) }

  function Move(s: Sys, id: ReqId, ph: Phase): Sys
    requires id in s.requests
  {
    Set(s, id, s.requests[id].(phase := ph))
  }

  /** Dispatch calls End or Err itself, with a task of its own. */
  function Begun(s: Sys, id: ReqId, ph: Phase, act: S.Action): Option<Sys>
    requires id in s.requests
  {
    var st := S.Step(s.requests[id].stream, act);
    if st.None? then None else Some(Set(s, id, s.requests[id].(phase := ph, stream := st.value)))
  }

  predicate TaskOver(r: Request, t: S.TaskId) { t in r.stream.tasks && r.stream.tasks[t].Over? }

  /** Nobody has the stream before dispatch or the refusal writes to it; a refusal only ends its own call. */
  predicate Reached(r: Request, act: S.Action) {
    match r.phase
    case Handed => false
    case Refused => false
    case RefusalOut(t, _) => act == S.Claim(t) || act == S.Publish(t)
    case Started => false
    case _ => true
  }

  function Step(s: Sys, a: Action): Option<Sys> {
    match a
    case Arrive(id, usable, l) =>
      if id in s.requests then None else Some(Set(s, id, Request(usable, Handed, S.NewStream(l))))
    case Drain => Some(s.(draining := true))
    case SeeZero => if s.draining && s.wg == 0 then Some(s.(sawZero := true)) else None
    case _ => if a.req in s.requests then RequestStep(s, a, s.requests[a.req]) else None
  }

  function RequestStep(s: Sys, a: Action, r: Request): Option<Sys>
    requires !a.Arrive? && !a.Drain? && !a.SeeZero? && a.req in s.requests && s.requests[a.req] == r
  {
    match a
    case Begin(id) =>
      if !r.phase.Handed? then None
      else if s.draining then Some(Move(s, id, Refused))
      else Some(Move(s, id, Started).(wg := s.wg + 1))
    case Refuse(id, t, jsonId) =>
      if !r.phase.Refused? then None
      else if !r.usable then Some(Move(s, id, Left))
      else Begun(s, id, RefusalOut(t, jsonId), S.CallErr(t, Draining(jsonId)))
    case RefuseEnds(id) => if r.phase.RefusalOut? && TaskOver(r, r.phase.task) then Some(Move(s, id, Left)) else None
    case Drop(id) => if r.phase.Started? && !r.usable then Some(Move(s, id, Left).(wg := s.wg - 1)) else None
    case Reject(id, t, report) =>
      if r.phase.Started? && r.usable then Begun(s, id, Fallback(t), S.CallErr(t, report)) else None
    case Handle(id) => if r.phase.Started? && r.usable then Some(Move(s, id, Handling)) else None
    case OnStream(id, act) => if r.usable && Reached(r, act) then Begun(s, id, r.phase, act) else None
    case ReturnDone(id) =>
      if r.phase.Handling? && r.stream.done then Some(Move(s, id, Left).(wg := s.wg - 1)) else None
    case ReturnCancelled(id, t) =>
      if r.phase.Handling? && !r.stream.done then Begun(s, id, Fallback(t), S.CallEnd(t, "")) else None
    case ReturnErr(id, t, report) =>
      if r.phase.Handling? && !r.stream.done then Begun(s, id, Fallback(t), S.CallErr(t, report)) else None
    case Finish(id) =>
      if r.phase.Fallback? && TaskOver(r, r.phase.task) then Some(Move(s, id, Left).(wg := s.wg - 1)) else None
  }

  function Run(acts: seq<Action>): Option<Sys> {
    if acts == [] then Some(START)
    else
      var before := Run(acts[..|acts| - 1]);
      if before.None? then None else Step(before.value, acts[|acts| - 1])
  }

  // ---- Invariants ----

  function IsCounted(): Request -> bool { (r: Request) => Counted(r) }

  predicate RequestOk(r: Request) { S.Shaped(r.stream) && (r.usable && r.phase.Left? ==> r.stream.done) }

  predicate Inv(s: Sys) {
    && s.wg == Count(s.requests, IsCounted())
    && (s.sawZero ==> s.draining && s.wg == 0)
    && (forall id :: id in s.requests ==> RequestOk(s.requests[id]))
  }

  lemma NewStreamShaped(l: S.Limits)
    ensures S.Shaped(S.NewStream(l))
  {
  }

  lemma StepTouchesOne(s: Sys, a: Action)
    requires Step(s, a).Some? && !a.Drain? && !a.SeeZero?
    ensures var t := Step(s, a).value;
            && a.req in t.requests && t.requests == s.requests[a.req := t.requests[a.req]]
            && t.draining == s.draining && t.sawZero == s.sawZero
            && t.wg == s.wg - Weight(a.req in s.requests && Counted(s.requests[a.req])) + Weight(Counted(t.requests[a.req]))
            && (s.draining && !(a.req in s.requests && Counted(s.requests[a.req])) ==> !Counted(t.requests[a.req]))
  {
  }

  lemma StepKeepsRequest(s: Sys, a: Action)
    requires Inv(s) && Step(s, a).Some? && !a.Drain? && !a.SeeZero?
    ensures var t := Step(s, a).value; a.req in t.requests && RequestOk(t.requests[a.req])
  {
    StepTouchesOne(s, a);
    var t := Step(s, a).value;
    if a.Arrive? {
      NewStreamShaped(a.limits);
    } else {
      var r, r' := s.requests[a.req], t.requests[a.req];
      assert RequestOk(r);
      var act := if a.OnStream? then a.act
                 else if a.Refuse? then S.CallErr(a.task, Draining(a.id))
                 else if a.Reject? || a.ReturnErr? then S.CallErr(a.task, a.report)
                 else if a.ReturnCancelled? then S.CallEnd(a.task, "")
                 else S.Tick;
      assert r'.stream == r.stream || (S.Step(r.stream, act).Some? && r'.stream == S.Step(r.stream, act).value) by {
        hide S.Shaped, S.Step;
      }
      if S.Step(r.stream, act).Some? {
        S.StepShaped(r.stream, act);
        DoneStays(r.stream, act);
      }
      OverIsDone(r);
      hide S.Shaped, S.Step;
    }
  }

  lemma DoneStays(st: S.Stream, act: S.Action)
    requires S.Step(st, act).Some?
    ensures st.done ==> S.Step(st, act).value.done
  {
  }

  lemma OverIsDone(r: Request)
    requires S.Shaped(r.stream)
    ensures forall t :: TaskOver(r, t) ==> r.stream.done
  {
  }

  lemma StepInv(s: Sys, a: Action)
    requires Inv(s) && Step(s, a).Some?
    ensures Inv(Step(s, a).value)
  {
    if !a.Drain? && !a.SeeZero? {
      StepTouchesOne(s, a);
      StepKeepsRequest(s, a);
      var t := Step(s, a).value;
      CountUpdate(s.requests, a.req, t.requests[a.req], IsCounted());
      if s.sawZero {
        NoneCounted(s);
      }
    }
    hide Count, RequestOk, RequestStep;
  }

  lemma NoneCounted(s: Sys)
    requires s.wg == 0 == Count(s.requests, IsCounted())
    ensures forall id :: id in s.requests ==> !Counted(s.requests[id])
  {
    forall id | id in s.requests
      ensures !Counted(s.requests[id])
    {
      assert id !in Matching(s.requests, IsCounted());
    }
  }

  lemma {:induction false} RunInv(acts: seq<Action>)
    requires Run(acts).Some?
    ensures Inv(Run(acts).value)
  {
    if acts == [] {
      assert Matching(START.requests, IsCounted()) == {};
    } else {
      RunInv(acts[..|acts| - 1]);
      StepInv(Run(acts[..|acts| - 1]).value, acts[|acts| - 1]);
      hide Inv, Step;
    }
  }

  /** Once draining, the counter only falls. */
  lemma DrainFalls(acts: seq<Action>, a: Action)
    requires Run(acts).Some? && Run(acts).value.draining && Step(Run(acts).value, a).Some?
    ensures Step(Run(acts).value, a).value.wg <= Run(acts).value.wg && Step(Run(acts).value, a).value.draining
  {
  }

  /** If Shutdown saw zero, then in that state and every later one no request is past beginRequest. */
  lemma NoHandlerAfterZero(acts: seq<Action>, id: ReqId)
    requires Run(acts).Some? && Run(acts).value.sawZero && id in Run(acts).value.requests
    ensures !Counted(Run(acts).value.requests[id])
  {
    RunInv(acts);
    NoneCounted(Run(acts).value);
    hide Run;
  }

  // ---- Refusals ----

  lemma {:induction false} DrainingIs(acts: seq<Action>)
    requires Run(acts).Some?
    ensures Run(acts).value.draining <==> Drain in acts
  {
    if acts != [] {
      var front, a := acts[..|acts| - 1], acts[|acts| - 1];
      assert acts == front + [a];
      DrainingIs(front);
      if !a.Drain? && !a.SeeZero? {
        StepTouchesOne(Run(front).value, a);
        hide Step;
      }
    }
  }

  /** A request that micro hands over is refused exactly if Shutdown drains, and goes to its own goroutine otherwise. */
  lemma BegunExactly(acts: seq<Action>, id: ReqId)
    requires Run(acts + [Begin(id)]).Some?
    ensures Run(acts).Some? && id in Run(acts).value.requests
    ensures Run(acts + [Begin(id)]).value.requests
      == Run(acts).value.requests[id := Run(acts).value.requests[id].(phase := if Drain in acts then Refused else Started)]
  {
    assert (acts + [Begin(id)])[..|acts|] == acts;
    DrainingIs(acts);
  }

  /** The error that a refused request gets. */
  function Goodbye(l: S.Limits, id: string): S.Frame {
    S.Frame.Err(E.Answered(l.codec, E.Report(id, -32010, "gateway draining, re-issue the request", None, true), l.maxPayload))
  }

  /** Task t sends f, and nothing else has been sent. */
  ghost predicate Sends(st: S.Stream, t: S.TaskId, f: S.Frame) {
    && t in st.tasks
    && (match st.tasks[t]
        case Ready(g) => g == f && st.frames == [] && !st.done
        case Sending(g) => g == f && st.frames == []
        case Over => st.frames == [f]
        case _ => false)
  }

  ghost predicate Untouched(r: Request) {
    match r.phase
    case Handed => r.stream == S.NewStream(r.stream.limits)
    case Refused => r.stream == S.NewStream(r.stream.limits)
    case RefusalOut(t, id) => Sends(r.stream, t, Goodbye(r.stream.limits, id))
    case _ => true
  }

  lemma SendsOn(st: S.Stream, t: S.TaskId, f: S.Frame, act: S.Action)
    requires Sends(st, t, f) && (act == S.Claim(t) || act == S.Publish(t)) && S.Step(st, act).Some?
    ensures S.Step(st, act).value.limits == st.limits && Sends(S.Step(st, act).value, t, f)
  {
  }

  lemma RefusalSends(l: S.Limits, t: S.TaskId, id: string)
    ensures var st := S.Step(S.NewStream(l), S.CallErr(t, Draining(id)));
            st.Some? && st.value.limits == l && Sends(st.value, t, Goodbye(l, id))
  {
    hide E.Answered;
  }

  lemma RefusalStep(s: Sys, a: Action)
    requires Step(s, a).Some? && !a.Drain? && !a.SeeZero? && (a.req in s.requests ==> Untouched(s.requests[a.req]))
    ensures a.req in Step(s, a).value.requests && Untouched(Step(s, a).value.requests[a.req])
  {
    hide S.Step, Sends, Goodbye, Draining;
    if a.req in s.requests {
      var r := s.requests[a.req];
      if a.OnStream? && r.phase.RefusalOut? {
        SendsOn(r.stream, r.phase.task, Goodbye(r.stream.limits, r.phase.id), a.act);
      }
      if a.Refuse? && r.phase.Refused? {
        RefusalSends(r.stream.limits, a.task, a.id);
      }
    }
  }

  lemma {:induction false} RunUntouched(acts: seq<Action>, id: ReqId)
    requires Run(acts).Some? && id in Run(acts).value.requests
    ensures Untouched(Run(acts).value.requests[id])
  {
    var front, a := acts[..|acts| - 1], acts[|acts| - 1];
    var s := Run(front).value;
    if id in s.requests {
      RunUntouched(front, id);
    }
    if !a.Drain? && !a.SeeZero? {
      StepTouchesOne(s, a);
      if a.req == id {
        RefusalStep(s, a);
      }
      hide Step, Untouched;
    }
  }

  /** A refused request is told so: once its call is over, the error that asks it to come again is all it has been sent. */
  lemma RefusedIsTold(acts: seq<Action>, id: ReqId)
    requires Run(acts).Some? && id in Run(acts).value.requests && Run(acts).value.requests[id].phase.RefusalOut?
    ensures var r := Run(acts).value.requests[id];
            r.stream.frames == if TaskOver(r, r.phase.task) then [Goodbye(r.stream.limits, r.phase.id)] else []
  {
    RunUntouched(acts, id);
    hide Run, Goodbye;
  }

  /** A handler that returns after its caller cancelled, with its stream still open, has it ended by an empty body. */
  lemma CancelledEndsEmpty(acts: seq<Action>, id: ReqId, t: S.TaskId)
    requires Run(acts + [ReturnCancelled(id, t)]).Some?
    ensures Run(acts).Some? && id in Run(acts).value.requests
    ensures var r, r' := Run(acts).value.requests[id], Run(acts + [ReturnCancelled(id, t)]).value.requests[id];
            && !r.stream.done && r'.phase == Fallback(t) && t in r'.stream.tasks
            && (S.END_OVERHEAD <= r.stream.limits.maxPayload ==> r'.stream.tasks[t] == S.Ready(S.End("")))
  {
    assert (acts + [ReturnCancelled(id, t)])[..|acts|] == acts;
    hide S.ErrOf, S.TooLarge;
  }

  // ---- Terminals ----

  /** A request that has left with a usable reply subject has claimed its terminal, and once its calls are over has sent exactly one. */
  lemma EveryRequestAnswered(acts: seq<Action>, id: ReqId)
    requires Run(acts).Some? && id in Run(acts).value.requests
    requires Run(acts).value.requests[id].usable && Run(acts).value.requests[id].phase.Left?
    ensures var st := Run(acts).value.requests[id].stream;
            && st.done
            && (forall i :: 0 <= i < |st.frames| && S.Terminal(st.frames[i]) ==> i == |st.frames| - 1)
            && ((forall t :: t in st.tasks ==> st.tasks[t].Over?) ==> S.Ended(st))
  {
    RunInv(acts);
    var r := Run(acts).value.requests[id];
    assert RequestOk(r);
    hide Run;
    if forall t :: t in r.stream.tasks ==> r.stream.tasks[t].Over? {
      assert Matching(r.stream.tasks, S.IsSending()) == {};
    }
  }
}
