/**
The multiplexer (mux.go): any number of concurrent Calls over one connection, and the one goroutine that
reads from it. A step is one section that holds the mutex, one channel operation, or one read or write.
*/
module MuxModel {
  import opened Common

  type Id = string
  type CallNo = nat

  /** The id and the progress token a call goes by on the connection. */
  function MuxId(n: CallNo): Id { "\"g" + Decimal(n) + "\"" }

  function MuxToken(n: CallNo): Id { "gt" + Decimal(n) }

  /** A response; the result of a closed subscription names the listen request it belonged to. */
  datatype Response = Response(id: Id, subscription: Option<Id>, body: string)

  /** A response as the caller gets it: subscription is what its result then names, from what the connection carried. */
  datatype Reply = Reply(subscription: Option<Id>, from: Response)

  /** A progress notification by its token, or a listen event by its subscription id. */
  datatype Note = Progress(token: Id, body: string) | Event(subscription: Id, body: string)

  datatype Why = Cancelled | Death | WriteFailed | Refused

  datatype Outcome = Answered(id: Id, reply: Reply) | Failed(why: Why)

  datatype Phase =
    | Numbered
    | Writing
    | Waiting
    | Leaving(outcome: Outcome)
    | LastLook(why: Why)
    | Finished(outcome: Outcome)

  /**
  origId and origToken are the caller's own, listens says that its method is subscriptions/listen; resp is
  the one-slot channel; heard what notify was given.
  */
  datatype Call = Call(
    origId: Id, origToken: Option<Id>, listens: bool, phase: Phase, resp: Option<Reply>, heard: seq<Heard>)

  /** A notification as the caller gets it: restored is its own id or token, note what the connection carried. */
  datatype Heard = Heard(restored: Option<Id>, note: Note)

  datatype Reader = Reading | Routing(call: CallNo, msg: Response) | Notifying(call: CallNo, note: Note) | Stopped

  datatype Sys = Sys(
    seqNo: nat, all: map<CallNo, Call>, calls: map<Id, CallNo>, tokens: map<Id, CallNo>, reader: Reader, dead: bool)

  const START: Sys := Sys(0, map[], map[], map[], Reading, false)

  datatype Action =
    | Begin(id: Id, token: Option<Id>, listens: bool)
    | Register(call: CallNo)
    | Write(call: CallNo, ok: bool)
    | TakeResponse(call: CallNo)
    | ContextDone(call: CallNo)
    | SeeDeath(call: CallNo)
    | Unregister(call: CallNo)
    | Look(call: CallNo)
    | ReadResponse(msg: Response)
    | ReadNote(note: Note)
    | ReadFails
    | Put
    | Notify

  /** Only a listen call can close a stream, and only its result names one. */
  function Restored(origId: Id, listens: bool, msg: Response): Reply {
    Reply(if listens && msg.subscription.Some? then Some(origId) else msg.subscription, msg)
  }

  function Set(s: Sys, n: CallNo, c: Call): Sys { s.(all := s.all[n := c]) }

  function Go(s: Sys, n: CallNo, ph: Phase): Sys
    requires n in s.all
  {
    Set(s, n, s.all[n].(phase := ph))
  }

  function CallStep(s: Sys, a: Action): Option<Sys>
    requires a.Register? || a.Write? || a.TakeResponse? || a.ContextDone? || a.SeeDeath? || a.Unregister? || a.Look?
  {
    var n := a.call;
    if n !in s.all then None
    else
      var c := s.all[n];
      match a
      case Register(_) =>
        if !c.phase.Numbered? then None
        else if s.dead then Some(Go(s, n, Finished(Failed(Refused))))
        else
          Some(Go(s, n, Writing).(calls := s.calls[MuxId(n) := n],
                                  tokens := if c.origToken.Some? then s.tokens[MuxToken(n) := n] else s.tokens))
      case Write(_, ok) =>
        if !c.phase.Writing? then None else Some(Go(s, n, if ok then Waiting else Leaving(Failed(WriteFailed))))
      case TakeResponse(_) =>
        if !(c.phase.Waiting? && c.resp.Some?) then None
        else Some(Set(s, n, c.(resp := None, phase := Leaving(Answered(c.origId, c.resp.value)))))
      case ContextDone(_) => if c.phase.Waiting? then Some(Go(s, n, Leaving(Failed(Cancelled)))) else None
      case SeeDeath(_) => if c.phase.Waiting? && s.dead then Some(Go(s, n, Leaving(Failed(Death)))) else None
      case Unregister(_) =>
        if !c.phase.Leaving? then None
        else
          var out := c.phase.outcome;
          Some(Go(s, n, if out.Answered? || out.why.WriteFailed? then Finished(out) else LastLook(out.why)).(
                 calls := s.calls - {MuxId(n)}, tokens := s.tokens - {MuxToken(n)}))
      case Look(_) =>
        if !c.phase.LastLook? then None
        else if c.resp.Some? then Some(Set(s, n, c.(resp := None, phase := Finished(Answered(c.origId, c.resp.value)))))
        else Some(Go(s, n, Finished(Failed(c.phase.why))))
  }

  function Step(s: Sys, a: Action): Option<Sys> {
    match a
    case Begin(id, token, listens) =>
      Some(Set(s, s.seqNo + 1, Call(id, token, listens, Numbered, None, [])).(seqNo := s.seqNo + 1))
    case ReadResponse(msg) =>
      if !s.reader.Reading? then None
      else Some(if msg.id in s.calls then s.(reader := Routing(s.calls[msg.id], msg)) else s)
    case ReadNote(note) =>
      if !s.reader.Reading? then None
      else
        Some(match note
             case Progress(t, _) => if t in s.tokens then s.(reader := Notifying(s.tokens[t], note)) else s
             case Event(id, _) => if id in s.calls then s.(reader := Notifying(s.calls[id], note)) else s)
    case ReadFails => if s.reader.Reading? then Some(s.(reader := Stopped, dead := true)) else None
    case Put =>
      if !(s.reader.Routing? && s.reader.call in s.all) then None
      else
        var c := s.all[s.reader.call];
        var reply := Restored(c.origId, c.listens, s.reader.msg);
        Some(Set(s, s.reader.call, if c.resp.None? then c.(resp := Some(reply)) else c).(reader := Reading))
    case Notify =>
      if !(s.reader.Notifying? && s.reader.call in s.all) then None
      else
        var c := s.all[s.reader.call];
        var own := if s.reader.note.Progress? then c.origToken else Some(c.origId);
        Some(Set(s, s.reader.call, c.(heard := c.heard + [Heard(own, s.reader.note)])).(reader := Reading))
    case _ => CallStep(s, a)
  }

  function Run(acts: seq<Action>): Option<Sys> {
    if acts == [] then Some(START)
    else
      var before := Run(acts[..|acts| - 1]);
      if before.None? then None else Step(before.value, acts[|acts| - 1])
  }

  // ---- Ids are never shared ----

  /** What the digits say, so that no two numbers are written alike. */
  function Undecimal(s: string): nat {
    if s == [] || s[|s| - 1] < '0' then 0 else Undecimal(s[..|s| - 1]) * 10 + (s[|s| - 1] as int - '0' as int)
  }

  lemma {:induction false} DecimalBack(n: nat)
    ensures Undecimal(Decimal(n)) == n
  {
    var s := Decimal(n);
    var d := '0' + (n % 10) as char;
    assert d as int - '0' as int == n % 10;
    if n >= 10 {
      DecimalBack(n / 10);
      assert s[..|s| - 1] == Decimal(n / 10);
    } else {
      assert s[..|s| - 1] == [];
    }
  }

  lemma MuxIdInjective(m: CallNo, n: CallNo)
    ensures MuxId(m) == MuxId(n) ==> m == n
    ensures MuxToken(m) == MuxToken(n) ==> m == n
  {
    DecimalBack(m);
    DecimalBack(n);
    hide Decimal;
    assert MuxId(m)[2..|MuxId(m)| - 1] == Decimal(m) && MuxId(n)[2..|MuxId(n)| - 1] == Decimal(n);
    assert MuxToken(m)[2..] == Decimal(m) && MuxToken(n)[2..] == Decimal(n);
  }

  // ---- Invariants ----

  predicate Carries(note: Note, n: CallNo) {
    match note
    case Progress(t, _) => t == MuxToken(n)
    case Event(id, _) => id == MuxId(n)
  }

  predicate ReplyOk(r: Reply, n: CallNo, c: Call) {
    && r.from.id == MuxId(n)
    && r.subscription == if c.listens && r.from.subscription.Some? then Some(c.origId) else r.from.subscription
  }

  predicate OutcomeOk(o: Outcome, n: CallNo, c: Call) {
    o.Answered? ==> o.id == c.origId && ReplyOk(o.reply, n, c)
  }

  predicate HeardOk(h: Heard, n: CallNo, c: Call) {
    Carries(h.note, n) && h.restored == if h.note.Progress? then c.origToken else Some(c.origId)
  }

  predicate CallOk(c: Call, n: CallNo) {
    && (c.resp.Some? ==> ReplyOk(c.resp.value, n, c))
    && (c.phase.Leaving? || c.phase.Finished? ==> OutcomeOk(c.phase.outcome, n, c))
    && (forall h :: h in c.heard ==> HeardOk(h, n, c))
  }

  predicate Registered(ph: Phase) { ph.Writing? || ph.Waiting? || ph.Leaving? }

  predicate IdOk(s: Sys, id: Id)
    requires id in s.calls
  {
    id == MuxId(s.calls[id]) && s.calls[id] in s.all && Registered(s.all[s.calls[id]].phase)
  }

  predicate TokenOk(s: Sys, t: Id)
    requires t in s.tokens
  {
    t == MuxToken(s.tokens[t]) && s.tokens[t] in s.all && Registered(s.all[s.tokens[t]].phase)
  }

  predicate ReaderOk(s: Sys) {
    && (s.reader.Routing? ==> s.reader.call in s.all && s.reader.msg.id == MuxId(s.reader.call))
    && (s.reader.Notifying? ==> s.reader.call in s.all && Carries(s.reader.note, s.reader.call))
  }

  predicate Inv(s: Sys) {
    && (forall n :: n in s.all ==> n <= s.seqNo && CallOk(s.all[n], n))
    && (forall id :: id in s.calls ==> IdOk(s, id))
    && (forall t :: t in s.tokens ==> TokenOk(s, t))
    && ReaderOk(s)
  }

  /** A step that changes one call at most, and registers nothing. */
  lemma OneCall(s: Sys, t: Sys, n: CallNo)
    requires Inv(s) && n in s.all && n in t.all && t.all == s.all[n := t.all[n]] && CallOk(t.all[n], n)
    requires t.seqNo == s.seqNo && ReaderOk(t)
    requires forall id :: id in t.calls ==> id in s.calls && t.calls[id] == s.calls[id]
    requires forall k :: k in t.tokens ==> k in s.tokens && t.tokens[k] == s.tokens[k]
    requires Registered(t.all[n].phase) || (MuxId(n) !in t.calls && MuxToken(n) !in t.tokens) || !Registered(s.all[n].phase)
    ensures Inv(t)
  {
    forall id | id in t.calls
      ensures IdOk(t, id)
    {
      assert IdOk(s, id);
    }
    forall k | k in t.tokens
      ensures TokenOk(t, k)
    {
      assert TokenOk(s, k);
    }
    hide CallOk, MuxId, MuxToken, Carries;
  }

  lemma RegisterInv(s: Sys, n: CallNo)
    requires Inv(s) && CallStep(s, Register(n)).Some?
    ensures Inv(CallStep(s, Register(n)).value)
  {
    hide MuxId, MuxToken, Carries;
    var t := CallStep(s, Register(n)).value;
    forall id | id in t.calls
      ensures IdOk(t, id)
    {
      assert id in s.calls ==> IdOk(s, id);
    }
    forall k | k in t.tokens
      ensures TokenOk(t, k)
    {
      assert k in s.tokens ==> TokenOk(s, k);
    }
  }

  lemma BeginInv(s: Sys, id: Id, token: Option<Id>, listens: bool)
    requires Inv(s)
    ensures Inv(Step(s, Begin(id, token, listens)).value)
  {
    hide MuxId, MuxToken, Carries;
    var t := Step(s, Begin(id, token, listens)).value;
    forall k | k in t.calls
      ensures IdOk(t, k)
    {
      assert IdOk(s, k);
    }
    forall k | k in t.tokens
      ensures TokenOk(t, k)
    {
      assert TokenOk(s, k);
    }
  }

  lemma CallStepFrame(s: Sys, a: Action)
    requires !a.Register? && (a.Write? || a.TakeResponse? || a.ContextDone? || a.SeeDeath? || a.Unregister? || a.Look?)
    requires CallStep(s, a).Some? && a.call in s.all && CallOk(s.all[a.call], a.call)
    ensures var t := CallStep(s, a).value; var n := a.call;
            && n in t.all && t.all == s.all[n := t.all[n]] && CallOk(t.all[n], n)
            && t.seqNo == s.seqNo && t.reader == s.reader
            && (Registered(t.all[n].phase) || !Registered(s.all[n].phase)
                || (t.calls == s.calls - {MuxId(n)} && t.tokens == s.tokens - {MuxToken(n)}))
            && (forall id :: id in t.calls ==> id in s.calls && t.calls[id] == s.calls[id])
            && (forall k :: k in t.tokens ==> k in s.tokens && t.tokens[k] == s.tokens[k])
  {
    hide MuxId, MuxToken, Carries;
  }

  lemma CallStepInv(s: Sys, a: Action)
    requires Inv(s) && !a.Register?
    requires a.Write? || a.TakeResponse? || a.ContextDone? || a.SeeDeath? || a.Unregister? || a.Look?
    requires CallStep(s, a).Some?
    ensures Inv(CallStep(s, a).value)
  {
    assert a.call in s.all && CallOk(s.all[a.call], a.call);
    assert ReaderOk(s);
    hide MuxId, MuxToken, Carries, Inv;
    CallStepFrame(s, a);
    hide CallStep, CallOk;
    OneCall(s, CallStep(s, a).value, a.call);
  }

  lemma ReadInv(s: Sys, a: Action)
    requires Inv(s) && (a.ReadResponse? || a.ReadNote? || a.ReadFails?) && Step(s, a).Some?
    ensures Inv(Step(s, a).value)
  {
    hide MuxId, MuxToken;
    var t := Step(s, a).value;
    if a.ReadResponse? && a.msg.id in s.calls {
      assert IdOk(s, a.msg.id);
    }
    if a.ReadNote? && a.note.Progress? && a.note.token in s.tokens {
      assert TokenOk(s, a.note.token);
    }
    if a.ReadNote? && a.note.Event? && a.note.subscription in s.calls {
      assert IdOk(s, a.note.subscription);
    }
    assert forall id :: id in t.calls ==> IdOk(s, id) == IdOk(t, id);
    assert forall k :: k in t.tokens ==> TokenOk(s, k) == TokenOk(t, k);
  }

  lemma DeliverInv(s: Sys, a: Action)
    requires Inv(s) && (a.Put? || a.Notify?) && Step(s, a).Some?
    ensures Inv(Step(s, a).value)
  {
    hide MuxId, MuxToken, Carries;
    var t := Step(s, a).value;
    assert CallOk(s.all[s.reader.call], s.reader.call);
    OneCall(s, t, s.reader.call);
  }

  lemma StepInv(s: Sys, a: Action)
    requires Inv(s) && Step(s, a).Some?
    ensures Inv(Step(s, a).value)
  {
    hide Inv, CallStep;
    match a
    case Begin(id, token, listens) => BeginInv(s, id, token, listens);
    case Register(n) => RegisterInv(s, n);
    case ReadResponse(_) => ReadInv(s, a);
    case ReadNote(_) => ReadInv(s, a);
    case ReadFails => ReadInv(s, a);
    case Put => DeliverInv(s, a);
    case Notify => DeliverInv(s, a);
    case _ => CallStepInv(s, a);
  }

  lemma {:induction false} RunInv(acts: seq<Action>)
    requires Run(acts).Some?
    ensures Inv(Run(acts).value)
  {
    if acts != [] {
      RunInv(acts[..|acts| - 1]);
      StepInv(Run(acts[..|acts| - 1]).value, acts[|acts| - 1]);
      hide Inv, Step;
    }
  }

  // ---- Theorems ----

  /**
  A call is answered only by a response to its own id, with the caller's id restored, in the result of a
  closed subscription too; no two calls by one id.
  */
  lemma OwnAnswer(acts: seq<Action>, m: CallNo, n: CallNo)
    requires Run(acts).Some? && m in Run(acts).value.all && n in Run(acts).value.all
    requires var s := Run(acts).value;
             s.all[m].phase.Finished? && s.all[m].phase.outcome.Answered? && s.all[n].phase.Finished? && s.all[n].phase.outcome.Answered?
    ensures var c := Run(acts).value.all[n]; var out := c.phase.outcome;
            && out.id == c.origId && out.reply.from.id == MuxId(n)
            && (c.listens && out.reply.from.subscription.Some? ==> out.reply.subscription == Some(out.id))
            && (!c.listens || out.reply.from.subscription.None? ==> out.reply.subscription == out.reply.from.subscription)
            && (Run(acts).value.all[m].phase.outcome.reply.from.id == out.reply.from.id ==> m == n)
  {
    RunInv(acts);
    var s := Run(acts).value;
    assert CallOk(s.all[m], m) && CallOk(s.all[n], n);
    MuxIdInjective(m, n);
    hide Run, MuxId;
  }

  /** A caller hears only what carries its own token or id, under the token or id it chose. */
  lemma OwnNotices(acts: seq<Action>, n: CallNo, h: Heard)
    requires Run(acts).Some? && n in Run(acts).value.all && h in Run(acts).value.all[n].heard
    ensures Carries(h.note, n) && forall m: CallNo :: m != n ==> !Carries(h.note, m)
    ensures h.restored == if h.note.Progress? then Run(acts).value.all[n].origToken else Some(Run(acts).value.all[n].origId)
  {
    RunInv(acts);
    var s := Run(acts).value;
    assert CallOk(s.all[n], n) && HeardOk(h, n, s.all[n]);
    hide Run;
    forall m: CallNo | m != n
      ensures !Carries(h.note, m)
    {
      MuxIdInjective(m, n);
    }
  }

  /** No registration outlives its call. */
  lemma NoRegistrationLeft(acts: seq<Action>, n: CallNo)
    requires Run(acts).Some? && n in Run(acts).value.all && Run(acts).value.all[n].phase.Finished?
    ensures var s := Run(acts).value;
            && (forall id :: id in s.calls ==> s.calls[id] != n) && (forall t :: t in s.tokens ==> s.tokens[t] != n)
  {
    RunInv(acts);
    var s := Run(acts).value;
    assert forall id :: id in s.calls ==> IdOk(s, id);
    assert forall t :: t in s.tokens ==> TokenOk(s, t);
    hide Run, MuxId, MuxToken;
  }

  // ---- A delivered response wins ----

  /** A call that has not registered yet has no response, and none is being routed to it. */
  predicate Started(s: Sys) {
    && (forall n :: n in s.all && s.all[n].phase.Numbered? ==> s.all[n].resp.None?)
    && (s.reader.Routing? && s.reader.call in s.all ==> !s.all[s.reader.call].phase.Numbered?)
  }

  lemma StepStarted(s: Sys, a: Action)
    requires Inv(s) && Started(s) && Step(s, a).Some?
    ensures Started(Step(s, a).value)
  {
    hide MuxId, MuxToken, Carries, CallOk;
    if a.ReadResponse? && a.msg.id in s.calls {
      assert IdOk(s, a.msg.id);
    }
  }

  lemma {:induction false} RunStarted(acts: seq<Action>)
    requires Run(acts).Some?
    ensures Inv(Run(acts).value) && Started(Run(acts).value)
  {
    RunInv(acts);
    if acts != [] {
      RunStarted(acts[..|acts| - 1]);
      StepStarted(Run(acts[..|acts| - 1]).value, acts[|acts| - 1]);
      hide Inv, Started, Step;
    }
  }

  predicate Interrupted(why: Why) { why.Cancelled? || why.Death? }

  /** What the call returns is settled: a response it took, or its failed write. */
  predicate Settled(ph: Phase, out: Outcome) { ph == Leaving(out) || ph == Finished(out) }

  /** r lies in the channel, and the call has yet to look: it was not cut short, or only by its context or the connection. */
  predicate Holds(c: Call, r: Reply) {
    && c.resp == Some(r)
    && (c.phase.Writing? || c.phase.Waiting? || (c.phase.LastLook? && Interrupted(c.phase.why))
        || (c.phase.Leaving? && c.phase.outcome.Failed? && Interrupted(c.phase.outcome.why)))
  }

  /** What a call that holds r comes to: nothing but its own failed write keeps it from r. */
  function Verdict(c: Call, r: Reply, wrote: bool): Outcome {
    if wrote then Answered(c.origId, r) else Failed(WriteFailed)
  }

  predicate Kept(c: Call, origId: Id, r: Reply, wrote: bool) {
    && c.origId == origId
    && (if wrote then Holds(c, r) || Settled(c.phase, Answered(origId, r)) else Settled(c.phase, Failed(WriteFailed)))
  }

  predicate OwnMove(a: Action, n: CallNo) {
    (a.Register? || a.Write? || a.TakeResponse? || a.ContextDone? || a.SeeDeath? || a.Unregister? || a.Look?) && a.call == n
  }

  /** Other calls leave a call alone; the reader only fills an empty channel or adds to what was heard. */
  lemma OthersLeave(s: Sys, a: Action, n: CallNo)
    requires Inv(s) && n in s.all && !OwnMove(a, n) && Step(s, a).Some?
    ensures n in Step(s, a).value.all
    ensures var c, d := s.all[n], Step(s, a).value.all[n];
            d.phase == c.phase && d.origId == c.origId && (c.resp.Some? ==> d.resp == c.resp)
  {
    hide MuxId, MuxToken, Carries, CallOk, ReaderOk;
  }

  lemma OwnKept(s: Sys, a: Action, n: CallNo, origId: Id, r: Reply, wrote: bool)
    requires n in s.all && Kept(s.all[n], origId, r, wrote) && OwnMove(a, n) && CallStep(s, a).Some?
    ensures var t := CallStep(s, a).value; n in t.all && Kept(t.all[n], origId, r, wrote && a != Write(n, false))
  {
    hide MuxId, MuxToken;
  }

  /** Cancellation, death, duplicates and every step of other calls leave it so. */
  lemma StepKept(s: Sys, a: Action, n: CallNo, origId: Id, r: Reply, wrote: bool)
    requires Inv(s) && n in s.all && Kept(s.all[n], origId, r, wrote) && Step(s, a).Some?
    ensures n in Step(s, a).value.all && Kept(Step(s, a).value.all[n], origId, r, wrote && a != Write(n, false))
  {
    hide Inv, CallStep;
    if OwnMove(a, n) {
      OwnKept(s, a, n, origId, r, wrote);
    } else {
      OthersLeave(s, a, n);
      hide Step;
    }
  }

  lemma RunMore(acts: seq<Action>, more: seq<Action>)
    requires more != [] && Run(acts + more).Some?
    ensures var front := acts + more[..|more| - 1];
            Run(front).Some? && Step(Run(front).value, more[|more| - 1]) == Run(acts + more)
  {
    assert (acts + more)[..|acts + more| - 1] == acts + more[..|more| - 1];
  }

  lemma {:induction false} RunKept(acts: seq<Action>, more: seq<Action>, n: CallNo, r: Reply)
    requires Run(acts).Some? && n in Run(acts).value.all && Holds(Run(acts).value.all[n], r) && Run(acts + more).Some?
    ensures n in Run(acts + more).value.all
    ensures Kept(Run(acts + more).value.all[n], Run(acts).value.all[n].origId, r, Write(n, false) !in more)
    decreases |more|
  {
    hide Run, Step, Inv;
    if more == [] {
      assert acts + more == acts;
    } else {
      var front, a := more[..|more| - 1], more[|more| - 1];
      RunMore(acts, more);
      RunKept(acts, front, n, r);
      RunInv(acts + front);
      StepKept(Run(acts + front).value, a, n, Run(acts).value.all[n].origId, r, Write(n, false) !in front);
      assert more == front + [a];
      hide Kept, Holds;
    }
  }

  lemma StepSettled(s: Sys, a: Action, n: CallNo, out: Outcome)
    requires Inv(s) && n in s.all && Settled(s.all[n].phase, out) && Step(s, a).Some?
    requires out.Answered? || out.why.WriteFailed?
    ensures n in Step(s, a).value.all && Settled(Step(s, a).value.all[n].phase, out)
  {
    hide MuxId, MuxToken, Inv;
    if !OwnMove(a, n) {
      OthersLeave(s, a, n);
      hide Step;
    }
  }

  lemma {:induction false} RunSettled(acts: seq<Action>, more: seq<Action>, n: CallNo, out: Outcome)
    requires Run(acts).Some? && n in Run(acts).value.all && Settled(Run(acts).value.all[n].phase, out)
    requires (out.Answered? || out.why.WriteFailed?) && Run(acts + more).Some?
    ensures n in Run(acts + more).value.all && Settled(Run(acts + more).value.all[n].phase, out)
    decreases |more|
  {
    hide Run, Step, Inv, Settled;
    if more == [] {
      assert acts + more == acts;
    } else {
      RunMore(acts, more);
      RunSettled(acts, more[..|more| - 1], n, out);
      RunInv(acts + more[..|more| - 1]);
      StepSettled(Run(acts + more[..|more| - 1]).value, more[|more| - 1], n, out);
    }
  }

  /** Only a context or the connection calls for a last look; only an unregistered call is refused. */
  predicate Reasoned(s: Sys) {
    forall n :: n in s.all ==>
      && (s.all[n].phase.LastLook? ==> Interrupted(s.all[n].phase.why))
      && (s.all[n].phase.Leaving? && s.all[n].phase.outcome.Failed? ==> !s.all[n].phase.outcome.why.Refused?)
  }

  lemma StepReasoned(s: Sys, a: Action)
    requires Reasoned(s) && Step(s, a).Some?
    ensures Reasoned(Step(s, a).value)
  {
    hide MuxId, MuxToken;
  }

  lemma {:induction false} RunReasoned(acts: seq<Action>)
    requires Run(acts).Some?
    ensures Reasoned(Run(acts).value)
  {
    if acts != [] {
      RunReasoned(acts[..|acts| - 1]);
      StepReasoned(Run(acts[..|acts| - 1]).value, acts[|acts| - 1]);
      hide Reasoned, Step;
    }
  }

  predicate Written(ph: Phase) { !ph.Numbered? && !ph.Writing? }

  lemma StepWritten(s: Sys, a: Action, n: CallNo)
    requires Inv(s) && n in s.all && Written(s.all[n].phase) && Step(s, a).Some?
    ensures n in Step(s, a).value.all && Written(Step(s, a).value.all[n].phase) && a != Write(n, false)
  {
    hide MuxId, MuxToken, Inv;
    if !OwnMove(a, n) {
      OthersLeave(s, a, n);
      hide Step;
    }
  }

  /** A call writes once. */
  lemma {:induction false} RunWritten(acts: seq<Action>, more: seq<Action>, n: CallNo)
    requires Run(acts).Some? && n in Run(acts).value.all && Written(Run(acts).value.all[n].phase) && Run(acts + more).Some?
    ensures n in Run(acts + more).value.all && Written(Run(acts + more).value.all[n].phase) && Write(n, false) !in more
    decreases |more|
  {
    hide Run, Step, Inv, Written;
    if more == [] {
      assert acts + more == acts;
    } else {
      var front, a := more[..|more| - 1], more[|more| - 1];
      RunMore(acts, more);
      RunWritten(acts, front, n);
      RunInv(acts + front);
      StepWritten(Run(acts + front).value, a, n);
      assert more == front + [a];
    }
  }

  /** Where an unfinished call with a response in its channel stands. */
  lemma HoldsOrSettled(s: Sys, n: CallNo)
    requires Started(s) && Reasoned(s) && n in s.all && !s.all[n].phase.Finished? && s.all[n].resp.Some?
    ensures var c := s.all[n];
            Holds(c, c.resp.value) || (c.phase.Leaving? && (c.phase.outcome.Answered? || c.phase.outcome.why.WriteFailed?))
  {
  }

  /**
  A response in the channel of an unfinished call at any point of a run wins over whatever follows -
  cancellation, death, duplicates, other calls - and is what the call returns under the caller's id, unless
  the call's own write fails. A call that had settled before it came returns what it had settled on.
  */
  lemma DeliveredWins(acts: seq<Action>, more: seq<Action>, n: CallNo)
    requires Run(acts).Some? && n in Run(acts).value.all && Run(acts + more).Some?
    requires !Run(acts).value.all[n].phase.Finished? && Run(acts).value.all[n].resp.Some?
    ensures n in Run(acts + more).value.all
    ensures var c := Run(acts).value.all[n]; var end := Run(acts + more).value.all[n].phase;
            end.Finished? ==>
              if c.phase.Leaving? && (c.phase.outcome.Answered? || c.phase.outcome.why.WriteFailed?)
              then end.outcome == c.phase.outcome
              else end.outcome == Verdict(c, c.resp.value, Write(n, false) !in more)
    ensures var c := Run(acts).value.all[n]; !c.phase.Writing? ==> Write(n, false) !in more
  {
    RunStarted(acts);
    RunReasoned(acts);
    var c := Run(acts).value.all[n];
    HoldsOrSettled(Run(acts).value, n);
    hide Run, Inv, Started, Reasoned, Holds;
    if c.phase.Leaving? && (c.phase.outcome.Answered? || c.phase.outcome.why.WriteFailed?) {
      RunSettled(acts, more, n, c.phase.outcome);
    } else {
      RunKept(acts, more, n, c.resp.value);
    }
    if !c.phase.Writing? {
      RunWritten(acts, more, n);
    }
  }

  /** A call that ended as cancelled or dead had no response in its channel at any point of its run. */
  lemma CancelledHadNone(acts: seq<Action>, k: nat, n: CallNo)
    requires k <= |acts| && Run(acts).Some? && n in Run(acts).value.all
    requires Run(acts).value.all[n].phase in {Finished(Failed(Cancelled)), Finished(Failed(Death))}
    requires Run(acts[..k]).Some? && n in Run(acts[..k]).value.all && !Run(acts[..k]).value.all[n].phase.Finished?
    ensures Run(acts[..k]).value.all[n].resp.None?
  {
    hide Run;
    assert acts == acts[..k] + acts[k..];
    if Run(acts[..k]).value.all[n].resp.Some? {
      DeliveredWins(acts[..k], acts[k..], n);
    }
  }
}
