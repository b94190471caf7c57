/** What the connection carries to a call that is registered reaches it: the other half of the correlation. */
module MuxRouting {
  import opened Common
  import opened MuxModel

  /** A registered call is found under its id, and under its token if its caller sent one. */
  predicate Filed(s: Sys, n: CallNo)
    requires n in s.all
  {
    Registered(s.all[n].phase) ==>
      && MuxId(n) in s.calls && s.calls[MuxId(n)] == n
      && (s.all[n].origToken.Some? ==> MuxToken(n) in s.tokens && s.tokens[MuxToken(n)] == n)
      && (s.all[n].origToken.None? ==> MuxToken(n) !in s.tokens)
  }

  predicate Fresh(s: Sys) {
    && (forall n :: n in s.all ==> n <= s.seqNo && Filed(s, n))
    && (forall n: CallNo :: n in s.all && s.all[n].phase.Numbered? ==> MuxToken(n) !in s.tokens)
    && (forall t :: t in s.tokens ==> s.tokens[t] in s.all)
  }

  lemma OthersFiled(s: Sys, t: Sys, n: CallNo, m: CallNo)
    requires m in s.all && m != n && Filed(s, m) && m in t.all && t.all[m] == s.all[m]
    requires t.calls == s.calls || t.calls == s.calls - {MuxId(n)} || t.calls == s.calls[MuxId(n) := n]
    requires t.tokens == s.tokens || t.tokens == s.tokens - {MuxToken(n)} || t.tokens == s.tokens[MuxToken(n) := n]
    ensures Filed(t, m) && (MuxToken(m) in t.tokens ==> MuxToken(m) in s.tokens)
  {
    MuxIdInjective(m, n);
    hide MuxId, MuxToken;
  }

  /** A step of a call leaves the others and their registrations alone. */
  lemma CallFrame(s: Sys, a: Action)
    requires a.Register? || a.Write? || a.TakeResponse? || a.ContextDone? || a.SeeDeath? || a.Unregister? || a.Look?
    requires CallStep(s, a).Some?
    ensures var t, n := CallStep(s, a).value, a.call;
            && n in s.all && t.all == s.all[n := t.all[n]] && t.seqNo == s.seqNo && !t.all[n].phase.Numbered?
            && (t.calls == s.calls || t.calls == s.calls - {MuxId(n)} || t.calls == s.calls[MuxId(n) := n])
            && (t.tokens == s.tokens || t.tokens == s.tokens - {MuxToken(n)} || t.tokens == s.tokens[MuxToken(n) := n])
  {
    hide MuxId, MuxToken;
  }

  lemma OwnFiled(s: Sys, a: Action)
    requires a.Register? || a.Write? || a.TakeResponse? || a.ContextDone? || a.SeeDeath? || a.Unregister? || a.Look?
    requires CallStep(s, a).Some? && a.call in s.all && Filed(s, a.call)
    requires s.all[a.call].phase.Numbered? ==> MuxToken(a.call) !in s.tokens
    ensures a.call in CallStep(s, a).value.all && Filed(CallStep(s, a).value, a.call)
  {
    hide MuxId, MuxToken;
  }

  lemma CallFiled(s: Sys, a: Action)
    requires Fresh(s)
    requires a.Register? || a.Write? || a.TakeResponse? || a.ContextDone? || a.SeeDeath? || a.Unregister? || a.Look?
    requires CallStep(s, a).Some?
    ensures Fresh(CallStep(s, a).value)
  {
    hide MuxId, MuxToken, CallStep;
    CallFrame(s, a);
    var t, n := CallStep(s, a).value, a.call;
    assert Filed(s, n);
    OwnFiled(s, a);
    forall m | m in t.all
      ensures m <= t.seqNo && Filed(t, m) && (t.all[m].phase.Numbered? ==> MuxToken(m) !in t.tokens)
    {
      if m != n {
        assert Filed(s, m);
        OthersFiled(s, t, n, m);
      }
    }
  }

  lemma BeginFiled(s: Sys, id: Id, token: Option<Id>, listens: bool)
    requires Inv(s) && Fresh(s)
    ensures Fresh(Step(s, Begin(id, token, listens)).value)
  {
    var t := Step(s, Begin(id, token, listens)).value;
    assert MuxToken(t.seqNo) !in s.tokens by {
      if MuxToken(t.seqNo) in s.tokens {
        assert TokenOk(s, MuxToken(t.seqNo));
        MuxIdInjective(t.seqNo, s.tokens[MuxToken(t.seqNo)]);
      }
    }
    forall m | m in s.all
      ensures Filed(t, m)
    {
      assert Filed(s, m);
    }
    hide MuxId, MuxToken, Inv;
  }

  lemma SameFiled(s: Sys, t: Sys)
    requires Fresh(s) && t.calls == s.calls && t.tokens == s.tokens && t.seqNo == s.seqNo && t.all.Keys == s.all.Keys
    requires forall n :: n in s.all ==> t.all[n].phase == s.all[n].phase && t.all[n].origToken == s.all[n].origToken
    ensures Fresh(t)
  {
    forall n | n in t.all
      ensures Filed(t, n)
    {
      assert Filed(s, n);
    }
    hide MuxId, MuxToken;
  }

  /** What the reader does leaves every registration and every phase as it was. */
  lemma ReaderFrame(s: Sys, a: Action)
    requires a.ReadResponse? || a.ReadNote? || a.ReadFails? || a.Put? || a.Notify?
    requires Step(s, a).Some?
    ensures var t := Step(s, a).value;
            && t.calls == s.calls && t.tokens == s.tokens && t.seqNo == s.seqNo && t.all.Keys == s.all.Keys
            && forall n :: n in s.all ==> t.all[n].phase == s.all[n].phase && t.all[n].origToken == s.all[n].origToken
  {
    hide MuxId, MuxToken, CallStep, Restored;
  }

  lemma StepFiled(s: Sys, a: Action)
    requires Inv(s) && Fresh(s) && Step(s, a).Some?
    ensures Fresh(Step(s, a).value)
  {
    hide Inv, Fresh;
    match a
    case Begin(id, token, listens) => BeginFiled(s, id, token, listens);
    case Register(_) => CallFiled(s, a);
    case Write(_, _) => CallFiled(s, a);
    case TakeResponse(_) => CallFiled(s, a);
    case ContextDone(_) => CallFiled(s, a);
    case SeeDeath(_) => CallFiled(s, a);
    case Unregister(_) => CallFiled(s, a);
    case Look(_) => CallFiled(s, a);
    case _ =>
      ReaderFrame(s, a);
      hide Step;
      SameFiled(s, Step(s, a).value);
  }

  lemma {:induction false} RunFiled(acts: seq<Action>)
    requires Run(acts).Some?
    ensures Inv(Run(acts).value) && Fresh(Run(acts).value)
  {
    RunInv(acts);
    if acts != [] {
      RunFiled(acts[..|acts| - 1]);
      StepFiled(Run(acts[..|acts| - 1]).value, acts[|acts| - 1]);
      hide Inv, Fresh, Step;
    }
  }

  /** A response that is read goes on to a call exactly if that call is registered and the response bears its id. */
  lemma ResponseReaches(acts: seq<Action>, msg: Response, n: CallNo)
    requires Run(acts).Some? && Step(Run(acts).value, ReadResponse(msg)).Some?
    ensures var s, t := Run(acts).value, Step(Run(acts).value, ReadResponse(msg)).value;
            t.reader == Routing(n, msg) <==> n in s.all && Registered(s.all[n].phase) && msg.id == MuxId(n)
  {
    RunFiled(acts);
    var s := Run(acts).value;
    if msg.id in s.calls {
      assert IdOk(s, msg.id);
    }
    assert n in s.all ==> Filed(s, n);
    hide Run, MuxId, MuxToken;
  }

  /** A notification goes on exactly to the registered call whose id it carries, or whose token if its caller sent one. */
  lemma NoteReaches(acts: seq<Action>, note: Note, n: CallNo)
    requires Run(acts).Some? && Step(Run(acts).value, ReadNote(note)).Some?
    ensures var s, t := Run(acts).value, Step(Run(acts).value, ReadNote(note)).value;
            t.reader == Notifying(n, note) <==>
              && n in s.all && Registered(s.all[n].phase)
              && match note
                 case Progress(token, _) => s.all[n].origToken.Some? && token == MuxToken(n)
                 case Event(id, _) => id == MuxId(n)
  {
    RunFiled(acts);
    var s := Run(acts).value;
    if note.Progress? && note.token in s.tokens {
      assert TokenOk(s, note.token);
      assert Filed(s, s.tokens[note.token]);
    }
    if note.Event? && note.subscription in s.calls {
      assert IdOk(s, note.subscription);
    }
    assert n in s.all ==> Filed(s, n);
    hide Run, MuxId, MuxToken;
  }

  /** What goes on to a call arrives: a response in its channel unless one is there, a notification at its caller. */
  lemma RoutedArrives(acts: seq<Action>)
    requires Run(acts).Some?
    ensures var s := Run(acts).value;
            && (s.reader.Routing? ==>
                  && Step(s, Put).Some? && s.reader.call in s.all && s.reader.call in Step(s, Put).value.all
                  && var resp := Step(s, Put).value.all[s.reader.call].resp;
                     resp.Some? && (s.all[s.reader.call].resp.None? ==> resp.value.from == s.reader.msg))
            && (s.reader.Notifying? ==>
                  && Step(s, Notify).Some? && s.reader.call in s.all && s.reader.call in Step(s, Notify).value.all
                  && var heard := Step(s, Notify).value.all[s.reader.call].heard;
                     |heard| == |s.all[s.reader.call].heard| + 1 && heard[|heard| - 1].note == s.reader.note)
  {
    RunInv(acts);
    hide Run, MuxId, MuxToken;
  }
}
