/** What holds after every run of the credential caches. */
module CredTheorems {
  import opened Common
  import opened CredModel
  import opened CredSystem
  import opened CredLocks

  // ---- Histories: each entry is what its operations made of it, in the order of their times ----

  ghost predicate EndsBefore(ops: seq<Op>, t: Time) { forall i :: 0 <= i < |ops| ==> ops[i].now < t }

  ghost predicate HistoryOk(sl: Slot, clock: Time) {
    && sl.birth == NewEntry(sl.birth.skew, sl.birth.jitter)
    && sl.entry == Replay(sl.birth, sl.ops) && Ordered(sl.ops) && EndsBefore(sl.ops, clock + 1)
  }

  ghost predicate Histories(s: Sys) {
    && (forall e :: e in s.slots ==> HistoryOk(s.slots[e], s.clock))
    && (forall c :: c in s.callers && s.callers[c].Resolving? && s.callers[c].slot in s.slots ==>
          s.callers[c].since <= s.clock && EndsBefore(s.slots[s.callers[c].slot].ops, s.callers[c].since))
  }

  predicate SameHistory(s: Sys, t: Sys, e: SlotId)
    requires e in t.slots
  {
    var sl := t.slots[e];
    if e in s.slots then sl.entry == s.slots[e].entry && sl.birth == s.slots[e].birth && sl.ops == s.slots[e].ops
    else sl.ops == [] && sl.entry == sl.birth == NewEntry(sl.birth.skew, sl.birth.jitter)
  }

  predicate NoNewHolder(s: Sys, t: Sys) {
    forall c :: c in t.callers && t.callers[c].Resolving? ==> c in s.callers && s.callers[c] == t.callers[c]
  }

  /** A step that records nothing. */
  lemma HistoryFrame(s: Sys, t: Sys)
    requires Histories(s) && Locks(s) && s.clock <= t.clock && NoNewHolder(s, t)
    requires forall e :: e in t.slots ==> SameHistory(s, t, e)
    ensures Histories(t)
  {
  }

  lemma RecordHistory(s: Sys, e: SlotId, op: Op)
    requires Histories(s) && e in s.slots && op.now <= s.clock && EndsBefore(s.slots[e].ops, op.now)
    requires forall c :: !HoldsOn(s, c, e)
    ensures Histories(Record(s, e, op))
  {
    var t := Record(s, e, op);
    var ops := s.slots[e].ops;
    assert HistoryOk(s.slots[e], s.clock);
    assert (ops + [op])[..|ops|] == ops;
    hide Apply;
    assert HistoryOk(t.slots[e], t.clock);
    forall c | c in t.callers && t.callers[c].Resolving? && t.callers[c].slot in t.slots
      ensures t.callers[c].since <= t.clock && EndsBefore(t.slots[t.callers[c].slot].ops, t.callers[c].since)
    {
      assert !HoldsOn(s, c, e);
    }
  }

  lemma AbsorbHistory(s: Sys, e: SlotId, answer: Answer, now: Time, failedAt: Time)
    requires Histories(s) && e in s.slots && now <= failedAt <= s.clock && EndsBefore(s.slots[e].ops, now)
    requires forall c :: !HoldsOn(s, c, e)
    ensures Histories(Absorb(s, e, answer, now, failedAt))
  {
    hide HistoryOk, Apply, Moved;
    if answer.Gives? && ValidAt(Given(answer.creds), now) {
      RecordHistory(s, e, Stored(Given(answer.creds), now, s.gens + 1));
    } else if !answer.Cancelled? {
      RecordHistory(s, e, Failed(failedAt));
    }
  }

  lemma HoldHistory(s: Sys, c: CallerId, now: Time, rid: RefreshId)
    requires Histories(s) && Locks(s) && EnterStep(s, c, now, rid).Some?
    ensures Histories(EnterStep(s, c, now, rid).value)
  {
    var t := EnterStep(s, c, now, rid).value;
    var e := s.callers[c].slot;
    assert HistoryOk(s.slots[e], s.clock);
    forall f | f in t.slots
      ensures SameHistory(s, t, f) && HistoryOk(t.slots[f], t.clock)
    {
      assert HistoryOk(s.slots[f], s.clock);
    }
    forall d | d in t.callers && t.callers[d].Resolving? && t.callers[d].slot in t.slots
      ensures t.callers[d].since <= t.clock && EndsBefore(t.slots[t.callers[d].slot].ops, t.callers[d].since)
    {
      assert SameHistory(s, t, t.callers[d].slot);
      assert d != c ==> CallerLock(s, d);
    }
    hide Replay, Locks;
  }

  lemma FreeSlot(s: Sys, e: SlotId)
    requires Locks(s) && e in s.slots && s.slots[e].holder.None?
    ensures forall c :: !HoldsOn(s, c, e)
  {
  }

  lemma ResolvedHistory(s: Sys, c: CallerId, answer: Answer)
    requires Histories(s) && Locks(s) && ResolvedStep(s, c, answer).Some?
    ensures Histories(ResolvedStep(s, c, answer).value)
  {
    var e, since := s.callers[c].slot, s.callers[c].since;
    var u := Release(s, c, e);
    assert CallerLock(s, c);
    ReleaseKeepsLocks(s, c, e);
    HistoryFrame(s, u);
    FreeSlot(u, e);
    AbsorbHistory(u, e, answer, since, since);
    AbsorbIsLocal(u, e, answer, since, since);
    AbsorbKeepsLocks(u, e, answer, since, since);
    HistoryFrame(Absorb(u, e, answer, since, since), ResolvedStep(s, c, answer).value);
    hide Absorb, Locks, HistoryOk;
  }

  lemma RefreshedHistory(s: Sys, rid: RefreshId, answer: Answer, now: Time, failedAt: Time)
    requires Histories(s) && Locks(s) && RefreshedStep(s, rid, answer, now, failedAt).Some?
    ensures Histories(RefreshedStep(s, rid, answer, now, failedAt).value)
  {
    var r := s.refreshes[rid];
    var u := SetSlot(s, r.slot, s.slots[r.slot].(refresh := None)).(
      refreshes := s.refreshes[rid := r.(running := false)], clock := failedAt);
    assert HistoryOk(s.slots[r.slot], s.clock);
    HistoryFrame(s, u);
    FreeSlot(s, r.slot);
    assert forall c :: HoldsOn(u, c, r.slot) == HoldsOn(s, c, r.slot);
    AbsorbHistory(u, r.slot, answer, now, failedAt);
    hide Absorb, Locks, Histories;
  }

  lemma InvalidateHistory(s: Sys, c: CallerId, now: Time)
    requires Histories(s) && Locks(s) && InvalidateStep(s, c, now).Some?
    ensures Histories(InvalidateStep(s, c, now).value)
  {
    var e := s.callers[c].slot;
    var u := SetCaller(s, c, Finished).(clock := now);
    assert HistoryOk(s.slots[e], s.clock);
    HistoryFrame(s, u);
    FreeSlot(s, e);
    assert forall d :: HoldsOn(u, d, e) ==> HoldsOn(s, d, e);
    RecordHistory(u, e, Dropped(now));
    assert Record(u, e, Dropped(now)) == InvalidateStep(s, c, now).value;
    hide Locks, Histories, Apply;
  }

  lemma HistoriesStep(s: Sys, a: Action)
    requires Histories(s) && Locks(s) && Step(s, a).Some?
    ensures Histories(Step(s, a).value)
  {
    hide FindStep, EnterStep, ResolvedStep, RefreshedStep, InvalidateStep, Histories, Locks;
    match a
    case Enter(c, now, rid) => HoldHistory(s, c, now, rid);
    case Resolved(c, answer) => ResolvedHistory(s, c, answer);
    case Refreshed(rid, answer, now, failedAt) => RefreshedHistory(s, rid, answer, now, failedAt);
    case Invalidate(c, now) => InvalidateHistory(s, c, now);
    case Find(c, now, newSlot, jitter) => FindHistory(s, c, now, newSlot, jitter);
    case _ => HistoryFrame(s, Step(s, a).value);
  }

  lemma FindHistory(s: Sys, c: CallerId, now: Time, newSlot: SlotId, jitter: Time)
    requires Histories(s) && Locks(s) && FindStep(s, c, now, newSlot, jitter).Some?
    ensures Histories(FindStep(s, c, now, newSlot, jitter).value)
  {
  }

  // ---- Generations: each was issued once, for one entry and one material ----

  predicate SlotGen(s: Sys, e: SlotId)
    requires e in s.slots
  {
    var en := s.slots[e].entry;
    && en.gen <= s.gens
    && (Held(en).Some? ==> en.gen in s.issued && s.issued[en.gen] == Issue(e, Held(en).value.material))
  }

  predicate ServedOk(s: Sys, v: Served) {
    && v.slot in s.slots && v.key == s.slots[v.slot].key && v.gen <= s.slots[v.slot].entry.gen
    && v.gen in s.issued && s.issued[v.gen] == Issue(v.slot, v.creds.material) && ValidAt(v.creds, v.sampled)
  }

  ghost predicate Rising(served: seq<Served>) {
    forall i, j :: 0 <= i < j < |served| && served[i].slot == served[j].slot ==> served[i].gen <= served[j].gen
  }

  ghost predicate Generations(s: Sys) {
    && (forall g :: g in s.issued ==> g <= s.gens && s.issued[g].slot in s.slots)
    && (forall e :: e in s.slots ==> SlotGen(s, e))
    && (forall i :: 0 <= i < |s.served| ==> ServedOk(s, s.served[i]))
    && Rising(s.served)
  }

  /** The same generation, standing for the same material. */
  predicate SameGen(a: Entry, b: Entry) {
    && b.gen == a.gen && Held(b).Some? == Held(a).Some?
    && (Held(a).Some? ==> Held(b).value.material == Held(a).value.material)
  }

  predicate SlotSameGen(s: Sys, t: Sys, e: SlotId)
    requires e in t.slots
  {
    if e in s.slots then t.slots[e].key == s.slots[e].key && SameGen(s.slots[e].entry, t.slots[e].entry)
    else Held(t.slots[e].entry).None? && t.slots[e].entry.gen <= t.gens
  }

  lemma GenerationFrame(s: Sys, t: Sys)
    requires Generations(s) && t.gens == s.gens && t.issued == s.issued && t.served == s.served
    requires s.slots.Keys <= t.slots.Keys && forall e :: e in t.slots ==> SlotSameGen(s, t, e)
    ensures Generations(t)
  {
  }

  lemma RecordGenerations(s: Sys, e: SlotId, op: Op)
    requires Generations(s) && e in s.slots && (op.Stored? ==> !Moved(s.slots[e].entry, op.creds))
    ensures Generations(Record(s, e, op))
  {
  }

  lemma IssueGenerations(s: Sys, e: SlotId, c: Creds, now: Time)
    requires Generations(s) && e in s.slots && Moved(s.slots[e].entry, c)
    ensures Generations(RecordStore(s, e, c, now))
  {
  }

  lemma AbsorbGenerations(s: Sys, e: SlotId, answer: Answer, now: Time, failedAt: Time)
    requires Generations(s) && e in s.slots
    ensures Generations(Absorb(s, e, answer, now, failedAt))
  {
    hide Generations, Apply;
    if answer.Gives? && ValidAt(Given(answer.creds), now) {
      if Moved(s.slots[e].entry, Given(answer.creds)) {
        IssueGenerations(s, e, Given(answer.creds), now);
      } else {
        RecordGenerations(s, e, Stored(Given(answer.creds), now, s.gens + 1));
      }
    } else if !answer.Cancelled? {
      RecordGenerations(s, e, Failed(failedAt));
    }
  }

  /** What is served is what the entry holds, so it is the latest of its generation so far. */
  lemma ServeGenerations(s: Sys, c: CallerId, e: SlotId, now: Time)
    requires Generations(s) && e in s.slots && Servable(s.slots[e].entry, now)
    ensures Generations(Serve(s, c, e, now))
  {
  }

  lemma StoreServes(s: Sys, e: SlotId, answer: Answer, now: Time, failedAt: Time)
    requires e in s.slots && answer.Gives? && ValidAt(Given(answer.creds), now)
    ensures Servable(Absorb(s, e, answer, now, failedAt).slots[e].entry, now)
  {
  }

  lemma EnterGenerations(s: Sys, c: CallerId, now: Time, rid: RefreshId)
    requires Generations(s) && EnterStep(s, c, now, rid).Some?
    ensures Generations(EnterStep(s, c, now, rid).value)
  {
    var t := EnterStep(s, c, now, rid).value;
    var e := s.callers[c].slot;
    hide Generations;
    if Servable(s.slots[e].entry, now) {
      var u := Launch(s, e, now, rid);
      GenerationFrame(s, u);
      ServeGenerations(u, c, e, now);
      GenerationFrame(Serve(u, c, e, now), t);
    } else {
      GenerationFrame(s, t);
    }
  }

  lemma ResolvedGenerations(s: Sys, c: CallerId, answer: Answer)
    requires Generations(s) && ResolvedStep(s, c, answer).Some?
    ensures Generations(ResolvedStep(s, c, answer).value)
  {
    var e, since := s.callers[c].slot, s.callers[c].since;
    var u := Release(s, c, e);
    hide Generations, Absorb;
    GenerationFrame(s, u);
    AbsorbGenerations(u, e, answer, since, since);
    if answer.Gives? && ValidAt(Given(answer.creds), since) {
      StoreServes(u, e, answer, since, since);
      ServeGenerations(Absorb(u, e, answer, since, since), c, e, since);
    }
  }

  lemma RefreshedGenerations(s: Sys, rid: RefreshId, answer: Answer, now: Time, failedAt: Time)
    requires Generations(s) && RefreshedStep(s, rid, answer, now, failedAt).Some?
    ensures Generations(RefreshedStep(s, rid, answer, now, failedAt).value)
  {
    var r := s.refreshes[rid];
    var u := SetSlot(s, r.slot, s.slots[r.slot].(refresh := None)).(
      refreshes := s.refreshes[rid := r.(running := false)], clock := failedAt);
    hide Generations, Absorb;
    GenerationFrame(s, u);
    AbsorbGenerations(u, r.slot, answer, now, failedAt);
  }

  lemma InvalidateGenerations(s: Sys, c: CallerId, now: Time)
    requires Generations(s) && InvalidateStep(s, c, now).Some?
    ensures Generations(InvalidateStep(s, c, now).value)
  {
  }

  lemma FindGenerations(s: Sys, c: CallerId, now: Time, newSlot: SlotId, jitter: Time)
    requires Generations(s) && s.gens >= 0 && FindStep(s, c, now, newSlot, jitter).Some?
    ensures Generations(FindStep(s, c, now, newSlot, jitter).value)
  {
  }

  lemma GenerationsStep(s: Sys, a: Action)
    requires Generations(s) && s.gens >= 0 && Step(s, a).Some?
    ensures Generations(Step(s, a).value) && Step(s, a).value.gens >= s.gens
  {
    match a
    case Find(c, now, newSlot, jitter) => FindGenerations(s, c, now, newSlot, jitter);
    case Enter(c, now, rid) => EnterGenerations(s, c, now, rid);
    case Resolved(c, answer) => ResolvedGenerations(s, c, answer);
    case Refreshed(rid, answer, now, failedAt) => RefreshedGenerations(s, rid, answer, now, failedAt);
    case Invalidate(c, now) => InvalidateGenerations(s, c, now);
    case _ =>
      hide FindStep, EnterStep, ResolvedStep, RefreshedStep, InvalidateStep, Generations;
      GenerationFrame(s, Step(s, a).value);
  }

  // ---- Runs ----

  ghost predicate Inv(s: Sys) { Locks(s) && Histories(s) && Generations(s) && s.gens >= 0 }

  lemma {:induction false} RunInv(acts: seq<Action>)
    requires Run(acts).Some?
    ensures Inv(Run(acts).value)
  {
    if acts != [] {
      var front, a := acts[..|acts| - 1], acts[|acts| - 1];
      RunInv(front);
      var s := Run(front).value;
      LocksStep(s, a);
      HistoriesStep(s, a);
      GenerationsStep(s, a);
      hide Locks, Histories, Generations, Step;
    }
  }

  /**
  Two results of one generation are for the same tenant, user and server and carry the same material,
  whichever resolvers gave them; and one entry's generations never go back.
  */
  lemma GenerationIdentity(acts: seq<Action>, i: nat, j: nat)
    requires Run(acts).Some? && i < j < |Run(acts).value.served|
    ensures var a, b := Run(acts).value.served[i], Run(acts).value.served[j];
            && (a.gen == b.gen ==> a.key == b.key && a.creds.material == b.creds.material)
            && (a.slot == b.slot ==> a.gen <= b.gen)
  {
    RunInv(acts);
    var s := Run(acts).value;
    assert ServedOk(s, s.served[i]) && ServedOk(s, s.served[j]);
    hide Run, Locks, Histories;
  }

  /** No result had expired at the time its call sampled. */
  lemma NothingExpiredIsServed(acts: seq<Action>, i: nat)
    requires Run(acts).Some? && i < |Run(acts).value.served|
    ensures ValidAt(Run(acts).value.served[i].creds, Run(acts).value.served[i].sampled)
  {
    RunInv(acts);
    assert ServedOk(Run(acts).value, Run(acts).value.served[i]);
    hide Run, Locks, Histories;
  }

  /** One entry, one conversation with its source: two foreground resolves, two refreshes or one of each never overlap. */
  lemma SingleFlight(acts: seq<Action>, e: SlotId)
    requires Run(acts).Some?
    ensures var s := Run(acts).value;
            && (forall c, d :: HoldsOn(s, c, e) && HoldsOn(s, d, e) ==> c == d)
            && (forall p, q :: RunsOn(s, p, e) && RunsOn(s, q, e) ==> p == q)
            && (forall c, p :: !(HoldsOn(s, c, e) && RunsOn(s, p, e)))
  {
    RunInv(acts);
    var s := Run(acts).value;
    forall c | HoldsOn(s, c, e)
      ensures e in s.slots && s.slots[e].holder == Some(c) && SlotLock(s, e)
    {
      assert CallerLock(s, c);
    }
    forall p | RunsOn(s, p, e)
      ensures e in s.slots && s.slots[e].refresh == Some(p)
    {
      assert RefreshLock(s, p);
    }
    hide Run, Histories, Generations;
  }

  /** A caller parked on a refresh can wake, or the refresh still runs and is the one its entry names. */
  lemma WaitersWake(acts: seq<Action>, c: CallerId)
    requires Run(acts).Some? && c in Run(acts).value.callers && Run(acts).value.callers[c].Waiting?
    ensures var s := Run(acts).value; var me := s.callers[c];
            me.slot in s.slots &&
            (Step(s, Wake(c)).Some? || (RunsOn(s, me.refresh, me.slot) && s.slots[me.slot].refresh == Some(me.refresh)))
  {
    RunInv(acts);
    var s := Run(acts).value;
    assert CallerLock(s, c) && RefreshLock(s, s.callers[c].refresh);
    hide Run, Histories, Generations;
  }

  /** A refresh changes its entry only while that entry still serves what the refresh was launched to replace. */
  lemma RefreshReplacesItsOwn(acts: seq<Action>, rid: RefreshId, answer: Answer, now: Time, failedAt: Time)
    requires Run(acts).Some? && RefreshedStep(Run(acts).value, rid, answer, now, failedAt).Some?
    ensures var s := Run(acts).value; var r := s.refreshes[rid];
            var t := RefreshedStep(s, rid, answer, now, failedAt).value;
            t.slots[r.slot].entry != s.slots[r.slot].entry ==>
              s.slots[r.slot].entry.epoch == r.startEpoch && s.slots[r.slot].entry.creds == Some(r.base)
  {
    RunInv(acts);
    var s := Run(acts).value;
    assert RefreshLock(s, rid);
    hide Run, Histories, Generations, Absorb;
  }

  /** Spacing, on the history of any entry of any run. */
  lemma ForcedRefetchesSpaced(acts: seq<Action>, e: SlotId, i: nat, j: nat)
    requires Run(acts).Some? && e in Run(acts).value.slots
    requires var sl := Run(acts).value.slots[e];
             && i < j < |sl.ops| && Refetches(sl.birth, sl.ops, i) && !Moves(sl.birth, sl.ops, i)
             && Refetches(sl.birth, sl.ops, j) && forall m :: i < m < j ==> !Moves(sl.birth, sl.ops, m)
    ensures var sl := Run(acts).value.slots[e];
            var futile := Before(sl.birth, sl.ops, i + 1).futile;
            && sl.entry == Replay(sl.birth, sl.ops)
            && futile >= 1 && sl.ops[j].now - sl.ops[i].now > Backoff(futile)
  {
    RunInv(acts);
    var sl := Run(acts).value.slots[e];
    assert HistoryOk(sl, Run(acts).value.clock);
    RefetchesSpaced(sl.birth, sl.ops, i, j);
    hide Run, Locks, Generations;
  }
}
