/** Who resolves and who waits: the entry mutexes, the refreshes in flight, and the callers parked on them. */
module CredLocks {
  import opened Common
  import opened CredModel
  import opened CredSystem

  predicate RunsOn(s: Sys, rid: RefreshId, e: SlotId) {
    rid in s.refreshes && s.refreshes[rid].running && s.refreshes[rid].slot == e
  }

  predicate HoldsOn(s: Sys, c: CallerId, e: SlotId) {
    c in s.callers && s.callers[c].Resolving? && s.callers[c].slot == e
  }

  /** The entry's flags name the caller that resolves or the refresh that runs, and never both. */
  predicate SlotLock(s: Sys, e: SlotId)
    requires e in s.slots
  {
    var sl := s.slots[e];
    && (sl.holder.Some? ==> HoldsOn(s, sl.holder.value, e) && sl.refresh.None?)
    && (sl.refresh.Some? ==> RunsOn(s, sl.refresh.value, e))
  }

  predicate CallerLock(s: Sys, c: CallerId)
    requires c in s.callers
  {
    match s.callers[c]
    case Asking(_, _) => true
    case Found(_, e) => e in s.slots
    case Waiting(_, e, rid) => e in s.slots && rid in s.refreshes && s.refreshes[rid].slot == e
    case Resolving(e, _) => e in s.slots && s.slots[e].holder == Some(c)
    case Rejecting(e) => e in s.slots
    case Finished => true
  }

  /** A running refresh is the one its entry names; until the entry moves on it serves what the refresh replaces. */
  predicate RefreshLock(s: Sys, rid: RefreshId)
    requires rid in s.refreshes
  {
    var r := s.refreshes[rid];
    && r.slot in s.slots && r.startEpoch <= s.slots[r.slot].entry.epoch
    && (r.running ==>
          && s.slots[r.slot].refresh == Some(rid)
          && (r.startEpoch == s.slots[r.slot].entry.epoch ==> s.slots[r.slot].entry.creds == Some(r.base)))
  }

  predicate ResolverLock(s: Sys, r: ResolverId)
    requires r in s.resolvers
  {
    forall k :: k in s.resolvers[r].entries ==>
      s.resolvers[r].entries[k] in s.slots && s.slots[s.resolvers[r].entries[k]].key == k
  }

  ghost predicate Locks(s: Sys) {
    && (forall e :: e in s.slots ==> SlotLock(s, e))
    && (forall c :: c in s.callers ==> CallerLock(s, c))
    && (forall rid :: rid in s.refreshes ==> RefreshLock(s, rid))
    && (forall r :: r in s.resolvers ==> ResolverLock(s, r))
  }

  // ---- Steps keep it ----

  lemma RecordKeepsLocks(s: Sys, e: SlotId, op: Op)
    requires Locks(s) && e in s.slots
    ensures Locks(Record(s, e, op))
  {
  }

  predicate AbsorbFrame(s: Sys, t: Sys, e: SlotId)
    requires e in s.slots
  {
    && t.callers == s.callers && t.refreshes == s.refreshes && t.resolvers == s.resolvers && t.served == s.served
    && t.clock == s.clock
    && t.slots.Keys == s.slots.Keys && (forall f :: f in s.slots && f != e ==> t.slots[f] == s.slots[f])
    && t.slots[e] == s.slots[e].(entry := t.slots[e].entry, ops := t.slots[e].ops)
  }

  /** A caller that holds nothing may go anywhere that stands. */
  lemma MoveCaller(s: Sys, c: CallerId, ph: Caller)
    requires Locks(s) && !(c in s.callers && s.callers[c].Resolving?) && !ph.Resolving?
    requires CallerLock(SetCaller(s, c, ph), c)
    ensures Locks(SetCaller(s, c, ph))
  {
  }

  lemma SameLocks(s: Sys, t: Sys)
    requires Locks(s)
    requires t.slots == s.slots && t.callers == s.callers && t.refreshes == s.refreshes && t.resolvers == s.resolvers
    ensures Locks(t)
  {
  }

  lemma AbsorbKeepsLocks(s: Sys, e: SlotId, answer: Answer, now: Time, failedAt: Time)
    requires Locks(s) && e in s.slots
    ensures Locks(Absorb(s, e, answer, now, failedAt))
  {
    hide Locks, Apply, Moved;
    if answer.Gives? && ValidAt(Given(answer.creds), now) {
      var op := Stored(Given(answer.creds), now, s.gens + 1);
      RecordKeepsLocks(s, e, op);
      SameLocks(Record(s, e, op), RecordStore(s, e, Given(answer.creds), now));
    } else if !answer.Cancelled? {
      RecordKeepsLocks(s, e, Failed(failedAt));
    }
  }

  lemma AbsorbIsLocal(s: Sys, e: SlotId, answer: Answer, now: Time, failedAt: Time)
    requires e in s.slots
    ensures AbsorbFrame(s, Absorb(s, e, answer, now, failedAt), e)
  {
    hide Record, Moved;
    if answer.Gives? && ValidAt(Given(answer.creds), now) {
      RecordIsLocal(s, e, Stored(Given(answer.creds), now, s.gens + 1));
    } else {
      RecordIsLocal(s, e, Failed(failedAt));
    }
  }

  lemma RecordIsLocal(s: Sys, e: SlotId, op: Op)
    requires e in s.slots
    ensures AbsorbFrame(s, Record(s, e, op), e)
  {
    hide Apply;
  }

  // ---- Every step ----

  lemma FindKeepsLocks(s: Sys, c: CallerId, now: Time, newSlot: SlotId, jitter: Time)
    requires Locks(s) && FindStep(s, c, now, newSlot, jitter).Some?
    ensures Locks(FindStep(s, c, now, newSlot, jitter).value)
  {
    var t := FindStep(s, c, now, newSlot, jitter).value;
    var r := s.callers[c].resolver;
    assert ResolverLock(s, r);
    forall e | e in t.slots
      ensures SlotLock(t, e)
    {
      assert e in s.slots ==> SlotLock(s, e);
    }
    forall d | d in t.callers
      ensures CallerLock(t, d)
    {
      assert d != c ==> CallerLock(s, d);
    }
    forall rid | rid in t.refreshes
      ensures RefreshLock(t, rid)
    {
      assert RefreshLock(s, rid);
    }
    forall q | q in t.resolvers
      ensures ResolverLock(t, q)
    {
      assert q != r ==> ResolverLock(s, q);
    }
  }

  lemma LaunchKeepsLocks(s: Sys, e: SlotId, now: Time, rid: RefreshId)
    requires Locks(s) && e in s.slots && s.slots[e].entry.creds.Some? && s.slots[e].holder.None? && rid !in s.refreshes
    ensures Locks(Launch(s, e, now, rid))
  {
  }

  lemma ServeKeepsLocks(s: Sys, c: CallerId, e: SlotId, now: Time)
    requires Locks(s) && e in s.slots && s.slots[e].entry.creds.Some? && c in s.callers && !s.callers[c].Resolving?
    ensures Locks(Serve(s, c, e, now))
  {
  }

  lemma HoldKeepsLocks(s: Sys, c: CallerId, e: SlotId, now: Time)
    requires Locks(s) && e in s.slots && c in s.callers && s.callers[c].Found? && s.slots[e].holder.None? && s.slots[e].refresh.None?
    ensures Locks(SetCaller(SetSlot(s, e, s.slots[e].(holder := Some(c))), c, Resolving(e, now)))
  {
  }

  lemma EnterKeepsLocks(s: Sys, c: CallerId, now: Time, rid: RefreshId)
    requires Locks(s) && EnterStep(s, c, now, rid).Some?
    ensures Locks(EnterStep(s, c, now, rid).value)
  {
    var t := EnterStep(s, c, now, rid).value;
    var me := s.callers[c];
    var sl := s.slots[me.slot];
    if Servable(sl.entry, now) {
      LaunchKeepsLocks(s, me.slot, now, rid);
      ServeKeepsLocks(Launch(s, me.slot, now, rid), c, me.slot, now);
      SameLocks(Serve(Launch(s, me.slot, now, rid), c, me.slot, now), t);
    } else if sl.refresh.Some? {
      assert SlotLock(s, me.slot);
      var u := SetCaller(s, c, Waiting(me.resolver, me.slot, sl.refresh.value));
      MoveCaller(s, c, u.callers[c]);
      SameLocks(u, t);
    } else if now < sl.entry.retryAt {
      MoveCaller(s, c, Finished);
      SameLocks(SetCaller(s, c, Finished), t);
    } else {
      HoldKeepsLocks(s, c, me.slot, now);
      SameLocks(SetCaller(SetSlot(s, me.slot, sl.(holder := Some(c))), c, Resolving(me.slot, now)), t);
    }
    hide Locks, Launch, Serve;
  }

  /** The caller that holds an entry lets go of it. */
  lemma ReleaseKeepsLocks(s: Sys, c: CallerId, e: SlotId)
    requires Locks(s) && e in s.slots && HoldsOn(s, c, e)
    ensures Locks(Release(s, c, e))
  {
  }

  lemma ResolvedKeepsLocks(s: Sys, c: CallerId, answer: Answer)
    requires Locks(s) && ResolvedStep(s, c, answer).Some?
    ensures Locks(ResolvedStep(s, c, answer).value)
  {
    var e, since := s.callers[c].slot, s.callers[c].since;
    var u := Release(s, c, e);
    ReleaseKeepsLocks(s, c, e);
    AbsorbKeepsLocks(u, e, answer, since, since);
    AbsorbIsLocal(u, e, answer, since, since);
    if answer.Gives? && ValidAt(Given(answer.creds), since) {
      ServeKeepsLocks(Absorb(u, e, answer, since, since), c, e, since);
    }
    hide Locks, Absorb;
  }

  lemma RetireKeepsLocks(s: Sys, rid: RefreshId)
    requires Locks(s) && rid in s.refreshes && s.refreshes[rid].running && s.refreshes[rid].slot in s.slots
    ensures var r := s.refreshes[rid];
            Locks(SetSlot(s, r.slot, s.slots[r.slot].(refresh := None)).(
                    refreshes := s.refreshes[rid := r.(running := false)]))
  {
  }

  lemma RefreshedKeepsLocks(s: Sys, rid: RefreshId, answer: Answer, now: Time, failedAt: Time)
    requires Locks(s) && RefreshedStep(s, rid, answer, now, failedAt).Some?
    ensures Locks(RefreshedStep(s, rid, answer, now, failedAt).value)
  {
    var r := s.refreshes[rid];
    var u := SetSlot(s, r.slot, s.slots[r.slot].(refresh := None)).(refreshes := s.refreshes[rid := r.(running := false)]);
    RetireKeepsLocks(s, rid);
    SameLocks(u, u.(clock := failedAt));
    AbsorbKeepsLocks(u.(clock := failedAt), r.slot, answer, now, failedAt);
    hide Locks, Absorb;
  }

  lemma InvalidateKeepsLocks(s: Sys, c: CallerId, now: Time)
    requires Locks(s) && InvalidateStep(s, c, now).Some?
    ensures Locks(InvalidateStep(s, c, now).value)
  {
  }

  lemma BuildKeepsLocks(s: Sys, r: ResolverId, skew: Time)
    requires Locks(s) && r !in s.resolvers
    ensures Locks(s.(resolvers := s.resolvers[r := Resolver(skew, map[], ZERO_TIME)]))
  {
  }

  lemma LocksStep(s: Sys, a: Action)
    requires Locks(s) && Step(s, a).Some?
    ensures Locks(Step(s, a).value)
  {
    hide FindStep, EnterStep, ResolvedStep, RefreshedStep, InvalidateStep;
    match a
    case Build(r, skew) => BuildKeepsLocks(s, r, skew);
    case Ask(c, r, k) => MoveCaller(s, c, Asking(r, k));
    case Find(c, now, newSlot, jitter) => FindKeepsLocks(s, c, now, newSlot, jitter);
    case Enter(c, now, rid) => EnterKeepsLocks(s, c, now, rid);
    case Resolved(c, answer) => ResolvedKeepsLocks(s, c, answer);
    case Wake(c) => MoveCaller(s, c, Asking(s.callers[c].resolver, s.slots[s.callers[c].slot].key));
    case GiveUp(c) => MoveCaller(s, c, Finished);
    case Refreshed(rid, answer, now, failedAt) => RefreshedKeepsLocks(s, rid, answer, now, failedAt);
    case Reject(c, r, k) => RejectKeepsLocks(s, c, r, k);
    case Invalidate(c, now) => InvalidateKeepsLocks(s, c, now);
  }

  lemma RejectKeepsLocks(s: Sys, c: CallerId, r: ResolverId, k: CacheKey)
    requires Locks(s) && RejectStep(s, c, r, k).Some?
    ensures Locks(RejectStep(s, c, r, k).value)
  {
  }
}
