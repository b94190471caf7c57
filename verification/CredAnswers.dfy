/** What the source's answers come to: what each is recorded as, and which of a refresh's are discarded. */
module CredAnswers {
  import opened Common
  import opened CredModel
  import opened CredSystem
  import opened CredLocks
  import opened CredTheorems
  import opened CredBackoff

  /** Unexpired credentials are stored, empty ones too; an error or expired ones are a failure; a cancelled call is neither. */
  function Recorded(answer: Answer, now: Time, failedAt: Time, gen: int): seq<Op> {
    match answer
    case Cancelled => []
    case Fails => [Failed(failedAt)]
    case Gives(given) =>
      var c := if given.Some? then given.value else Creds("", None);
      if c.expiresAt.Some? && now >= c.expiresAt.value then [Failed(failedAt)] else [Stored(c, now, gen)]
  }

  /** What recording changes and what it leaves. */
  predicate Records(s: Sys, t: Sys, e: SlotId, ops: seq<Op>)
    requires e in s.slots
  {
    && t.slots.Keys == s.slots.Keys && t.callers == s.callers && t.served == s.served
    && t.slots[e] == s.slots[e].(entry := t.slots[e].entry, ops := s.slots[e].ops + ops)
    && forall f :: f in s.slots && f != e ==> t.slots[f] == s.slots[f]
  }

  lemma RecordRecords(s: Sys, e: SlotId, op: Op)
    requires e in s.slots
    ensures Records(s, Record(s, e, op), e, [op])
  {
    hide Apply;
  }

  lemma StoreRecords(s: Sys, e: SlotId, c: Creds, now: Time)
    requires e in s.slots
    ensures Records(s, RecordStore(s, e, c, now), e, [Stored(c, now, s.gens + 1)])
  {
    RecordRecords(s, e, Stored(c, now, s.gens + 1));
    hide Record, Moved;
  }

  lemma AbsorbRecords(s: Sys, e: SlotId, answer: Answer, now: Time, failedAt: Time)
    requires e in s.slots
    ensures Records(s, Absorb(s, e, answer, now, failedAt), e, Recorded(answer, now, failedAt, s.gens + 1))
  {
    hide Record, RecordStore;
    match answer
    case Cancelled => assert s.slots[e].ops + [] == s.slots[e].ops;
    case Fails => RecordRecords(s, e, Failed(failedAt));
    case Gives(given) =>
      if ValidAt(Given(given), now) {
        StoreRecords(s, e, Given(given), now);
      } else {
        RecordRecords(s, e, Failed(failedAt));
      }
    hide Records;
  }

  lemma StoredServes(s: Sys, e: SlotId, answer: Answer, now: Time, failedAt: Time)
    requires e in s.slots && answer.Gives?
    ensures var t := Absorb(s, e, answer, now, failedAt); var c := Given(answer.creds);
            ValidAt(c, now) ==> e in t.slots && t.slots[e].entry.creds == Some(c)
  {
    hide Backoff, RefreshAt;
  }

  /**
  The source has answered a call that holds an entry: the entry is free again, its history has grown by what the
  answer is recorded as, and the call is served exactly if that was a store, with what was stored.
  */
  lemma ResolvedRecords(acts: seq<Action>, s: Sys, t: Sys, c: CallerId, answer: Answer)
    requires Run(acts) == Some(s) && Run(acts + [Resolved(c, answer)]) == Some(t)
    ensures c in s.callers && s.callers[c].Resolving? && s.callers[c].slot in s.slots && t.slots.Keys == s.slots.Keys
    ensures var e, since := s.callers[c].slot, s.callers[c].since; var ops := Recorded(answer, since, since, s.gens + 1);
            && t.slots[e].ops == s.slots[e].ops + ops && t.slots[e].holder.None?
            && (forall f :: f in s.slots && f != e ==> t.slots[f] == s.slots[f])
            && t.callers == s.callers[c := Finished]
            && t.served ==
               if ops != [] && ops[0].Stored? then s.served + [Served(e, s.slots[e].key, ops[0].creds, t.slots[e].entry.gen, since)]
               else s.served
  {
    RunSplit(acts, Resolved(c, answer));
    var e, since := s.callers[c].slot, s.callers[c].since;
    var u := Release(s, c, e);
    AbsorbRecords(u, e, answer, since, since);
    if answer.Gives? {
      StoredServes(u, e, answer, since, since);
    }
    hide Run, Absorb;
  }

  // ---- Refreshes ----

  /** The k-th operation stored something, or was an Invalidate that acted. */
  predicate Overtakes(e: Entry, ops: seq<Op>, k: nat)
    requires k < |ops|
  {
    ops[k].Stored? || (ops[k].Dropped? && Acts(Before(e, ops, k), ops[k].now))
  }

  lemma EpochNext(e: Entry, ops: seq<Op>, k: nat)
    requires k < |ops|
    ensures Before(e, ops, k + 1).epoch == Before(e, ops, k).epoch + Weight(Overtakes(e, ops, k))
  {
    BeforeNext(e, ops, k);
    hide Replay, Backoff, RefreshAt;
    if ops[k].Dropped? {
      InvalidateActs(Before(e, ops, k), ops[k].now);
    }
  }

  /** The epoch stands exactly as long as nothing overtakes. */
  lemma {:induction false} EpochStands(e: Entry, ops: seq<Op>, i: nat, j: nat)
    requires i <= j <= |ops|
    ensures Before(e, ops, j).epoch >= Before(e, ops, i).epoch
    ensures Before(e, ops, j).epoch == Before(e, ops, i).epoch <==> forall k :: i <= k < j ==> !Overtakes(e, ops, k)
    decreases j
  {
    hide Before, Overtakes;
    if i < j {
      EpochStands(e, ops, i, j - 1);
      EpochNext(e, ops, j - 1);
    }
  }

  /** A later state of the slots and of a refresh that still runs in it. */
  ghost predicate Later(s: Sys, t: Sys, rid: RefreshId) {
    && (rid in s.refreshes ==>
          && rid in t.refreshes && t.refreshes[rid].slot == s.refreshes[rid].slot
          && t.refreshes[rid].startEpoch == s.refreshes[rid].startEpoch)
    && (forall e :: e in s.slots ==> e in t.slots && t.slots[e].birth == s.slots[e].birth && s.slots[e].ops <= t.slots[e].ops)
  }

  lemma AbsorbLater(s: Sys, e: SlotId, answer: Answer, now: Time, failedAt: Time, rid: RefreshId)
    requires e in s.slots
    ensures Later(s, Absorb(s, e, answer, now, failedAt), rid)
  {
    hide Apply;
  }

  lemma ResolvedLater(s: Sys, c: CallerId, answer: Answer, rid: RefreshId)
    requires ResolvedStep(s, c, answer).Some?
    ensures Later(s, ResolvedStep(s, c, answer).value, rid)
  {
    hide Absorb;
    var e, since := s.callers[c].slot, s.callers[c].since;
    AbsorbLater(Release(s, c, e), e, answer, since, since, rid);
  }

  lemma RefreshedLater(s: Sys, r: RefreshId, answer: Answer, now: Time, failedAt: Time, rid: RefreshId)
    requires RefreshedStep(s, r, answer, now, failedAt).Some?
    ensures Later(s, RefreshedStep(s, r, answer, now, failedAt).value, rid)
  {
    hide Absorb;
    var e := s.refreshes[r].slot;
    var u := SetSlot(s, e, s.slots[e].(refresh := None)).(
      refreshes := s.refreshes[r := s.refreshes[r].(running := false)], clock := failedAt);
    AbsorbLater(u, e, answer, now, failedAt, rid);
  }

  lemma StepLater(s: Sys, a: Action, rid: RefreshId)
    requires Step(s, a).Some?
    ensures Later(s, Step(s, a).value, rid)
  {
    hide Apply, ResolvedStep, RefreshedStep, FindStep, EnterStep, InvalidateStep;
    match a
    case Resolved(c, answer) => ResolvedLater(s, c, answer, rid);
    case Refreshed(r, answer, now, failedAt) => RefreshedLater(s, r, answer, now, failedAt, rid);
    case Find(c, now, newSlot, jitter) => FindLater(s, c, now, newSlot, jitter, rid);
    case Enter(c, now, r) => EnterLater(s, c, now, r, rid);
    case Invalidate(c, now) => InvalidateLater(s, c, now, rid);
    case _ =>
  }

  lemma FindLater(s: Sys, c: CallerId, now: Time, newSlot: SlotId, jitter: Time, rid: RefreshId)
    requires FindStep(s, c, now, newSlot, jitter).Some?
    ensures Later(s, FindStep(s, c, now, newSlot, jitter).value, rid)
  {
  }

  lemma EnterLater(s: Sys, c: CallerId, now: Time, r: RefreshId, rid: RefreshId)
    requires EnterStep(s, c, now, r).Some?
    ensures Later(s, EnterStep(s, c, now, r).value, rid)
  {
    hide Due, Servable;
  }

  lemma InvalidateLater(s: Sys, c: CallerId, now: Time, rid: RefreshId)
    requires InvalidateStep(s, c, now).Some?
    ensures Later(s, InvalidateStep(s, c, now).value, rid)
  {
    hide Apply;
  }

  lemma {:induction false} RunLater(acts: seq<Action>, more: seq<Action>, rid: RefreshId)
    requires Run(acts + more).Some?
    ensures Run(acts).Some? && Later(Run(acts).value, Run(acts + more).value, rid)
    decreases |more|
  {
    if more == [] {
      assert acts + more == acts;
    } else {
      var front, a := more[..|more| - 1], more[|more| - 1];
      assert acts + more == acts + front + [a];
      RunSplit(acts + front, a);
      RunLater(acts, front, rid);
      StepLater(Run(acts + front).value, a, rid);
      hide Run, Step;
    }
  }

  lemma LaunchedNow(s: Sys, o: Sys, c: CallerId, at: Time, rid: RefreshId)
    requires Step(s, Enter(c, at, rid)) == Some(o) && rid in o.refreshes && o.refreshes[rid].slot in o.slots
    ensures o.refreshes[rid].startEpoch == o.slots[o.refreshes[rid].slot].entry.epoch
  {
  }

  lemma StandsIff(o: Sys, s: Sys, rid: RefreshId, e: SlotId)
    requires Histories(o) && Histories(s) && Later(o, s, rid)
    requires e in o.slots && rid in o.refreshes && o.refreshes[rid].slot == e
    requires o.refreshes[rid].startEpoch == o.slots[e].entry.epoch
    ensures e in s.slots && o.slots[e].ops <= s.slots[e].ops && rid in s.refreshes && s.refreshes[rid].slot == e
    ensures var ops := s.slots[e].ops;
            s.slots[e].entry.epoch == s.refreshes[rid].startEpoch <==>
              forall k :: |o.slots[e].ops| <= k < |ops| ==> !Overtakes(s.slots[e].birth, ops, k)
  {
    var was, ops, birth := o.slots[e].ops, s.slots[e].ops, s.slots[e].birth;
    assert HistoryOk(o.slots[e], o.clock) && HistoryOk(s.slots[e], s.clock);
    assert ops[..|was|] == was && ops[..|ops|] == ops;
    EpochStands(birth, ops, |was|, |ops|);
    hide Replay, Overtakes, Ordered, EndsBefore;
  }

  lemma RefreshedRecords(s: Sys, rid: RefreshId, answer: Answer, now: Time, failedAt: Time)
    requires RefreshedStep(s, rid, answer, now, failedAt).Some?
    ensures var t := RefreshedStep(s, rid, answer, now, failedAt).value; var r := s.refreshes[rid]; var e := r.slot;
            && e in s.slots && e in t.slots && t.slots[e].refresh.None?
            && t.slots[e].ops ==
               if s.slots[e].entry.epoch != r.startEpoch then s.slots[e].ops
               else s.slots[e].ops + Recorded(answer, now, failedAt, s.gens + 1)
  {
    var e := s.refreshes[rid].slot;
    var u := SetSlot(s, e, s.slots[e].(refresh := None)).(
      refreshes := s.refreshes[rid := s.refreshes[rid].(running := false)], clock := failedAt);
    AbsorbRecords(u, e, answer, now, failedAt);
    hide Absorb;
  }

  /**
  A refresh that was launched at some look and comes back later: its answer is discarded exactly if a store or an
  Invalidate that acted came in between, and is otherwise recorded; either way the entry's refresh flag is free.
  */
  lemma RefreshLands(acts: seq<Action>, c: CallerId, at: Time, rid: RefreshId, mid: seq<Action>,
                     answer: Answer, now: Time, failedAt: Time, o: Sys, s: Sys, t: Sys)
    requires Run(acts + [Enter(c, at, rid)]) == Some(o) && rid in o.refreshes && o.refreshes[rid].slot in o.slots
    requires Run(acts + [Enter(c, at, rid)] + mid) == Some(s)
    requires Run(acts + [Enter(c, at, rid)] + mid + [Refreshed(rid, answer, now, failedAt)]) == Some(t)
    ensures var e := o.refreshes[rid].slot;
            && e in s.slots && e in t.slots && o.slots[e].ops <= s.slots[e].ops && t.slots[e].refresh.None?
            && var ops := s.slots[e].ops;
               t.slots[e].ops ==
                 if exists k :: |o.slots[e].ops| <= k < |ops| && Overtakes(s.slots[e].birth, ops, k) then ops
                 else ops + Recorded(answer, now, failedAt, s.gens + 1)
  {
    hide Run, Locks, Histories, Generations, Later, RefreshedStep, Overtakes, EnterStep;
    var head := acts + [Enter(c, at, rid)];
    RunSplit(acts, Enter(c, at, rid));
    RunSplit(head + mid, Refreshed(rid, answer, now, failedAt));
    RunLater(head, mid, rid);
    LaunchedNow(Run(acts).value, o, c, at, rid);
    RunInv(head);
    RunInv(head + mid);
    StandsIff(o, s, rid, o.refreshes[rid].slot);
    RefreshedRecords(s, rid, answer, now, failedAt);
  }

  /** A caller that waits for a refresh wakes exactly when that has come back, and asks for its key again. */
  lemma WakesExactly(acts: seq<Action>, c: CallerId)
    requires Run(acts).Some? && c in Run(acts).value.callers && Run(acts).value.callers[c].Waiting?
    ensures var s := Run(acts).value; var me := s.callers[c];
            && me.slot in s.slots && me.refresh in s.refreshes
            && (Step(s, Wake(c)).Some? <==> !s.refreshes[me.refresh].running)
            && (Step(s, Wake(c)).Some? ==>
                  Step(s, Wake(c)).value == s.(callers := s.callers[c := Asking(me.resolver, s.slots[me.slot].key)]))
  {
    RunInv(acts);
    assert CallerLock(Run(acts).value, c);
    hide Run, Histories, Generations;
  }

  // ---- Invalidates of nothing ----

  /** The k-th operation is an Invalidate past the window. */
  predicate Misses(e: Entry, ops: seq<Op>, k: nat)
    requires k < |ops|
  {
    ops[k].Dropped? && ops[k].now >= Before(e, ops, k).invalidateAt
  }

  /** Invalidates that find nothing to drop are counted, and the n-th in a row closes the window for the n-th backoff. */
  lemma {:induction false} MissesBackOff(e: Entry, ops: seq<Op>)
    requires e.creds.None? && ops != [] && forall k :: 0 <= k < |ops| ==> Misses(e, ops, k)
    ensures var f := Replay(e, ops);
            f.creds.None? && f.futile == e.futile + |ops| && f.invalidateAt == ops[|ops| - 1].now + Backoff(e.futile + |ops|)
  {
    var front := ops[..|ops| - 1];
    assert Misses(e, ops, |ops| - 1);
    if front == [] {
      assert Replay(e, front) == e;
    } else {
      forall k | 0 <= k < |front|
        ensures Misses(e, front, k)
      {
        assert Misses(e, ops, k) && front[..k] == ops[..k];
      }
      MissesBackOff(e, front);
    }
    hide Backoff;
  }
}
