/**
How far apart the refetches are that rejections force: whenever the first one's credentials cannot be
replaced inside the window it bought, and for every smaller life a run in which they are closer.
*/
module CredSpacing {
  import opened Common
  import opened CredModel
  import opened CredSystem
  import opened CredLocks
  import opened CredTheorems

  // ---- Every store has its occasion ----

  /** Nothing could be served, or a refresh was launched past refreshAt and came back later still. */
  predicate Occasion(b: Entry, now: Time) {
    !Servable(b, now) || (b.creds.value.expiresAt.Some? && now >= b.refreshAt + 2)
  }

  ghost predicate Occasioned(e: Entry, ops: seq<Op>) {
    forall m :: 0 <= m < |ops| && ops[m].Stored? ==> Occasion(Before(e, ops, m), ops[m].now)
  }

  /** A refresh that may still store was launched past refreshAt, for credentials that expire. */
  predicate LaunchedLate(s: Sys, rid: RefreshId)
    requires rid in s.refreshes
  {
    var r := s.refreshes[rid];
    r.running && r.slot in s.slots && s.slots[r.slot].entry.epoch == r.startEpoch ==>
      r.base.expiresAt.Some? && s.slots[r.slot].entry.refreshAt < s.clock
  }

  predicate NothingServable(s: Sys, c: CallerId)
    requires c in s.callers
  {
    s.callers[c].Resolving? && s.callers[c].slot in s.slots ==>
      !Servable(s.slots[s.callers[c].slot].entry, s.callers[c].since)
  }

  ghost predicate Occasions(s: Sys) {
    && (forall e :: e in s.slots ==> Occasioned(s.slots[e].birth, s.slots[e].ops))
    && (forall rid :: rid in s.refreshes ==> LaunchedLate(s, rid))
    && (forall c :: c in s.callers ==> NothingServable(s, c))
  }

  predicate NoNewRefresh(s: Sys, t: Sys) {
    forall rid :: rid in t.refreshes && t.refreshes[rid].running ==> rid in s.refreshes && s.refreshes[rid] == t.refreshes[rid]
  }

  /** A step that neither records nor launches nor begins to resolve. */
  lemma OccasionFrame(s: Sys, t: Sys)
    requires Occasions(s) && Locks(s) && s.clock <= t.clock && NoNewHolder(s, t) && NoNewRefresh(s, t)
    requires forall e :: e in t.slots ==> SameHistory(s, t, e)
    ensures Occasions(t)
  {
    forall e | e in t.slots
      ensures Occasioned(t.slots[e].birth, t.slots[e].ops)
    {
      assert SameHistory(s, t, e);
    }
    forall rid | rid in t.refreshes
      ensures LaunchedLate(t, rid)
    {
      if t.refreshes[rid].running {
        assert LaunchedLate(s, rid) && RefreshLock(s, rid);
      }
    }
    forall c | c in t.callers
      ensures NothingServable(t, c)
    {
      if t.callers[c].Resolving? {
        assert NothingServable(s, c) && CallerLock(s, c);
      }
    }
    hide Occasioned, Replay;
  }

  lemma OccasionedNext(e: Entry, ops: seq<Op>, op: Op)
    requires Occasioned(e, ops) && (op.Stored? ==> Occasion(Replay(e, ops), op.now))
    ensures Occasioned(e, ops + [op])
  {
    forall m | 0 <= m < |ops + [op]| && (ops + [op])[m].Stored?
      ensures Occasion(Before(e, ops + [op], m), (ops + [op])[m].now)
    {
      assert (ops + [op])[..m] == ops[..m];
      assert ops[..|ops|] == ops;
    }
  }

  /** An operation that leaves the epoch leaves what is held, and when it is refreshed. */
  lemma SameEpoch(e: Entry, op: Op)
    ensures Apply(e, op).epoch >= e.epoch
    ensures Apply(e, op).epoch == e.epoch ==> Apply(e, op).creds == e.creds && Apply(e, op).refreshAt == e.refreshAt
  {
  }

  lemma RecordOccasion(s: Sys, e: SlotId, op: Op)
    requires Occasions(s) && e in s.slots && s.slots[e].entry == Replay(s.slots[e].birth, s.slots[e].ops)
    requires op.Stored? ==> Occasion(s.slots[e].entry, op.now)
    requires forall c :: !HoldsOn(s, c, e)
    requires forall rid :: rid in s.refreshes && RunsOn(s, rid, e) ==> s.refreshes[rid].startEpoch <= s.slots[e].entry.epoch
    ensures Occasions(Record(s, e, op))
  {
    var t := Record(s, e, op);
    OccasionedNext(s.slots[e].birth, s.slots[e].ops, op);
    SameEpoch(s.slots[e].entry, op);
    forall rid | rid in t.refreshes
      ensures LaunchedLate(t, rid)
    {
      assert LaunchedLate(s, rid);
      if t.refreshes[rid].running && t.refreshes[rid].slot == e {
        assert RunsOn(s, rid, e);
      }
    }
    forall c | c in t.callers
      ensures NothingServable(t, c)
    {
      assert NothingServable(s, c) && !HoldsOn(s, c, e);
    }
    hide Apply, Replay, Occasioned;
  }

  lemma AbsorbOccasion(s: Sys, e: SlotId, answer: Answer, now: Time, failedAt: Time)
    requires Occasions(s) && e in s.slots && s.slots[e].entry == Replay(s.slots[e].birth, s.slots[e].ops)
    requires Occasion(s.slots[e].entry, now)
    requires forall c :: !HoldsOn(s, c, e)
    requires forall rid :: rid in s.refreshes && RunsOn(s, rid, e) ==> s.refreshes[rid].startEpoch <= s.slots[e].entry.epoch
    ensures Occasions(Absorb(s, e, answer, now, failedAt))
  {
    hide Apply, Moved, Replay, Occasion, Servable;
    if answer.Gives? && ValidAt(Given(answer.creds), now) {
      var op := Stored(Given(answer.creds), now, s.gens + 1);
      RecordOccasion(s, e, op);
      SameOccasions(Record(s, e, op), RecordStore(s, e, Given(answer.creds), now));
    } else if !answer.Cancelled? {
      RecordOccasion(s, e, Failed(failedAt));
    }
  }

  lemma SameOccasions(s: Sys, t: Sys)
    requires Occasions(s) && t.slots == s.slots && t.refreshes == s.refreshes && t.callers == s.callers && t.clock == s.clock
    ensures Occasions(t)
  {
    hide Occasioned, Servable;
  }

  lemma EnterOccasion(s: Sys, c: CallerId, now: Time, rid: RefreshId)
    requires Occasions(s) && Locks(s) && EnterStep(s, c, now, rid).Some?
    ensures Occasions(EnterStep(s, c, now, rid).value)
  {
    hide Occasioned, Replay;
    var t := EnterStep(s, c, now, rid).value;
    var e := s.callers[c].slot;
    forall f | f in t.slots
      ensures Occasioned(t.slots[f].birth, t.slots[f].ops)
    {
      assert SameHistory(s, t, f);
    }
    forall q | q in t.refreshes
      ensures LaunchedLate(t, q)
    {
      if q in s.refreshes {
        assert LaunchedLate(s, q);
      }
    }
    forall d | d in t.callers
      ensures NothingServable(t, d)
    {
      assert d in s.callers && NothingServable(s, d);
    }
    hide Locks;
  }

  lemma RunsBehind(s: Sys, e: SlotId)
    requires Locks(s) && e in s.slots
    ensures forall rid :: rid in s.refreshes && RunsOn(s, rid, e) ==> s.refreshes[rid].startEpoch <= s.slots[e].entry.epoch
  {
    forall rid | rid in s.refreshes && RunsOn(s, rid, e)
      ensures s.refreshes[rid].startEpoch <= s.slots[e].entry.epoch
    {
      assert RefreshLock(s, rid);
    }
  }

  lemma ResolvedOccasion(s: Sys, c: CallerId, answer: Answer)
    requires Occasions(s) && Histories(s) && Locks(s) && ResolvedStep(s, c, answer).Some?
    ensures Occasions(ResolvedStep(s, c, answer).value)
  {
    var e, since := s.callers[c].slot, s.callers[c].since;
    var u := Release(s, c, e);
    assert HistoryOk(s.slots[e], s.clock) && NothingServable(s, c);
    ReleaseKeepsLocks(s, c, e);
    OccasionFrame(s, u);
    FreeSlot(u, e);
    RunsBehind(u, e);
    AbsorbOccasion(u, e, answer, since, since);
    AbsorbIsLocal(u, e, answer, since, since);
    AbsorbKeepsLocks(u, e, answer, since, since);
    OccasionFrame(Absorb(u, e, answer, since, since), ResolvedStep(s, c, answer).value);
    hide Absorb, Locks, HistoryOk, Replay, Occasions, Servable;
  }

  lemma RefreshedOccasion(s: Sys, rid: RefreshId, answer: Answer, now: Time, failedAt: Time)
    requires Occasions(s) && Histories(s) && Locks(s) && RefreshedStep(s, rid, answer, now, failedAt).Some?
    ensures Occasions(RefreshedStep(s, rid, answer, now, failedAt).value)
  {
    var r := s.refreshes[rid];
    var v := SetSlot(s, r.slot, s.slots[r.slot].(refresh := None)).(refreshes := s.refreshes[rid := r.(running := false)]);
    var u := v.(clock := failedAt);
    assert HistoryOk(s.slots[r.slot], s.clock) && LaunchedLate(s, rid) && RefreshLock(s, rid);
    OccasionFrame(s, u);
    FreeSlot(s, r.slot);
    assert forall c :: HoldsOn(u, c, r.slot) == HoldsOn(s, c, r.slot);
    RetireKeepsLocks(s, rid);
    RunsBehind(v, r.slot);
    if s.slots[r.slot].entry.epoch == r.startEpoch {
      AbsorbOccasion(u, r.slot, answer, now, failedAt);
    }
    hide Absorb, Locks, Histories, Replay, Occasions;
  }

  lemma InvalidateOccasion(s: Sys, c: CallerId, now: Time)
    requires Occasions(s) && Histories(s) && Locks(s) && InvalidateStep(s, c, now).Some?
    ensures Occasions(InvalidateStep(s, c, now).value)
  {
    var e := s.callers[c].slot;
    var u := SetCaller(s, c, Finished).(clock := now);
    assert HistoryOk(s.slots[e], s.clock);
    OccasionFrame(s, u);
    FreeSlot(s, e);
    RunsBehind(s, e);
    assert forall d :: HoldsOn(u, d, e) ==> HoldsOn(s, d, e);
    RecordOccasion(u, e, Dropped(now));
    assert Record(u, e, Dropped(now)) == InvalidateStep(s, c, now).value;
    hide Locks, Histories, Apply, Occasions, Replay;
  }

  lemma FindOccasion(s: Sys, c: CallerId, now: Time, newSlot: SlotId, jitter: Time)
    requires Occasions(s) && Locks(s) && FindStep(s, c, now, newSlot, jitter).Some?
    ensures Occasions(FindStep(s, c, now, newSlot, jitter).value)
  {
    hide Occasions, Locks, Replay;
    OccasionFrame(s, FindStep(s, c, now, newSlot, jitter).value);
  }

  lemma OccasionsStep(s: Sys, a: Action)
    requires Occasions(s) && Histories(s) && Locks(s) && Step(s, a).Some?
    ensures Occasions(Step(s, a).value)
  {
    hide FindStep, EnterStep, ResolvedStep, RefreshedStep, InvalidateStep, Occasions, Histories, Locks;
    match a
    case Enter(c, now, rid) => EnterOccasion(s, c, now, rid);
    case Resolved(c, answer) => ResolvedOccasion(s, c, answer);
    case Refreshed(rid, answer, now, failedAt) => RefreshedOccasion(s, rid, answer, now, failedAt);
    case Invalidate(c, now) => InvalidateOccasion(s, c, now);
    case Find(c, now, newSlot, jitter) => FindOccasion(s, c, now, newSlot, jitter);
    case _ => OccasionFrame(s, Step(s, a).value);
  }

  lemma {:induction false} RunOccasions(acts: seq<Action>)
    requires Run(acts).Some?
    ensures Occasions(Run(acts).value)
  {
    if acts != [] {
      var front, a := acts[..|acts| - 1], acts[|acts| - 1];
      RunOccasions(front);
      RunInv(front);
      OccasionsStep(Run(front).value, a);
      hide Locks, Histories, Generations, Occasions, Step;
    }
  }

  // ---- Forwards: what a refetch's own credentials allow ----

  /** t is past the window that the refetch at n bought with futile, or late enough for its credentials to have been replaced. */
  predicate Reached(t: Time, opens: Time, refreshAt: Time, c: Creds, delay: Time) {
    || t >= opens
    || (c.expiresAt.Some? && (t >= refreshAt + 2 + delay || t >= c.expiresAt.value + delay))
  }

  /**
  From a refetch that came back with the same material on: its credentials are held untouched, or were
  replaced late enough, or were dropped later than that.
  */
  predicate Onward(after: Entry, b: Entry, last: Time)
    requires after.creds.Some?
  {
    var c := after.creds.value;
    || (b.creds == after.creds && b.refreshAt == after.refreshAt && b.invalidateAt == after.invalidateAt)
    || (b.creds.Some? && Reached(last, after.invalidateAt, after.refreshAt, c, 0))
    || (b.creds.None? && Reached(last, after.invalidateAt, after.refreshAt, c, 1))
  }

  lemma OnwardStep(after: Entry, b: Entry, last: Time, op: Op)
    requires after.creds.Some? && Onward(after, b, last) && last < op.now
    requires op.Stored? ==> Occasion(b, op.now)
    ensures Onward(after, Apply(b, op), op.now)
  {
    hide Backoff;
  }

  lemma {:induction false} RunsOnward(e: Entry, ops: seq<Op>, i: nat, j: nat)
    requires i < j <= |ops| && Ordered(ops) && Occasioned(e, ops) && ops[i].Stored?
    ensures var after := Before(e, ops, i + 1);
            after.creds == Some(ops[i].creds) && Onward(after, Before(e, ops, j), ops[j - 1].now)
    decreases j
  {
    hide Onward, Occasion;
    BeforeNext(e, ops, j - 1);
    if j > i + 1 {
      RunsOnward(e, ops, i, j - 1);
      assert ops[j - 2].now < ops[j - 1].now;
      OnwardStep(Before(e, ops, i + 1), Before(e, ops, j - 1), ops[j - 2].now, ops[j - 1]);
      hide Apply, Before;
    } else {
      OnwardStart(Before(e, ops, i + 1), ops[i].now);
    }
  }

  lemma OnwardStart(after: Entry, last: Time)
    requires after.creds.Some?
    ensures Onward(after, after, last)
  {
  }

  /** How long before their expiry credentials that last ttl are refreshed. */
  function Lead(skew: Time, jitter: Time, ttl: Time): Time {
    if skew + jitter > ttl / 2 then ttl / 2 else skew + jitter
  }

  /**
  The least time in which another forced refetch can follow one whose credentials last ttl: a refresh is
  launched past refreshAt and comes back, or a caller resolves at the expiry; then a rejection, then the refetch.
  */
  function SoonestRefetch(skew: Time, jitter: Time, ttl: Time): Time {
    if Lead(skew, jitter, ttl) >= 2 then ttl - Lead(skew, jitter, ttl) + 4 else ttl + 2
  }

  /** The credentials never expire, or live long enough not to be replaced inside the window. */
  predicate Guarded(skew: Time, jitter: Time, ttl: Option<Time>, futile: nat)
    requires futile >= 1
  {
    ttl.Some? ==> Backoff(futile) <= SoonestRefetch(skew, jitter, ttl.value)
  }

  function Ttl(op: Op): Option<Time>
    requires op.Stored?
  {
    if op.creds.expiresAt.None? then None else Some(op.creds.expiresAt.value - op.now)
  }

  /** A forced refetch that came back with the material it was to replace: the entry's settings, its ttl, how many in a row. */
  predicate Unmoved(e: Entry, ops: seq<Op>, i: nat, skew: Time, jitter: Time, ttl: Option<Time>, futile: nat)
    requires i < |ops|
  {
    && Refetches(e, ops, i) && !Moves(e, ops, i)
    && e.skew == skew && e.jitter == jitter && Ttl(ops[i]) == ttl && Before(e, ops, i + 1).futile == futile
  }

  lemma {:induction false} SameSettings(e: Entry, ops: seq<Op>)
    ensures Replay(e, ops).skew == e.skew && Replay(e, ops).jitter == e.jitter
  {
    if ops != [] {
      SameSettings(e, ops[..|ops| - 1]);
    }
    hide Backoff, RefreshAt, Moved;
  }

  lemma GuardedSpaces(e: Entry, ops: seq<Op>, i: nat, j: nat, skew: Time, jitter: Time, ttl: Option<Time>, futile: nat)
    requires i < j < |ops| && Ordered(ops) && Occasioned(e, ops) && futile >= 1
    requires Unmoved(e, ops, i, skew, jitter, ttl, futile) && Refetches(e, ops, j) && Guarded(skew, jitter, ttl, futile)
    ensures ops[j].now - ops[i].now >= Backoff(futile)
  {
    RunsOnward(e, ops, i, j);
    assert ops[j - 1].now < ops[j].now;
    BeforeNext(e, ops, i);
    SameSettings(e, ops[..i]);
    hide Backoff, Replay, Occasioned, Ordered;
  }
}
