/** The failure backoff is heeded: when a look at an entry asks its source, in the foreground or ahead of time. */
module CredBackoff {
  import opened Common
  import opened CredModel
  import opened CredSystem
  import opened CredLocks
  import opened CredTheorems

  /** The failures at the end of a history, counted since the last store or the last Invalidate that acted. */
  function Failing(e: Entry, ops: seq<Op>): nat {
    if ops == [] then 0
    else
      var front, op := ops[..|ops| - 1], ops[|ops| - 1];
      match op
      case Stored(_, _, _) => 0
      case Failed(_) => Failing(e, front) + 1
      case Dropped(now) => if Acts(Replay(e, front), now) then 0 else Failing(e, front)
  }

  /** The time of the last failure. */
  function LastFailure(ops: seq<Op>): Time {
    if ops == [] then ZERO_TIME
    else if ops[|ops| - 1].Failed? then ops[|ops| - 1].now
    else LastFailure(ops[..|ops| - 1])
  }

  predicate Acts(e: Entry, now: Time) { Drop(e, now) != e }

  lemma {:induction false} RetryIsBackoff(e: Entry, ops: seq<Op>)
    requires e.fails == 0 && e.retryAt == ZERO_TIME
    ensures var f := Replay(e, ops); var n := Failing(e, ops);
            f.fails == n && f.retryAt == if n == 0 then ZERO_TIME else LastFailure(ops) + Backoff(n)
  {
    hide Backoff;
    if ops != [] {
      var front, op := ops[..|ops| - 1], ops[|ops| - 1];
      RetryIsBackoff(e, front);
      if op.Dropped? {
        InvalidateActs(Replay(e, front), op.now);
      }
    }
  }

  /** Failures in an unbroken row at the end are failures of the streak. */
  lemma {:induction false} RowIsStreak(e: Entry, ops: seq<Op>, n: nat)
    requires 1 <= n <= |ops| && AllFail(ops[|ops| - n..])
    ensures Failing(e, ops) >= n && LastFailure(ops) == ops[|ops| - 1].now
    decreases n
  {
    assert ops[|ops| - n..][n - 1] == ops[|ops| - 1];
    if n > 1 {
      var front := ops[..|ops| - 1];
      assert front[|front| - (n - 1)..] == ops[|ops| - n..][..n - 1];
      RowIsStreak(e, front, n - 1);
    }
  }

  lemma {:induction false} ClockRises(acts: seq<Action>)
    requires Run(acts).Some?
    ensures Run(acts).value.clock >= ZERO_TIME
  {
    if acts != [] {
      ClockRises(acts[..|acts| - 1]);
      StepClock(Run(acts[..|acts| - 1]).value, acts[|acts| - 1]);
      hide Step;
    }
  }

  lemma StepClock(s: Sys, a: Action)
    requires Step(s, a).Some?
    ensures Step(s, a).value.clock >= s.clock
  {
    hide Apply;
  }

  lemma RunSplit(acts: seq<Action>, a: Action)
    requires Run(acts + [a]).Some?
    ensures Run(acts).Some? && Step(Run(acts).value, a) == Run(acts + [a])
  {
    assert (acts + [a])[..|acts|] == acts;
  }

  /** The credentials the entry holds, if they are still valid. */
  predicate Holds(sl: Slot, now: Time) {
    sl.entry.creds.Some? && (sl.entry.creds.value.expiresAt.None? || now < sl.entry.creds.value.expiresAt.value)
  }

  /** The streak has its backoff still to run: at its very end a foreground call may try again, a refresh not yet. */
  predicate BackingOff(sl: Slot, now: Time, foreground: bool) {
    var n := Failing(sl.birth, sl.ops);
    n > 0 && (if foreground then now < LastFailure(sl.ops) + Backoff(n) else now <= LastFailure(sl.ops) + Backoff(n))
  }

  predicate Launches(sl: Slot, now: Time) {
    && Holds(sl, now) && sl.entry.creds.value.expiresAt.Some? && now > sl.entry.refreshAt
    && sl.refresh.None? && !BackingOff(sl, now, false)
  }

  /**
  What a look at an entry comes to: valid credentials are served, and a refresh is launched exactly if they
  expire, refreshAt has passed, none runs, and the failures since the last store back off no longer;
  otherwise a running refresh is waited for, a backoff answers with the last error, and the source is asked.
  */
  lemma EnterExactly(acts: seq<Action>, s: Sys, t: Sys, c: CallerId, now: Time, rid: RefreshId)
    requires Run(acts) == Some(s) && Run(acts + [Enter(c, now, rid)]) == Some(t)
    ensures c in s.callers && s.callers[c].Found? && s.callers[c].slot in s.slots
    ensures var e := s.callers[c].slot; var sl := s.slots[e];
            && t.callers == s.callers[c :=
                 if Holds(sl, now) then Finished
                 else if sl.refresh.Some? then Waiting(s.callers[c].resolver, e, sl.refresh.value)
                 else if BackingOff(sl, now, true) then Finished
                 else Resolving(e, now)]
            && t.refreshes == (if Launches(sl, now)
                               then s.refreshes[rid := Refresh(e, sl.entry.epoch, sl.entry.creds.value, true)] else s.refreshes)
            && t.served == if Holds(sl, now)
                           then s.served + [Served(e, sl.key, sl.entry.creds.value, sl.entry.gen, now)] else s.served
  {
    RunSplit(acts, Enter(c, now, rid));
    RunInv(acts);
    ClockRises(acts);
    var sl := s.slots[s.callers[c].slot];
    assert HistoryOk(sl, s.clock);
    RetryIsBackoff(sl.birth, sl.ops);
    hide Run, Backoff, Replay, Failing, LastFailure, Locks, Generations, Histories;
  }

  /**
  If an entry's history ends with n failures in a row, the last of them at t, then before t + Backoff(n) no
  call asks its source in the foreground, and until it has passed no refresh is launched.
  */
  lemma BackoffHeeded(acts: seq<Action>, s: Sys, t: Sys, c: CallerId, now: Time, rid: RefreshId, e: SlotId, n: nat)
    requires Run(acts) == Some(s) && Run(acts + [Enter(c, now, rid)]) == Some(t)
    requires c in s.callers && s.callers[c].Found? && s.callers[c].slot == e && e in s.slots
    requires 1 <= n <= |s.slots[e].ops| && AllFail(s.slots[e].ops[|s.slots[e].ops| - n..])
    ensures var last := s.slots[e].ops[|s.slots[e].ops| - 1].now;
            && (now < last + Backoff(n) ==> !HoldsOn(t, c, e))
            && (now <= last + Backoff(n) ==> t.refreshes == s.refreshes)
  {
    EnterExactly(acts, s, t, c, now, rid);
    RowBacksOff(s.slots[e], now, n);
    hide Run, Backoff, BackingOff, Holds, AllFail;
  }

  lemma RowBacksOff(sl: Slot, now: Time, n: nat)
    requires 1 <= n <= |sl.ops| && AllFail(sl.ops[|sl.ops| - n..])
    ensures var last := sl.ops[|sl.ops| - 1].now;
            (now < last + Backoff(n) ==> BackingOff(sl, now, true)) && (now <= last + Backoff(n) ==> BackingOff(sl, now, false))
  {
    RowIsStreak(sl.birth, sl.ops, n);
    BackoffMonotone(n, Failing(sl.birth, sl.ops));
    hide Backoff, Failing, LastFailure, AllFail;
  }

  predicate AsksNothing(s: Sys, t: Sys) {
    && t.refreshes.Keys == s.refreshes.Keys
    && forall c :: c in t.callers && t.callers[c].Resolving? ==> c in s.callers && t.callers[c] == s.callers[c]
  }

  lemma AbsorbAsksNothing(s: Sys, t: Sys, e: SlotId, answer: Answer, now: Time, failedAt: Time)
    requires e in s.slots && t == Absorb(s, e, answer, now, failedAt)
    ensures t.refreshes == s.refreshes && t.callers == s.callers
  {
    hide Apply;
  }

  lemma ResolvedAsksNothing(s: Sys, c: CallerId, answer: Answer)
    requires ResolvedStep(s, c, answer).Some?
    ensures AsksNothing(s, ResolvedStep(s, c, answer).value)
  {
    var e, since := s.callers[c].slot, s.callers[c].since;
    AbsorbAsksNothing(Release(s, c, e), Absorb(Release(s, c, e), e, answer, since, since), e, answer, since, since);
    hide Absorb;
  }

  lemma RefreshedAsksNothing(s: Sys, rid: RefreshId, answer: Answer, now: Time, failedAt: Time)
    requires RefreshedStep(s, rid, answer, now, failedAt).Some?
    ensures AsksNothing(s, RefreshedStep(s, rid, answer, now, failedAt).value)
  {
    hide Apply;
  }

  /** Only a look at an entry asks its source or launches a refresh. */
  lemma OnlyEnterAsks(s: Sys, a: Action)
    requires Step(s, a).Some? && !a.Enter?
    ensures AsksNothing(s, Step(s, a).value)
  {
    hide EnterStep, ResolvedStep, RefreshedStep, Apply;
    match a
    case Resolved(c, answer) => ResolvedAsksNothing(s, c, answer);
    case Refreshed(rid, answer, now, failedAt) => RefreshedAsksNothing(s, rid, answer, now, failedAt);
    case _ =>
  }

  /** Whom an entry's lookup forgets: entries other than the one asked for, unused for over half an hour, at a sweep. */
  lemma FindForgets(s: Sys, c: CallerId, now: Time, newSlot: SlotId, jitter: Time, q: CacheKey)
    requires Locks(s) && FindStep(s, c, now, newSlot, jitter).Some?
    requires s.callers[c].Asking? && s.callers[c].resolver in s.resolvers
    ensures var t := FindStep(s, c, now, newSlot, jitter).value; var r := s.callers[c].resolver; var k := s.callers[c].key;
            var was := s.resolvers[r];
            && r in t.resolvers && k in t.resolvers[r].entries && t.callers[c] == Found(r, t.resolvers[r].entries[k])
            && (k in was.entries ==> t.resolvers[r].entries[k] == was.entries[k])
            && (q in was.entries && q != k ==>
                  (q in t.resolvers[r].entries <==>
                    !(now - was.lastSweep > 300_000_000_000 && now - s.slots[was.entries[q]].lastUsed > 1_800_000_000_000)))
            && t.slots[t.resolvers[r].entries[k]].lastUsed == now
  {
    assert ResolverLock(s, s.callers[c].resolver);
  }
}
