/** The runs in which a rotation that arrives early lets two forced refetches come close. */
module CredRotation {
  import opened Common
  import opened CredModel
  import opened CredSystem
  import opened CredLocks
  import opened CredTheorems
  import opened CredSpacing

  const KEY: CacheKey := CacheKey("", "", "")

  predicate NothingFrom(s: Sys, n: int) {
    && (forall c :: c in s.callers ==> c < n) && (forall r :: r in s.refreshes ==> r < n)
    && (forall e :: e in s.slots ==> e < n)
  }

  /** Entry 0 has the history ops, no one is at work on it, and the callers of idle have found it. */
  predicate Standing(s: Sys, birth: Entry, ops: seq<Op>, idle: set<CallerId>, next: int) {
    && 0 in s.resolvers && KEY in s.resolvers[0].entries && s.resolvers[0].entries[KEY] == 0
    && 0 in s.slots && s.slots[0].birth == birth && s.slots[0].ops == ops && s.slots[0].entry == Replay(birth, ops)
    && s.slots[0].holder.None? && s.slots[0].refresh.None?
    && (forall c :: c in idle ==> c in s.callers && s.callers[c] == Found(0, 0))
    && NothingFrom(s, next)
  }

  predicate Stands(acts: seq<Action>, birth: Entry, ops: seq<Op>, idle: set<CallerId>, next: int, clock: Time) {
    Run(acts).Some? && Standing(Run(acts).value, birth, ops, idle, next) && Run(acts).value.clock == clock
  }

  function Skew(acts: seq<Action>): Time {
    if Run(acts).Some? && 0 in Run(acts).value.resolvers then Run(acts).value.resolvers[0].skew else ZERO_TIME
  }

  lemma Plays(acts: seq<Action>, a: Action)
    requires Run(acts).Some? && Step(Run(acts).value, a).Some?
    ensures Run(acts + [a]) == Step(Run(acts).value, a)
  {
    assert (acts + [a])[..|acts|] == acts;
  }

  lemma ReplayNext(birth: Entry, ops: seq<Op>, op: Op)
    ensures Replay(birth, ops + [op]) == Apply(Replay(birth, ops), op)
  {
    assert (ops + [op])[..|ops|] == ops;
  }

  /** A backend rejects the credentials. */
  lemma Rejected(acts: seq<Action>, birth: Entry, ops: seq<Op>, idle: set<CallerId>, next: int, clock: Time, now: Time)
    returns (more: seq<Action>)
    requires Stands(acts, birth, ops, idle, next, clock) && now > clock
    ensures Stands(more, birth, ops + [Dropped(now)], idle, next + 1, now)
  {
    hide Run, Apply, Replay;
    Plays(acts, Reject(next, 0, KEY));
    var acts' := acts + [Reject(next, 0, KEY)];
    Plays(acts', Invalidate(next, now));
    ReplayNext(birth, ops, Dropped(now));
    more := acts' + [Invalidate(next, now)];
  }

  /** A caller that finds nothing to serve resolves. */
  lemma Fetched(acts: seq<Action>, birth: Entry, ops: seq<Op>, idle: set<CallerId>, next: int, clock: Time,
                c: CallerId, creds: Creds, now: Time)
    returns (more: seq<Action>, gen: int)
    requires Stands(acts, birth, ops, idle, next, clock) && now > clock && c in idle && ValidAt(creds, now)
    requires var e := Replay(birth, ops); !Servable(e, now) && now >= e.retryAt
    ensures Stands(more, birth, ops + [Stored(creds, now, gen)], idle - {c}, next, now)
  {
    hide Run, Apply, Replay, Servable;
    var s := Run(acts).value;
    gen := s.gens + 1;
    Plays(acts, Enter(c, now, next));
    var acts' := acts + [Enter(c, now, next)];
    Plays(acts', Resolved(c, Gives(Some(creds))));
    ReplayNext(birth, ops, Stored(creds, now, gen));
    StoreServes(Release(Run(acts').value, c, 0), 0, Gives(Some(creds)), now, now);
    more := acts' + [Resolved(c, Gives(Some(creds)))];
  }

  /** A caller is served past refreshAt, and the refresh it launches comes back. */
  lemma Renewed(acts: seq<Action>, birth: Entry, ops: seq<Op>, idle: set<CallerId>, next: int, clock: Time,
                c: CallerId, creds: Creds, now: Time)
    returns (more: seq<Action>, gen: int)
    requires Stands(acts, birth, ops, idle, next, clock) && now > clock && c in idle && ValidAt(creds, now + 1)
    requires var e := Replay(birth, ops); Servable(e, now) && Due(e, now)
    ensures Stands(more, birth, ops + [Stored(creds, now + 1, gen)], idle - {c}, next + 1, now + 1)
  {
    hide Run, Apply, Replay;
    gen := Run(acts).value.gens + 1;
    Plays(acts, Enter(c, now, next));
    var acts' := acts + [Enter(c, now, next)];
    Plays(acts', Refreshed(next, Gives(Some(creds)), now + 1, now + 1));
    ReplayNext(birth, ops, Stored(creds, now + 1, gen));
    more := acts' + [Refreshed(next, Gives(Some(creds)), now + 1, now + 1)];
  }

  /** One more caller asks for the key and finds the entry. */
  lemma Arrived(acts: seq<Action>, birth: Entry, ops: seq<Op>, idle: set<CallerId>, next: int, clock: Time)
    returns (more: seq<Action>)
    requires Stands(acts, birth, ops, idle, next, clock) && Skew(acts) > 0
    ensures Stands(more, birth, ops, idle + {next}, next + 1, clock + 1) && Skew(more) == Skew(acts)
  {
    hide Run, Replay;
    Plays(acts, Ask(next, 0, KEY));
    var acts' := acts + [Ask(next, 0, KEY)];
    Plays(acts', Find(next, clock + 1, next, 0));
    more := acts' + [Find(next, clock + 1, next, 0)];
  }

  /** A resolver is built, and a caller makes the entry. */
  lemma Founded(skew: Time, jitter: Time) returns (acts: seq<Action>)
    requires skew > 0 && 0 <= jitter <= skew / 2
    ensures Stands(acts, NewEntry(skew, jitter), [], {1}, 2, 1) && Skew(acts) == skew
  {
    Plays([], Build(0, skew));
    acts := [] + [Build(0, skew)];
    Plays(acts, Ask(1, 0, KEY));
    acts := acts + [Ask(1, 0, KEY)];
    Plays(acts, Find(1, 1, 0, jitter));
    acts := acts + [Find(1, 1, 0, jitter)];
  }

  /** Four callers have found it. */
  lemma Opened(skew: Time, jitter: Time) returns (acts: seq<Action>)
    requires skew > 0 && 0 <= jitter <= skew / 2
    ensures Stands(acts, NewEntry(skew, jitter), [], {1, 2, 3, 4}, 5, 4)
  {
    hide Run, Standing;
    var birth := NewEntry(skew, jitter);
    acts := Founded(skew, jitter);
    acts := Arrived(acts, birth, [], {1}, 2, 1);
    acts := Arrived(acts, birth, [], {1} + {2}, 3, 2);
    acts := Arrived(acts, birth, [], {1} + {2} + {3}, 4, 3);
    assert {1} + {2} + {3} + {4} == {1, 2, 3, 4};
  }

  const OLD: Creds := Creds("a", None)
  const ROTATED: Creds := Creds("b", None)

  /** Dropped after its material came back k times, nothing stored since, and no failure pending. */
  predicate Missing(e: Entry, k: nat) {
    e.creds.None? && e.gone == Some(OLD) && e.futile == k && e.retryAt == ZERO_TIME
  }

  /** Each further rejection of an entry that is already empty counts as one more futile refetch. */
  lemma {:induction false} RejectedAgain(acts: seq<Action>, birth: Entry, ops: seq<Op>, idle: set<CallerId>, next: int,
                                         clock: Time, k: nat)
    returns (acts': seq<Action>, ops': seq<Op>, next': int, clock': Time)
    requires Stands(acts, birth, ops, idle, next, clock) && Missing(Replay(birth, ops), 0) && clock > 0
    ensures Stands(acts', birth, ops', idle, next', clock') && Missing(Replay(birth, ops'), k) && clock' > 0
  {
    if k == 0 {
      acts', ops', next', clock' := acts, ops, next, clock;
    } else {
      acts', ops', next', clock' := RejectedAgain(acts, birth, ops, idle, next, clock, k - 1);
      var e := Replay(birth, ops');
      var now := if e.invalidateAt > clock' then e.invalidateAt else clock' + 1;
      acts' := Rejected(acts', birth, ops', idle, next', clock', now);
      ReplayNext(birth, ops', Dropped(now));
      ops', next', clock' := ops' + [Dropped(now)], next' + 1, now;
    }
    hide Stands, Replay, Backoff;
  }

  lemma FirstDrop(birth: Entry, stored: Op, drop: Op)
    requires birth == NewEntry(birth.skew, birth.jitter)
    requires stored.Stored? && stored.creds == OLD && drop.Dropped? && drop.now > ZERO_TIME
    ensures !Servable(Replay(birth, []), stored.now) && Replay(birth, []).retryAt == ZERO_TIME
    ensures Missing(Replay(birth, [] + [stored] + [drop]), 0)
  {
    hide Backoff;
    assert Replay(birth, []) == birth;
    ReplayNext(birth, [], stored);
    ReplayNext(birth, [] + [stored], drop);
    hide Replay;
  }

  /** An entry whose rejected credentials have been dropped, and missed futile times since. */
  lemma Dropping(skew: Time, jitter: Time, futile: nat)
    returns (acts: seq<Action>, ops: seq<Op>, next: int, clock: Time)
    requires skew > 0 && 0 <= jitter <= skew / 2
    ensures Stands(acts, NewEntry(skew, jitter), ops, {2, 3, 4}, next, clock) && clock > 0
    ensures Missing(Replay(NewEntry(skew, jitter), ops), futile)
  {
    hide Stands, Replay, Servable, Missing;
    var birth := NewEntry(skew, jitter);
    FirstDrop(birth, Stored(OLD, 5, 0), Dropped(6));
    acts := Opened(skew, jitter);
    var gen;
    acts, gen := Fetched(acts, birth, [], {1, 2, 3, 4}, 5, 4, 1, OLD, 5);
    assert {1, 2, 3, 4} - {1} == {2, 3, 4};
    acts := Rejected(acts, birth, [] + [Stored(OLD, 5, gen)], {2, 3, 4}, 5, 5, 6);
    FirstDrop(birth, Stored(OLD, 5, gen), Dropped(6));
    acts, ops, next, clock := RejectedAgain(acts, birth, [] + [Stored(OLD, 5, gen)] + [Dropped(6)], {2, 3, 4}, 6, 6, futile);
  }

  lemma BeforePrefix(birth: Entry, ops: seq<Op>, tail: seq<Op>)
    ensures Before(birth, ops + tail, |ops|) == Replay(birth, ops)
  {
    assert (ops + tail)[..|ops|] == ops;
  }

  /** The entry now serves the old material again, for ttl from now on. */
  predicate Refilled(e: Entry, skew: Time, jitter: Time, now: Time, ttl: Time, futile: nat) {
    && e.creds == Some(Creds("a", Some(now + ttl))) && e.futile == futile && e.retryAt == ZERO_TIME
    && e.refreshAt == now + ttl - Lead(skew, jitter, ttl)
  }

  /** The rotation arrives as soon as anything can replace the refetched credentials. */
  lemma Rotates(acts: seq<Action>, birth: Entry, ops: seq<Op>, next: int, now: Time, ttl: Time, futile: nat)
    returns (acts': seq<Action>, op: Op, next': int)
    requires Stands(acts, birth, ops, {3, 4}, next, now) && ttl > 0 && now > 0 && birth.skew > 0 && birth.jitter >= 0
    requires Refilled(Replay(birth, ops), birth.skew, birth.jitter, now, ttl, futile)
    ensures op.Stored? && op.creds == ROTATED && op.now == now + SoonestRefetch(birth.skew, birth.jitter, ttl) - 2
    ensures Stands(acts', birth, ops + [op], {4}, next', op.now)
    ensures var e := Replay(birth, ops + [op]); e.creds == Some(ROTATED) && e.invalidateAt == ZERO_TIME && e.retryAt == ZERO_TIME
  {
    hide Stands, Replay, Backoff, RefreshAt;
    var e := Replay(birth, ops);
    assert {3, 4} - {3} == {4};
    var gen;
    if Lead(birth.skew, birth.jitter, ttl) >= 2 {
      acts', gen := Renewed(acts, birth, ops, {3, 4}, next, now, 3, ROTATED, e.refreshAt + 1);
      op, next' := Stored(ROTATED, e.refreshAt + 2, gen), next + 1;
    } else {
      acts', gen := Fetched(acts, birth, ops, {3, 4}, next, now, 3, ROTATED, now + ttl);
      op, next' := Stored(ROTATED, now + ttl, gen), next;
    }
    ReplayNext(birth, ops, op);
  }

  /** The refetch that the window follows. */
  lemma Refilling(skew: Time, jitter: Time, ttl: Time, futile: nat)
    returns (acts: seq<Action>, start: seq<Op>, first: Op, next: int)
    requires skew > 0 && 0 <= jitter <= skew / 2 && ttl > 0 && futile >= 1
    ensures first.Stored? && first.creds == Creds("a", Some(first.now + ttl)) && first.now > 0
    ensures Stands(acts, NewEntry(skew, jitter), start + [first], {3, 4}, next, first.now)
    ensures Missing(Replay(NewEntry(skew, jitter), start), futile - 1)
    ensures Refilled(Replay(NewEntry(skew, jitter), start + [first]), skew, jitter, first.now, ttl, futile)
  {
    hide Stands, Replay, Backoff;
    var birth := NewEntry(skew, jitter);
    var clock, gen;
    acts, start, next, clock := Dropping(skew, jitter, futile - 1);
    var creds := Creds("a", Some(clock + 1 + ttl));
    acts, gen := Fetched(acts, birth, start, {2, 3, 4}, next, clock, 2, creds, clock + 1);
    first := Stored(creds, clock + 1, gen);
    ReplayNext(birth, start, first);
    SameSettings(birth, start);
    assert {2, 3, 4} - {2} == {3, 4};
  }

  lemma RefillIsUnmoved(birth: Entry, start: seq<Op>, first: Op, tail: seq<Op>, ttl: Time, futile: nat)
    requires first.Stored? && first.creds == Creds("a", Some(first.now + ttl)) && futile >= 1
    requires Missing(Replay(birth, start), futile - 1)
    ensures Unmoved(birth, start + [first] + tail, |start|, birth.skew, birth.jitter, Some(ttl), futile)
  {
    hide Replay, Backoff;
    ReplayNext(birth, start, first);
    assert start + [first] + tail == start + ([first] + tail);
    BeforePrefix(birth, start, [first] + tail);
    BeforePrefix(birth, start + [first], tail);
  }

  /** The rotated credentials are rejected too, and come back the same. */
  lemma RotatedRefetch(birth: Entry, middle: seq<Op>, drop: Op, last: Op)
    requires drop.Dropped? && last.Stored? && last.creds == ROTATED
    requires var e := Replay(birth, middle); e.creds == Some(ROTATED) && e.invalidateAt <= drop.now
    ensures var ops := middle + [drop] + [last];
            Refetches(birth, ops, |middle| + 1) && !Moves(birth, ops, |middle| + 1)
  {
    hide Replay;
    ReplayNext(birth, middle, drop);
    BeforePrefix(birth, middle + [drop], [last]);
  }

  /** The run, and the two refetches that are no further apart than what bounds them. */
  lemma Closest(skew: Time, jitter: Time, ttl: Time, futile: nat)
    returns (acts: seq<Action>, ops: seq<Op>, i: nat, j: nat)
    requires skew > 0 && 0 <= jitter <= skew / 2 && ttl > 0 && futile >= 1
    ensures var birth := NewEntry(skew, jitter);
            && Run(acts).Some? && 0 in Run(acts).value.slots
            && Run(acts).value.slots[0].birth == birth && Run(acts).value.slots[0].ops == ops
            && i < j < |ops| && Unmoved(birth, ops, i, skew, jitter, Some(ttl), futile)
            && Refetches(birth, ops, j) && !Moves(birth, ops, j)
            && ops[j].now - ops[i].now == SoonestRefetch(skew, jitter, ttl)
  {
    hide Run, Standing, Replay, Backoff, Unmoved, Refetches, Moves;
    var birth := NewEntry(skew, jitter);
    var start, first, rotation, next, gen;
    acts, start, first, next := Refilling(skew, jitter, ttl, futile);
    acts, rotation, next := Rotates(acts, birth, start + [first], next, first.now, ttl, futile);
    var middle := start + [first] + [rotation];
    var drop := Dropped(rotation.now + 1);
    acts := Rejected(acts, birth, middle, {4}, next, rotation.now, drop.now);
    ReplayNext(birth, middle, drop);
    acts, gen := Fetched(acts, birth, middle + [drop], {4}, next + 1, drop.now, 4, ROTATED, drop.now + 1);
    var last := Stored(ROTATED, drop.now + 1, gen);
    ops, i, j := middle + [drop] + [last], |start|, |middle| + 1;
    assert ops == start + [first] + [rotation, drop, last];
    RefillIsUnmoved(birth, start, first, [rotation, drop, last], ttl, futile);
    RotatedRefetch(birth, middle, drop, last);
    StandsShows(acts, birth, ops, {4} - {4}, next + 1, last.now);
  }

  lemma StandsShows(acts: seq<Action>, birth: Entry, ops: seq<Op>, idle: set<CallerId>, next: int, clock: Time)
    requires Stands(acts, birth, ops, idle, next, clock)
    ensures Run(acts).Some? && 0 in Run(acts).value.slots
    ensures Run(acts).value.slots[0].birth == birth && Run(acts).value.slots[0].ops == ops
  {
  }

  /** The spacing that the window promises, for every run and entry and any later forced refetch. */
  ghost predicate Spaced(acts: seq<Action>, e: SlotId, i: nat, j: nat, skew: Time, jitter: Time, ttl: Option<Time>, futile: nat)
    requires futile >= 1
  {
    Run(acts).Some? && e in Run(acts).value.slots ==>
      var sl := Run(acts).value.slots[e];
      i < j < |sl.ops| && Unmoved(sl.birth, sl.ops, i, skew, jitter, ttl, futile) && Refetches(sl.birth, sl.ops, j) ==>
        sl.ops[j].now - sl.ops[i].now >= Backoff(futile)
  }

  /**
  The window holds against every run exactly when the credentials that bought it never expire or live so
  long that nothing replaces them inside it.
  */
  lemma WindowHoldsExactly(skew: Time, jitter: Time, ttl: Option<Time>, futile: nat)
    requires skew > 0 && 0 <= jitter <= skew / 2 && (ttl.Some? ==> ttl.value > 0) && futile >= 1
    ensures (forall acts, e, i, j :: Spaced(acts, e, i, j, skew, jitter, ttl, futile)) <==> Guarded(skew, jitter, ttl, futile)
  {
    hide Run, Unmoved, Backoff;
    if Guarded(skew, jitter, ttl, futile) {
      forall acts, e, i, j
        ensures Spaced(acts, e, i, j, skew, jitter, ttl, futile)
      {
        if Run(acts).Some? && e in Run(acts).value.slots {
          GuardedRun(acts, e, i, j, skew, jitter, ttl, futile);
        }
      }
    } else {
      var acts, ops, i, j := Closest(skew, jitter, ttl.value, futile);
      assert !Spaced(acts, 0, i, j, skew, jitter, ttl, futile);
    }
  }

  lemma GuardedRun(acts: seq<Action>, e: SlotId, i: nat, j: nat, skew: Time, jitter: Time, ttl: Option<Time>, futile: nat)
    requires Run(acts).Some? && e in Run(acts).value.slots && futile >= 1 && Guarded(skew, jitter, ttl, futile)
    ensures Spaced(acts, e, i, j, skew, jitter, ttl, futile)
  {
    hide Run, Unmoved, Guarded, Backoff, Locks, Generations;
    var sl := Run(acts).value.slots[e];
    if i < j < |sl.ops| && Unmoved(sl.birth, sl.ops, i, skew, jitter, ttl, futile) && Refetches(sl.birth, sl.ops, j) {
      RunInv(acts);
      RunOccasions(acts);
      assert HistoryOk(sl, Run(acts).value.clock) && Occasioned(sl.birth, sl.ops);
      GuardedSpaces(sl.birth, sl.ops, i, j, skew, jitter, ttl, futile);
    }
  }
}
