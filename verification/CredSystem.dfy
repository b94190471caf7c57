/**
Every goroutine that uses the credential caches, as one transition system: callers of ResolveGen and
of Invalidate, background refreshes, sweeps, and resolvers rebuilt at any time. A step is one section
that holds a mutex, or one answer from the credential source; Step is None where it cannot happen.
*/
module CredSystem {
  import opened Common
  import opened CredModel

  type SlotId = int
  type CallerId = int
  type RefreshId = int
  type ResolverId = int

  const SWEEP_EVERY: Time := 300_000_000_000
  const IDLE_EVICT: Time := 1_800_000_000_000

  datatype CacheKey = CacheKey(tenant: string, user: string, server: string)

  /** A cacheEntry: holder is the caller that resolves with its mutex held, ops what happened to it. */
  datatype Slot = Slot(
    key: CacheKey, entry: Entry, birth: Entry, ops: seq<Op>, holder: Option<CallerId>,
    refresh: Option<RefreshId>, lastUsed: Time)

  datatype Resolver = Resolver(skew: Time, entries: map<CacheKey, SlotId>, lastSweep: Time)

  datatype Caller =
    | Asking(resolver: ResolverId, key: CacheKey)
    | Found(resolver: ResolverId, slot: SlotId)
    | Waiting(resolver: ResolverId, slot: SlotId, refresh: RefreshId)
    | Resolving(slot: SlotId, since: Time)
    | Rejecting(slot: SlotId)
    | Finished

  /** A refreshAhead goroutine and the credentials it was launched to replace. */
  datatype Refresh = Refresh(slot: SlotId, startEpoch: nat, base: Creds, running: bool)

  /** A successful ResolveGen, and the time it had sampled. */
  datatype Served = Served(slot: SlotId, key: CacheKey, creds: Creds, gen: int, sampled: Time)

  /** Which entry a generation was issued for, and with what material. */
  datatype Issue = Issue(slot: SlotId, material: Material)

  datatype Sys = Sys(
    resolvers: map<ResolverId, Resolver>, slots: map<SlotId, Slot>, callers: map<CallerId, Caller>,
    refreshes: map<RefreshId, Refresh>, served: seq<Served>, issued: map<int, Issue>, gens: int, clock: Time)

  const START: Sys := Sys(map[], map[], map[], map[], [], map[], 0, ZERO_TIME)

  /** What the source answers; None credentials stand for empty ones. */
  datatype Answer = Gives(creds: Option<Creds>) | Fails | Cancelled

  datatype Action =
    | Build(resolver: ResolverId, skew: Time)
    | Ask(caller: CallerId, resolver: ResolverId, key: CacheKey)
    | Find(caller: CallerId, now: Time, newSlot: SlotId, jitter: Time)
    | Enter(caller: CallerId, now: Time, newRefresh: RefreshId)
    | Resolved(caller: CallerId, answer: Answer)
    | Wake(caller: CallerId)
    | GiveUp(caller: CallerId)
    | Refreshed(refresh: RefreshId, answer: Answer, now: Time, failedAt: Time)
    | Reject(caller: CallerId, resolver: ResolverId, key: CacheKey)
    | Invalidate(caller: CallerId, now: Time)

  function SetCaller(s: Sys, c: CallerId, ph: Caller): Sys { s.(callers := s.callers[c := ph]) }

  function SetSlot(s: Sys, e: SlotId, sl: Slot): Sys { s.(slots := s.slots[e := sl]) }

  /** One operation on an entry, recorded in its history. */
  function Record(s: Sys, e: SlotId, op: Op): Sys
    requires e in s.slots
  {
    var sl := s.slots[e];
    SetSlot(s, e, sl.(entry := Apply(sl.entry, op), ops := sl.ops + [op]))
  }

  /** A store, and the generation it draws when the material moved. */
  function RecordStore(s: Sys, e: SlotId, c: Creds, now: Time): Sys
    requires e in s.slots
  {
    var t := Record(s, e, Stored(c, now, s.gens + 1));
    if Moved(s.slots[e].entry, c) then t.(gens := s.gens + 1, issued := s.issued[s.gens + 1 := Issue(e, c.material)])
    else t
  }

  function Given(c: Option<Creds>): Creds { if c.Some? then c.value else NOTHING }

  /** The answer, as store and the failure backoff take it (cached.go:186-200 and 226-240). */
  function Absorb(s: Sys, e: SlotId, answer: Answer, now: Time, failedAt: Time): Sys
    requires e in s.slots
  {
    match answer
    case Gives(c) => if ValidAt(Given(c), now) then RecordStore(s, e, Given(c), now) else Record(s, e, Failed(failedAt))
    case Fails => Record(s, e, Failed(failedAt))
    case Cancelled => s
  }

  // ---- Steps ----

  /** entry, with its sweep; a new entry draws its jitter from half the skew (cached.go:364-384). */
  function FindStep(s: Sys, c: CallerId, now: Time, newSlot: SlotId, jitter: Time): Option<Sys> {
    if !(c in s.callers && s.callers[c].Asking? && s.callers[c].resolver in s.resolvers) then None
    else if newSlot in s.slots || now <= s.clock then None
    else if !(0 <= jitter <= s.resolvers[s.callers[c].resolver].skew / 2) then None
    else
      var k, r := s.callers[c].key, s.callers[c].resolver;
      var res := s.resolvers[r];
      var sweeps := now - res.lastSweep > SWEEP_EVERY;
      var kept := map q | q in res.entries
        && !(sweeps && q != k && res.entries[q] in s.slots && now - s.slots[res.entries[q]].lastUsed > IDLE_EVICT)
        :: res.entries[q];
      var hit := k in kept && kept[k] in s.slots;
      var e := if hit then kept[k] else newSlot;
      var blank := NewEntry(res.skew, jitter);
      var sl := if hit then s.slots[e].(lastUsed := now) else Slot(k, blank, blank, [], None, None, now);
      Some(SetCaller(SetSlot(s, e, sl), c, Found(r, e)).(
        resolvers := s.resolvers[r := Resolver(res.skew, kept[k := e], if sweeps then now else res.lastSweep)],
        clock := now))
  }

  predicate Due(e: Entry, now: Time) {
    e.creds.Some? && e.creds.value.expiresAt.Some? && now > e.refreshAt && now > e.retryAt
  }

  function Launch(s: Sys, e: SlotId, now: Time, rid: RefreshId): Sys
    requires e in s.slots && s.slots[e].entry.creds.Some?
  {
    var sl := s.slots[e];
    if Due(sl.entry, now) && sl.refresh.None? then
      SetSlot(s, e, sl.(refresh := Some(rid))).(
        refreshes := s.refreshes[rid := Refresh(e, sl.entry.epoch, sl.entry.creds.value, true)])
    else s
  }

  function Serve(s: Sys, c: CallerId, e: SlotId, now: Time): Sys
    requires e in s.slots && s.slots[e].entry.creds.Some?
  {
    var sl := s.slots[e];
    SetCaller(s, c, Finished).(served := s.served + [Served(e, sl.key, sl.entry.creds.value, sl.entry.gen, now)])
  }

  /** The section that begins with e.mu.Lock (cached.go:146-185). */
  function EnterStep(s: Sys, c: CallerId, now: Time, rid: RefreshId): Option<Sys> {
    if !(c in s.callers && s.callers[c].Found? && s.callers[c].slot in s.slots) then None
    else if rid in s.refreshes || now <= s.clock then None
    else
      var me := s.callers[c];
      var sl := s.slots[me.slot];
      if sl.holder.Some? then None
      else if Servable(sl.entry, now) then
        Some(Serve(Launch(s, me.slot, now, rid), c, me.slot, now).(clock := now))
      else if sl.refresh.Some? then
        Some(SetCaller(s, c, Waiting(me.resolver, me.slot, sl.refresh.value)).(clock := now))
      else if now < sl.entry.retryAt then Some(SetCaller(s, c, Finished).(clock := now))
      else
        Some(SetCaller(SetSlot(s, me.slot, sl.(holder := Some(c))), c, Resolving(me.slot, now)).(clock := now))
  }

  /** The caller leaves, and the entry's mutex is free. */
  function Release(s: Sys, c: CallerId, e: SlotId): Sys
    requires e in s.slots
  {
    SetCaller(SetSlot(s, e, s.slots[e].(holder := None)), c, Finished)
  }

  /** The source answers the caller that holds the entry (cached.go:186-205). */
  function ResolvedStep(s: Sys, c: CallerId, answer: Answer): Option<Sys> {
    if !(c in s.callers && s.callers[c].Resolving? && s.callers[c].slot in s.slots) then None
    else
      var e, since := s.callers[c].slot, s.callers[c].since;
      var t := Absorb(Release(s, c, e), e, answer, since, since);
      Some(if answer.Gives? && ValidAt(Given(answer.creds), since) then Serve(t, c, e, since) else t)
  }

  predicate Woken(s: Sys, c: CallerId) {
    && c in s.callers && s.callers[c].Waiting?
    && s.callers[c].refresh in s.refreshes && !s.refreshes[s.callers[c].refresh].running
  }

  function WakeStep(s: Sys, c: CallerId): Option<Sys> {
    if !(Woken(s, c) && s.callers[c].slot in s.slots) then None
    else Some(SetCaller(s, c, Asking(s.callers[c].resolver, s.slots[s.callers[c].slot].key)))
  }

  /** The background goroutine comes back (cached.go:217-241). */
  function RefreshedStep(s: Sys, rid: RefreshId, answer: Answer, now: Time, failedAt: Time): Option<Sys> {
    if !(rid in s.refreshes && s.refreshes[rid].running && s.refreshes[rid].slot in s.slots) then None
    else if !(s.clock < now <= failedAt) || answer.Cancelled? then None
    else
      var r := s.refreshes[rid];
      var sl := s.slots[r.slot];
      if sl.holder.Some? then None
      else
        var t := SetSlot(s, r.slot, sl.(refresh := None)).(
          refreshes := s.refreshes[rid := r.(running := false)], clock := failedAt);
        Some(if sl.entry.epoch != r.startEpoch then t else Absorb(t, r.slot, answer, now, failedAt))
  }

  function RejectStep(s: Sys, c: CallerId, r: ResolverId, k: CacheKey): Option<Sys> {
    if c in s.callers || r !in s.resolvers then None
    else if k in s.resolvers[r].entries && s.resolvers[r].entries[k] in s.slots then
      Some(SetCaller(s, c, Rejecting(s.resolvers[r].entries[k])))
    else Some(SetCaller(s, c, Finished))
  }

  function InvalidateStep(s: Sys, c: CallerId, now: Time): Option<Sys> {
    if !(c in s.callers && s.callers[c].Rejecting? && s.callers[c].slot in s.slots) || now <= s.clock then None
    else if s.slots[s.callers[c].slot].holder.Some? then None
    else Some(SetCaller(Record(s, s.callers[c].slot, Dropped(now)), c, Finished).(clock := now))
  }

  function Step(s: Sys, a: Action): Option<Sys> {
    match a
    case Build(r, skew) =>
      if r in s.resolvers || skew <= 0 then None
      else Some(s.(resolvers := s.resolvers[r := Resolver(skew, map[], ZERO_TIME)]))
    case Ask(c, r, k) =>
      if c in s.callers || r !in s.resolvers then None else Some(SetCaller(s, c, Asking(r, k)))
    case Find(c, now, newSlot, jitter) => FindStep(s, c, now, newSlot, jitter)
    case Enter(c, now, rid) => EnterStep(s, c, now, rid)
    case Resolved(c, answer) => ResolvedStep(s, c, answer)
    case Wake(c) => WakeStep(s, c)
    case GiveUp(c) =>
      if c in s.callers && s.callers[c].Waiting? then Some(SetCaller(s, c, Finished)) else None
    case Refreshed(rid, answer, now, failedAt) => RefreshedStep(s, rid, answer, now, failedAt)
    case Reject(c, r, k) => RejectStep(s, c, r, k)
    case Invalidate(c, now) => InvalidateStep(s, c, now)
  }

  function Run(acts: seq<Action>): Option<Sys> {
    if acts == [] then Some(START)
    else
      var before := Run(acts[..|acts| - 1]);
      if before.None? then None else Step(before.value, acts[|acts| - 1])
  }
}
