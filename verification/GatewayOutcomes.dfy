/** What a Get finds, whom it sends away, and what the reaper collects: exactly, in every state a run reaches. */
module GatewayOutcomes {
  import opened Common
  import opened PoolModel
  import opened GatewaySystem
  import opened GatewayShape
  import opened GatewayAdmission
  import opened GatewayCap
  import opened GatewayConservation
  import opened GatewayFreshness
  import opened GatewayTheorems
  import opened GatewayHistory

  /** A caller waits for a slot of c, holds one to use it, or has not yet counted down after its call. */
  predicate Attends(ph: Caller, c: ConnId) {
    (ph.Queueing? || ph.Slotted? || ph.Calling? || ph.Freed?) && ph.conn == c
  }

  predicate Attended(s: Sys, c: ConnId) { exists p :: p in s.callers && Attends(s.callers[p], c) }

  lemma BusyIsAttended(s: Sys, cfg: PoolConfig, c: ConnId)
    requires Tallies(s.pool.table, s.callers, cfg) && c in s.pool.table
    ensures Busy(Row(s.pool, c)) <==> Attended(s, c)
  {
    var waiting, running := Matching(s.callers, WaitsOn(c)), Matching(s.callers, RunsOn(c));
    assert Tally(s.pool.table[c], s.callers, c);
    if waiting != {} {
      var p := SomeElement(waiting);
      assert Attends(s.callers[p], c);
    }
    if running != {} {
      var p := SomeElement(running);
      assert Attends(s.callers[p], c);
    }
    forall p | p in s.callers && Attends(s.callers[p], c)
      ensures p in waiting || p in running
    {
    }
  }

  // ---- What a Get finds ----

  /** The entry at the key is alive and within its deadline. */
  predicate Serves(s: Sys, key: Key, now: Time) {
    key in s.pool.entries && s.pool.entries[key] !in s.dead && now <= Row(s.pool, s.pool.entries[key]).deadline
  }

  /** k holds credentials of an older generation for the same server, tenant and credential set. */
  predicate Older(k: Key, key: Key) {
    k.server == key.server && k.tenant == key.tenant && k.credSet == key.credSet && k.credVersion < key.credVersion
  }

  /** Mapped, with no caller, and past its deadline under this very key or of an older generation. */
  predicate MakesWay(s: Sys, key: Key, now: Time, c: ConnId) {
    && Mapped(s.pool, c) && !Attended(s, c)
    && ((Row(s.pool, c).key == key && now > Row(s.pool, c).deadline) || Older(Row(s.pool, c).key, key))
  }

  /** The tenant's live backends, but for those that make way. */
  function Staying(s: Sys, key: Key, now: Time): set<ConnId> {
    set c | c in Live(s.pool, s.dead, key.tenant) && !MakesWay(s, key, now, c)
  }

  /** The key's failures in a row have reached the threshold, and the last one's cooldown still runs. */
  predicate CoolingDown(cfg: PoolConfig, f: Streak, now: Time) {
    f.fails > 0 && f.fails >= cfg.breakerThreshold && now < f.last + cfg.breakerCooldown
  }

  /** A spawn of the key that has not ended. */
  predicate Spawning(s: Sys, key: Key, q: SpawnId) { q in s.tasks && s.tasks[q].key == key && !s.tasks[q].phase.Ended? }

  lemma SpawningIs(s: Sys, key: Key, q: SpawnId)
    requires Shape(s)
    ensures Spawning(s, key, q) <==> key in s.pool.spawning && s.pool.spawning[key] == q
  {
    assert q in s.tasks ==> TaskOk(s, q);
    hide EntriesOk, OrphansOk, CallersOk, ConnsOk, TasksOk;
  }

  /** The pool that Get measures the cap on: the unusable entry dropped and the older generations retired. */
  function Measured(s: Sys, key: Key, now: Time): Pool {
    RetireSuperseded(DropUnusable(s.pool, key, now, s.dead).pool, key).pool
  }

  lemma MeasuredShape(s: Sys, key: Key, now: Time)
    requires Shape(s)
    ensures EntriesOk(Measured(s, key, now)) && OrphansOk(Measured(s, key, now))
  {
    var d := DropUnusable(s.pool, key, now, s.dead);
    DropKeepsShape(s, key, now);
    RetireKeepsShape(Take(s, d), key);
    PoolOfShape(Take(Take(s, d), RetireSuperseded(d.pool, key)));
    hide Shape, DropUnusable, RetireSuperseded, EntriesOk, OrphansOk;
  }

  lemma MeasuredLive(s: Sys, cfg: PoolConfig, key: Key, now: Time)
    requires Inv(s, cfg) && !Serves(s, key, now)
    ensures Live(Measured(s, key, now), s.dead, key.tenant) == Staying(s, key, now)
  {
    var q := Measured(s, key, now);
    assert q.table == s.pool.table;
    forall c | c in s.pool.table && c !in s.dead
      ensures Placed(q, c) <==> Placed(s.pool, c) && !MakesWay(s, key, now, c)
    {
      BusyIsAttended(s, cfg, c);
      hide Tallies, CapOk, Conserved, Fresh, Attended, TasksOk, SpawningOk, CallersOk, ConnsOk, Busy, Distinct;
      StillPlaced(s, cfg, key, now, c);
    }
    hide Inv, Measured, Placed, MakesWay;
  }

  lemma StillPlaced(s: Sys, cfg: PoolConfig, key: Key, now: Time, c: ConnId)
    requires EntriesOk(s.pool) && OrphansOk(s.pool) && c in s.pool.table && c !in s.dead && !Serves(s, key, now)
    requires Busy(Row(s.pool, c)) <==> Attended(s, c)
    ensures Placed(Measured(s, key, now), c) <==> Placed(s.pool, c) && !MakesWay(s, key, now, c)
  {
    DropLeaves(s, key, now, c);
    assert MappedAt(s.pool, key, c) ==> Mapped(s.pool, c) && Row(s.pool, c).key == key;
    RetireLeaves(DropUnusable(s.pool, key, now, s.dead).pool, key, c);
    hide Attended, Busy, OrphansOk, EntriesOk, DropUnusable, RetireSuperseded;
  }

  lemma DropLeaves(s: Sys, key: Key, now: Time, c: ConnId)
    requires key in s.pool.entries ==> Row(s.pool, s.pool.entries[key]).key == key
    requires c !in s.dead && !Serves(s, key, now)
    ensures var q := DropUnusable(s.pool, key, now, s.dead).pool;
            && q.table == s.pool.table
            && (Mapped(q, c) <==> Mapped(s.pool, c) && Row(s.pool, c).key != key)
            && (c in q.orphans <==> c in s.pool.orphans || (MappedAt(s.pool, key, c) && Busy(Row(s.pool, c))))
            && (MappedAt(s.pool, key, c) ==> now > Row(s.pool, c).deadline)
  {
    var q := DropUnusable(s.pool, key, now, s.dead).pool;
    if key in s.pool.entries {
      var e := s.pool.entries[key];
      assert Unusable(s.pool, e, now, s.dead);
      assert q.entries == s.pool.entries - {key};
      assert q.orphans == if e in s.dead || !Busy(Row(s.pool, e)) then s.pool.orphans else s.pool.orphans + [e];
    } else {
      assert q == s.pool;
    }
    hide Busy, DropUnusable, Unusable;
  }

  lemma RetireLeaves(p: Pool, key: Key, c: ConnId)
    ensures var q := RetireSuperseded(p, key).pool;
            && q.orphans == p.orphans
            && (Mapped(q, c) <==> Mapped(p, c) && !(Older(Row(p, c).key, key) && !Busy(Row(p, c))))
  {
    hide Busy;
  }

  lemma ServesQueues(s: Sys, cfg: PoolConfig, key: Key, now: Time, sp: SpawnId)
    requires !s.pool.closed && Serves(s, key, now)
    ensures Lookup(s.pool, cfg, key, now, s.dead, sp).outcome == Queued(s.pool.entries[key])
  {
  }

  lemma OtherwiseDecides(s: Sys, cfg: PoolConfig, key: Key, now: Time, sp: SpawnId)
    requires !s.pool.closed && !Serves(s, key, now)
    ensures Lookup(s.pool, cfg, key, now, s.dead, sp).outcome == Decide(Measured(s, key, now), cfg, key, now, s.dead, sp).outcome
    ensures var q := Measured(s, key, now);
            q.broken == s.pool.broken && q.spawning == s.pool.spawning && q.pending == s.pool.pending
  {
    hide Decide, RetireSuperseded;
    assert RetireSuperseded(DropUnusable(s.pool, key, now, s.dead).pool, key).pool
      == DropUnusable(s.pool, key, now, s.dead).pool.(entries := Measured(s, key, now).entries);
  }

  lemma DecideIs(p: Pool, cfg: PoolConfig, key: Key, now: Time, dead: set<ConnId>, sp: SpawnId, f: Streak)
    requires BreakerIs(p.broken, cfg, key, f) && now > ZERO_TIME
    ensures Decide(p, cfg, key, now, dead, sp).outcome ==
      if CoolingDown(cfg, f, now) then Refused(CircuitOpen)
      else if key in p.spawning then Attached(p.spawning[key])
      else if TenantCount(p, dead, key.tenant) >= cfg.maxProcsPerTenant then Refused(AtCap)
      else Started(sp)
  {
    hide TenantCount;
  }

  lemma ClosedStep(s: Sys, cfg: PoolConfig, a: Action)
    requires Shape(s) && Enabled(s, cfg, a)
    ensures Step(s, cfg, a).pool.closed <==> s.pool.closed || a == ByPool(Shutdown)
  {
    match a
    case ByCaller(c, call) => CallerKeepsClosed(s, cfg, c, call);
    case BySpawn(sp, work) => SpawnKeepsClosed(s, cfg, sp, work);
    case ByPool(p) => hide PoolModel.Reap;
    case ByApply(ap) => hide Evict, ApplyEnabled;
  }

  lemma CallerKeepsClosed(s: Sys, cfg: PoolConfig, c: CallerId, a: CallerAction)
    requires CallerEnabled(s, cfg, c, a)
    ensures CallerMove(s, cfg, c, a).pool.closed == s.pool.closed
  {
    hide LookUpStep;
    if a.LookUp? {
      var me := s.callers[c];
      hide Decide, DropUnusable, RetireSuperseded;
      LookUpBecomes(s, cfg, c, me, a.now, a.newSpawn);
    }
  }

  lemma SpawnKeepsClosed(s: Sys, cfg: PoolConfig, sp: SpawnId, a: SpawnAction)
    requires SpawnEnabled(s, sp, a)
    ensures SpawnMove(s, cfg, sp, a).pool.closed == s.pool.closed
  {
    hide Deadline;
  }

  /** The pool is closed exactly from Shutdown on. */
  lemma {:induction false} ClosedByShutdown(cfg: PoolConfig, acts: seq<Action>)
    requires Filled(cfg) && Run(cfg, acts).Some?
    ensures Run(cfg, acts).value.pool.closed <==> ByPool(Shutdown) in acts
  {
    if acts != [] {
      var front, a := acts[..|acts| - 1], acts[|acts| - 1];
      assert acts == front + [a];
      ClosedByShutdown(cfg, front);
      RunInv(cfg, front);
      ClosedStep(Run(cfg, front).value, cfg, a);
      hide Step, Enabled, Shape, Tallies, CapOk, Conserved, Fresh;
    }
  }

  /**
  What a Get comes to: nothing after Shutdown; the entry at its key if that is alive and within its deadline;
  a refusal while the key's failures cool down; the spawn of its key that is under way; and otherwise a new
  spawn, unless the tenant's live backends, but for those that make way, and its spawns that hold a
  reservation have reached MaxProcsPerTenant.
  */
  lemma GetOutcome(cfg: PoolConfig, acts: seq<Action>, key: Key, now: Time, sp: SpawnId)
    requires Filled(cfg) && Run(cfg, acts).Some? && now > Run(cfg, acts).value.clock
    ensures var s := Run(cfg, acts).value; var o := Lookup(s.pool, cfg, key, now, s.dead, sp).outcome;
            if ByPool(Shutdown) in acts then o == Refused(PoolClosed)
            else if Serves(s, key, now) then o == Queued(s.pool.entries[key])
            else if CoolingDown(cfg, Failures(cfg, acts, key), now) then o == Refused(CircuitOpen)
            else if exists q :: Spawning(s, key, q) then o.Attached? && Spawning(s, key, o.spawn)
            else if |Staying(s, key, now)| + |set q | q in s.tasks && Reserves(key.tenant)(s.tasks[q])| >= cfg.maxProcsPerTenant
            then o == Refused(AtCap)
            else o == Started(sp)
  {
    RunInv(cfg, acts);
    BreakerCounts(cfg, acts, key);
    ClosedByShutdown(cfg, acts);
    GetFinds(Run(cfg, acts).value, cfg, key, now, sp, Failures(cfg, acts, key)) by { assert now > ZERO_TIME; }
    hide Run, Failures, Lookup, Inv, Staying, Serves, CoolingDown;
  }

  lemma GetFinds(s: Sys, cfg: PoolConfig, key: Key, now: Time, sp: SpawnId, f: Streak)
    requires Inv(s, cfg) && BreakerIs(s.pool.broken, cfg, key, f) && now > ZERO_TIME
    ensures var o := Lookup(s.pool, cfg, key, now, s.dead, sp).outcome;
            if s.pool.closed then o == Refused(PoolClosed)
            else if Serves(s, key, now) then o == Queued(s.pool.entries[key])
            else if CoolingDown(cfg, f, now) then o == Refused(CircuitOpen)
            else if exists q :: Spawning(s, key, q) then o.Attached? && Spawning(s, key, o.spawn)
            else if |Staying(s, key, now)| + |set q | q in s.tasks && Reserves(key.tenant)(s.tasks[q])| >= cfg.maxProcsPerTenant
            then o == Refused(AtCap)
            else o == Started(sp)
  {
    if s.pool.closed {
    } else if Serves(s, key, now) {
      ServesQueues(s, cfg, key, now, sp);
    } else {
      var q := Measured(s, key, now);
      OtherwiseDecides(s, cfg, key, now, sp);
      DecideIs(q, cfg, key, now, s.dead, sp, f);
      MeasuredShape(s, key, now);
      TenantCountIsLive(q, s.dead, key.tenant);
      MeasuredLive(s, cfg, key, now);
      assert Pending(q, key.tenant) == Pending(s.pool, key.tenant);
      assert Matching(s.tasks, Reserves(key.tenant)) == set t | t in s.tasks && Reserves(key.tenant)(s.tasks[t]);
      assert Pending(s.pool, key.tenant) == Count(s.tasks, Reserves(key.tenant));
      forall t
        ensures Spawning(s, key, t) <==> key in s.pool.spawning && s.pool.spawning[key] == t
      {
        SpawningIs(s, key, t);
      }
    }
    hide Lookup, Measured, Decide, Inv, Staying, Serves, CoolingDown, TenantCount, Live, Spawning, BreakerIs;
  }

  // ---- What it does about it ----

  /** The caller leaves, waits for the spawn or queues on the entry, and a new spawn runs exactly if one was started. */
  lemma GetGoesOn(cfg: PoolConfig, acts: seq<Action>, p: CallerId, now: Time, sp: SpawnId)
    requires Run(cfg, acts + [ByCaller(p, LookUp(now, sp))]).Some?
    ensures Run(cfg, acts).Some? && p in Run(cfg, acts).value.callers && Run(cfg, acts).value.callers[p].Trying?
    ensures var s, t := Run(cfg, acts).value, Run(cfg, acts + [ByCaller(p, LookUp(now, sp))]).value;
            var me := s.callers[p]; var o := Lookup(s.pool, cfg, me.key, now, s.dead, sp).outcome;
            && t.callers == s.callers[p :=
                 match o
                 case Refused(_) => Done
                 case Queued(c) => Queueing(me.key, me.attempt, c)
                 case Attached(q) => Awaiting(me.key, me.attempt, q)
                 case Started(q) => Awaiting(me.key, me.attempt, q)]
            && t.tasks == if o.Started? then s.tasks[sp := Task(me.key, Starting)] else s.tasks
  {
    RunSplit(cfg, acts, ByCaller(p, LookUp(now, sp)));
    var s := Run(cfg, acts).value;
    LookupRows(s.pool, cfg, s.callers[p].key, now, s.dead, sp);
    hide Run, Lookup;
  }

  /** Whom a Get sends away: the unusable entry at its key unless callers are on it, and idle older generations if none serves. */
  predicate SentAway(s: Sys, key: Key, now: Time, c: ConnId) {
    && Mapped(s.pool, c)
    && ((Row(s.pool, c).key == key && (c in s.dead || (now > Row(s.pool, c).deadline && !Attended(s, c))))
        || (!Serves(s, key, now) && Older(Row(s.pool, c).key, key) && !Attended(s, c)))
  }

  lemma DropVictims(s: Sys, key: Key, now: Time, c: ConnId)
    requires EntriesOk(s.pool)
    ensures c in DropUnusable(s.pool, key, now, s.dead).victims <==>
      && Mapped(s.pool, c) && Row(s.pool, c).key == key
      && (c in s.dead || (now > Row(s.pool, c).deadline && !Busy(Row(s.pool, c))))
    ensures var q := DropUnusable(s.pool, key, now, s.dead).pool;
            && q.table == s.pool.table && (key in q.entries <==> Serves(s, key, now))
            && (Mapped(q, c) ==> Mapped(s.pool, c))
            && (Mapped(s.pool, c) && Row(s.pool, c).key != key ==> Mapped(q, c))
  {
    var d := DropUnusable(s.pool, key, now, s.dead);
    if key in s.pool.entries && !Serves(s, key, now) {
      var e := s.pool.entries[key];
      assert Row(s.pool, e).key == key;
      assert Unusable(s.pool, e, now, s.dead);
      assert d.pool.entries == s.pool.entries - {key};
      assert d.victims == if e in s.dead || !Busy(Row(s.pool, e)) then {e} else {};
    } else {
      assert d == Dropped(s.pool, {});
    }
    hide Busy, DropUnusable, Unusable, EntriesOk;
  }

  lemma RetireVictims(p: Pool, key: Key, c: ConnId)
    requires EntriesOk(p)
    ensures c in RetireSuperseded(p, key).victims <==>
      Mapped(p, c) && Older(Row(p, c).key, key) && !Busy(Row(p, c))
  {
    if Mapped(p, c) && Older(Row(p, c).key, key) && !Busy(Row(p, c)) {
      assert p.entries[Row(p, c).key] == c;
    }
    hide Busy;
  }

  lemma LookupVictims(s: Sys, cfg: PoolConfig, key: Key, now: Time, sp: SpawnId, c: ConnId)
    requires Inv(s, cfg) && !s.pool.closed && c in s.pool.table
    ensures c in Lookup(s.pool, cfg, key, now, s.dead, sp).victims <==> SentAway(s, key, now, c)
  {
    var d := DropUnusable(s.pool, key, now, s.dead);
    BusyIsAttended(s, cfg, c);
    DropVictims(s, key, now, c);
    assert EntriesOk(d.pool) by { DropKeepsShape(s, key, now); PoolOfShape(Take(s, d)); hide Shape, EntriesOk; }
    RetireVictims(d.pool, key, c);
    LookupHands(s.pool, cfg, key, now, s.dead, sp);
    hide Inv, Lookup, DropUnusable, RetireSuperseded, Busy, Attended, EntriesOk;
  }

  lemma LookupHands(p: Pool, cfg: PoolConfig, key: Key, now: Time, dead: set<ConnId>, sp: SpawnId)
    requires !p.closed
    ensures var d := DropUnusable(p, key, now, dead);
            Lookup(p, cfg, key, now, dead, sp).victims ==
              if key in d.pool.entries then d.victims else d.victims + RetireSuperseded(d.pool, key).victims
  {
    hide DropUnusable, RetireSuperseded, Decide;
  }

  lemma GetCloses(cfg: PoolConfig, acts: seq<Action>, p: CallerId, now: Time, sp: SpawnId, c: ConnId)
    requires Filled(cfg) && Run(cfg, acts + [ByCaller(p, LookUp(now, sp))]).Some?
    ensures Run(cfg, acts).Some?
    ensures var s, t := Run(cfg, acts).value, Run(cfg, acts + [ByCaller(p, LookUp(now, sp))]).value;
            p in s.callers && s.callers[p].Trying? &&
            (t.handed[c] > s.handed[c] <==> !s.pool.closed && SentAway(s, s.callers[p].key, now, c))
  {
    RunSplit(cfg, acts, ByCaller(p, LookUp(now, sp)));
    RunInv(cfg, acts);
    var s := Run(cfg, acts).value;
    var me := s.callers[p];
    LookUpBecomes(s, cfg, p, me, now, sp);
    if !s.pool.closed {
      LookupHands(s.pool, cfg, me.key, now, s.dead, sp);
      VictimsFiled(s, cfg, me.key, now, sp);
      assert Mapped(s.pool, c) ==> c in s.pool.table by { hide Tallies, CapOk, Conserved, Fresh; }
      if c in s.pool.table {
        LookupVictims(s, cfg, me.key, now, sp, c);
      }
    }
    hide Run, Inv, Lookup, DropUnusable, RetireSuperseded, Decide, SentAway, QueueOn;
  }

  lemma VictimsFiled(s: Sys, cfg: PoolConfig, key: Key, now: Time, sp: SpawnId)
    requires Shape(s)
    ensures Lookup(s.pool, cfg, key, now, s.dead, sp).victims <= s.pool.table.Keys
  {
    hide Decide, OrphansOk, TasksOk, SpawningOk, CallersOk, ConnsOk;
  }

  /** Woken, a caller queues on the entry its spawn landed if that is still mapped, starts over at most twice, or leaves. */
  lemma WakeGoesOn(s: Sys, cfg: PoolConfig, p: CallerId, now: Time)
    requires Enabled(s, cfg, ByCaller(p, Wake(now)))
    ensures var t := Step(s, cfg, ByCaller(p, Wake(now))); var me := s.callers[p]; var r := s.tasks[me.spawn].phase.result;
            t.callers == s.callers[p :=
              if r.Landed? && MappedAt(s.pool, me.key, r.conn) then Queueing(me.key, me.attempt, r.conn)
              else if !r.Error? && me.attempt < 3 then Trying(me.key, me.attempt + 1)
              else Done]
  {
  }

  /** A caller that queues can take a slot exactly if fewer than MaxConcurrent callers hold one of that entry. */
  lemma SlotWhenFree(cfg: PoolConfig, acts: seq<Action>, p: CallerId)
    requires Filled(cfg) && Run(cfg, acts).Some?
    requires p in Run(cfg, acts).value.callers && Run(cfg, acts).value.callers[p].Queueing?
    ensures var s := Run(cfg, acts).value; var c := s.callers[p].conn;
            Enabled(s, cfg, ByCaller(p, TakeSlot)) <==>
              |set q | q in s.callers && (s.callers[q].Slotted? || s.callers[q].HandingBack? || s.callers[q].Calling?)
                       && s.callers[q].conn == c| < cfg.maxConcurrent
  {
    RunInv(cfg, acts);
    var s := Run(cfg, acts).value;
    var c := s.callers[p].conn;
    assert CallerOk(s, s.callers[p]);
    assert Tally(Row(s.pool, c), s.callers, c);
    assert Matching(s.callers, HoldsSlotOf(c)) ==
      set q | q in s.callers && (s.callers[q].Slotted? || s.callers[q].HandingBack? || s.callers[q].Calling?) && s.callers[q].conn == c;
    hide Run, CapOk, Conserved, Fresh, EntriesOk, OrphansOk, TasksOk, SpawningOk, ConnsOk;
  }

  /** With a slot, the call starts exactly if the entry is mapped under the key, alive and within its deadline. */
  lemma RecheckGoesOn(s: Sys, cfg: PoolConfig, p: CallerId, now: Time)
    requires Enabled(s, cfg, ByCaller(p, Recheck(now)))
    ensures var t := Step(s, cfg, ByCaller(p, Recheck(now))); var me := s.callers[p];
            t.callers == s.callers[p :=
              if MappedAt(s.pool, me.key, me.conn) && me.conn !in s.dead && now <= Row(s.pool, me.conn).deadline
              then Calling(me.key, me.conn)
              else HandingBack(me.key, me.attempt, me.conn)]
  {
  }

  /** Turned away with the slot it held given back, a caller starts over, at most twice, or leaves. */
  lemma HandBackGoesOn(s: Sys, cfg: PoolConfig, p: CallerId)
    requires Enabled(s, cfg, ByCaller(p, HandBack))
    ensures var t := Step(s, cfg, ByCaller(p, HandBack)); var me := s.callers[p];
            && t.callers == s.callers[p := if me.attempt < 3 then Trying(me.key, me.attempt + 1) else Done]
            && Row(t.pool, me.conn).slots == Row(s.pool, me.conn).slots - 1
  {
  }

  /** A landing spawn's backend enters service exactly if the pool was not shut down and no eviction marked the spawn. */
  lemma LandsExactly(cfg: PoolConfig, acts: seq<Action>, sp: SpawnId, now: Time, expiry: Option<Time>)
    requires Filled(cfg) && Run(cfg, acts + [BySpawn(sp, Land(now, expiry))]).Some?
    ensures Run(cfg, acts).Some? && sp in Run(cfg, acts).value.tasks && Run(cfg, acts).value.tasks[sp].phase.Opened?
    ensures var s, t := Run(cfg, acts).value, Run(cfg, acts + [BySpawn(sp, Land(now, expiry))]).value;
            var task := s.tasks[sp]; var c := task.phase.conn;
            sp in t.tasks &&
            if ByPool(Shutdown) in acts then t.tasks[sp].phase == Returning(Error) && t.handed[c] > s.handed[c]
            else if SpawnRow(s.pool, sp).stale then t.tasks[sp].phase == Returning(Retire) && t.handed[c] > s.handed[c]
            else t.tasks[sp].phase == Returning(Landed(c)) && MappedAt(t.pool, task.key, c) && t.handed == s.handed
  {
    RunSplit(cfg, acts, BySpawn(sp, Land(now, expiry)));
    RunInv(cfg, acts);
    ClosedByShutdown(cfg, acts);
    LandGoesOn(Run(cfg, acts).value, cfg, sp, now, expiry) by { TaskIsOk(Run(cfg, acts).value, sp); hide Inv, Shape; }
    hide Run, Inv, LandStep, TaskOk;
  }

  lemma TaskIsOk(s: Sys, sp: SpawnId)
    requires Shape(s) && sp in s.tasks
    ensures TaskOk(s, sp)
  {
  }

  lemma LandGoesOn(s: Sys, cfg: PoolConfig, sp: SpawnId, now: Time, expiry: Option<Time>)
    requires sp in s.tasks && s.tasks[sp].phase.Opened? && TaskOk(s, sp)
    ensures var t := LandStep(s, cfg, sp, now, expiry); var task := s.tasks[sp]; var c := task.phase.conn;
            if s.pool.closed then t.tasks[sp].phase == Returning(Error) && t.handed[c] > s.handed[c]
            else if SpawnRow(s.pool, sp).stale then t.tasks[sp].phase == Returning(Retire) && t.handed[c] > s.handed[c]
            else t.tasks[sp].phase == Returning(Landed(c)) && MappedAt(t.pool, task.key, c) && t.handed == s.handed
  {
    hide Deadline;
    assert s.handed + multiset({}) == s.handed;
  }

  // ---- The reaper ----

  /** Dead, or without a caller and orphaned, idle for longer than the TTL, or past its deadline. */
  predicate Collectable(s: Sys, cfg: PoolConfig, log: Log, now: Time, c: ConnId)
    requires c in log.landed && c in log.used
  {
    || c in s.dead
    || (!Attended(s, c)
        && (c in s.pool.orphans || now - log.used[c] > cfg.idleTTL
            || now > Deadline(cfg, log.landed[c].now, log.landed[c].expiry)))
  }

  lemma ReapVictims(s: Sys, cfg: PoolConfig, now: Time, c: ConnId)
    requires EntriesOk(s.pool) && OrphansOk(s.pool)
    ensures c in PoolModel.Reap(s.pool, cfg, now, s.dead).victims <==>
      || (Mapped(s.pool, c) && (c in s.dead
            || (!Busy(Row(s.pool, c)) && (now - Row(s.pool, c).lastUsed > cfg.idleTTL || now > Row(s.pool, c).deadline))))
      || (c in s.pool.orphans && (c in s.dead || !Busy(Row(s.pool, c))))
  {
    if Mapped(s.pool, c) {
      assert s.pool.entries[Row(s.pool, c).key] == c;
    }
    hide Busy, Distinct;
  }

  /** A reaper's pass hands to Close exactly the placed backends that are dead, or have no caller and are orphaned, idle or aged. */
  lemma ReapCollects(cfg: PoolConfig, acts: seq<Action>, now: Time, c: ConnId)
    requires Filled(cfg) && Run(cfg, acts + [ByPool(PoolAction.Reap(now))]).Some?
    ensures Run(cfg, acts).Some?
    ensures var s, t, log := Run(cfg, acts).value, Run(cfg, acts + [ByPool(PoolAction.Reap(now))]).value, History(cfg, acts);
            t.handed[c] > s.handed[c] <==>
              Placed(s.pool, c) && c in log.landed && c in log.used && Collectable(s, cfg, log, now, c)
  {
    RunSplit(cfg, acts, ByPool(PoolAction.Reap(now)));
    RunInv(cfg, acts);
    RunTold(cfg, acts);
    ReapTakes(Run(cfg, acts).value, cfg, History(cfg, acts), now, c);
    hide Run, History, Inv, PoolModel.Reap, Collectable, Told, Placed;
  }

  lemma ReapTakes(s: Sys, cfg: PoolConfig, log: Log, now: Time, c: ConnId)
    requires Inv(s, cfg) && Told(s, cfg, log)
    ensures c in PoolModel.Reap(s.pool, cfg, now, s.dead).victims <==>
      Placed(s.pool, c) && c in log.landed && c in log.used && Collectable(s, cfg, log, now, c)
  {
    ReapVictims(s, cfg, now, c) by { PoolOfShape(s); hide EntriesOk, OrphansOk; }
    hide PoolModel.Reap, Attended, Busy, Deadline;
    if Placed(s.pool, c) {
      assert c in s.pool.table by { PlacedIsFiled(s, c); }
      assert RowTold(s, cfg, log, c);
      BusyIsAttended(s, cfg, c);
    }
    assert c in s.pool.orphans ==> !Mapped(s.pool, c) by { hide Tallies, CapOk, Conserved, Fresh, Distinct; }
    hide Inv, Told, Mapped;
  }

  lemma PlacedIsFiled(s: Sys, c: ConnId)
    requires Shape(s) && Placed(s.pool, c)
    ensures c in s.pool.table
  {
    hide TasksOk, SpawningOk, CallersOk, ConnsOk, Distinct;
  }
}
