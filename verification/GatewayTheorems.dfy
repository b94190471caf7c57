/** What holds after every run of the gateway, from the invariants of its steps. */
module GatewayTheorems {
  import opened Common
  import opened PoolModel
  import opened GatewaySystem
  import opened GatewayShape
  import opened GatewayAdmission
  import opened GatewayCap
  import opened GatewayConservation
  import opened GatewayFreshness

  predicate Filled(cfg: PoolConfig) { cfg.maxConcurrent > 0 && cfg.maxProcsPerTenant > 0 }

  ghost predicate Inv(s: Sys, cfg: PoolConfig) {
    Shape(s) && Tallies(s.pool.table, s.callers, cfg) && CapOk(s, cfg) && Conserved(s) && Fresh(s)
  }

  lemma StartInv(cfg: PoolConfig)
    requires Filled(cfg)
    ensures Inv(START, cfg)
  {
  }

  lemma {:induction false} RunInv(cfg: PoolConfig, acts: seq<Action>)
    requires Filled(cfg) && Run(cfg, acts).Some?
    ensures Inv(Run(cfg, acts).value, cfg)
  {
    if acts == [] {
      StartInv(cfg);
    } else {
      var front, a := acts[..|acts| - 1], acts[|acts| - 1];
      RunInv(cfg, front);
      var s := Run(cfg, front).value;
      ShapeStep(s, cfg, a);
      TalliesStep(s, cfg, a);
      CapStep(s, cfg, a);
      ConservedStep(s, cfg, a);
      FreshStep(s, cfg, a);
      hide Shape, Tallies, CapOk, Conserved, Fresh, Step, Enabled;
    }
  }

  /** Between applies, what is mapped, orphaned or being built comes from the live definition. */
  lemma FreshBetweenApplies(cfg: PoolConfig, acts: seq<Action>)
    requires Filled(cfg) && Run(cfg, acts).Some? && Run(cfg, acts).value.rec.progress.Idle?
    ensures var s := Run(cfg, acts).value;
            && (forall k :: k in s.pool.entries ==>
                  s.pool.entries[k] in s.origin && Matches(s.rec.cur, k.server, s.origin[s.pool.entries[k]].def))
            && (forall c :: c in s.pool.orphans ==>
                  c in s.origin && Matches(s.rec.cur, Row(s.pool, c).key.server, s.origin[c].def))
            && (forall sp :: sp in s.tasks && Building(s, sp) ==>
                  Matches(s.rec.cur, s.tasks[sp].key.server, DefOf(s, sp)))
  {
    RunInv(cfg, acts);
    var s := Run(cfg, acts).value;
    forall k | k in s.pool.entries
      ensures s.pool.entries[k] in s.origin && Matches(s.rec.cur, k.server, s.origin[s.pool.entries[k]].def)
    {
      assert ConnFresh(s, s.pool.entries[k]);
    }
    hide Run, Tallies, CapOk, Conserved, Matches;
  }

  /** The count Get compares with the cap never exceeds it, and each reservation is held by one spawn. */
  lemma TenantCapHolds(cfg: PoolConfig, acts: seq<Action>, tenant: string)
    requires Filled(cfg) && Run(cfg, acts).Some?
    ensures var s := Run(cfg, acts).value;
            && TenantCount(s.pool, s.dead, tenant) <= cfg.maxProcsPerTenant
            && Pending(s.pool, tenant) == |set sp | sp in s.tasks && Reserves(tenant)(s.tasks[sp])|
  {
    RunInv(cfg, acts);
    var s := Run(cfg, acts).value;
    TenantCountIsLive(s.pool, s.dead, tenant);
    assert Matching(s.tasks, Reserves(tenant)) == set sp | sp in s.tasks && Reserves(tenant)(s.tasks[sp]);
    hide Run, TenantCount, Live, Tallies, Conserved, Fresh;
  }

  /** Every opened connection is in exactly one place; none is left open once Shutdown and the spawns are done. */
  lemma BackendsConserved(cfg: PoolConfig, acts: seq<Action>, c: ConnId)
    requires Filled(cfg) && Run(cfg, acts).Some? && c in Run(cfg, acts).value.origin
    ensures var s := Run(cfg, acts).value;
            && Weight(Mapped(s.pool, c)) + Weight(c in s.pool.orphans) + Weight(StillStarting(s, c)) + s.handed[c] == 1
            && (s.pool.closed && (forall sp :: sp in s.tasks ==> s.tasks[sp].phase.Ended?) ==> s.handed[c] == 1)
  {
    RunInv(cfg, acts);
    var s := Run(cfg, acts).value;
    assert Places(s, c) == 1;
    hide Run, Shape, Tallies, CapOk, Fresh;
  }

  /** Over any run, the step that closes a live busy backend is an eviction or the shutdown. */
  lemma LiveWorkIsSpared(cfg: PoolConfig, acts: seq<Action>, a: Action, c: ConnId)
    requires Filled(cfg) && Run(cfg, acts + [a]).Some? && Run(cfg, acts).Some?
    requires Kills(Run(cfg, acts).value, Run(cfg, acts + [a]).value, c)
    ensures Evicts(a)
  {
    RunInv(cfg, acts);
    assert (acts + [a])[..|acts|] == acts;
    hide Shape, Tallies, CapOk, Conserved, Fresh, Step, Enabled, Kills;
    OnlyEvictionKills(Run(cfg, acts).value, cfg, a, c);
  }

  predicate Admitted(s: Sys, t: Sys, c: CallerId) {
    c in t.callers && t.callers[c].Calling? && !(c in s.callers && s.callers[c].Calling?)
  }

  /** A mux is given out only at a step that finds its entry mapped, alive and within its deadline. */
  lemma AdmissionIsChecked(cfg: PoolConfig, s: Sys, a: Action, c: CallerId)
    requires Enabled(s, cfg, a) && Admitted(s, Step(s, cfg, a), c)
    ensures var me := Step(s, cfg, a).callers[c];
            && MappedAt(s.pool, me.key, me.conn) && me.conn !in s.dead
            && a.ByCaller? && a.call.Recheck? && a.call.now <= Row(s.pool, me.conn).deadline
  {
    match a
    case ByCaller(caller, call) =>
      assert call.Recheck? && caller == c by { OnlyRecheckAdmits(s, cfg, caller, call, c); }
    case BySpawn(sp, work) =>
      SpawnMoveCallers(s, cfg, sp, work);
      hide SpawnMove;
      assert false;
    case ByPool(p) => hide PoolModel.Reap; assert false;
    case ByApply(ap) => hide Evict; assert false;
  }

  lemma OnlyRecheckAdmits(s: Sys, cfg: PoolConfig, caller: CallerId, call: CallerAction, c: CallerId)
    requires CallerEnabled(s, cfg, caller, call) && Admitted(s, CallerMove(s, cfg, caller, call), c)
    ensures call.Recheck? && caller == c
  {
    hide Lookup;
  }

  lemma SpawnMoveCallers(s: Sys, cfg: PoolConfig, sp: SpawnId, a: SpawnAction)
    requires SpawnEnabled(s, sp, a)
    ensures SpawnMove(s, cfg, sp, a).callers == s.callers
  {
  }

  function CallsOn(e: ConnId): Caller -> bool { (ph: Caller) => ph.Calling? && ph.conn == e }

  function FreedOn(e: ConnId): Caller -> bool { (ph: Caller) => ph.Freed? && ph.conn == e }

  /**
  The counters are the callers in each phase. At most MaxConcurrent callers hold a slot; inflight
  may pass that bound, by exactly the callers that have handed the slot on and not yet counted down.
  */
  lemma CountersAreCallers(cfg: PoolConfig, acts: seq<Action>, e: ConnId)
    requires Filled(cfg) && Run(cfg, acts).Some? && e in Run(cfg, acts).value.pool.table
    ensures var s := Run(cfg, acts).value;
            var row := s.pool.table[e];
            && row.waiters == Count(s.callers, WaitsOn(e))
            && row.inflight == Count(s.callers, CallsOn(e)) + Count(s.callers, FreedOn(e))
            && Count(s.callers, CallsOn(e)) <= row.slots == Count(s.callers, HoldsSlotOf(e)) <= cfg.maxConcurrent
  {
    RunInv(cfg, acts);
    var s := Run(cfg, acts).value;
    assert Matching(s.callers, RunsOn(e)) == Matching(s.callers, CallsOn(e)) + Matching(s.callers, FreedOn(e));
    SubsetCard(Matching(s.callers, CallsOn(e)), Matching(s.callers, HoldsSlotOf(e)));
    hide Run, Shape, CapOk, Conserved, Fresh;
  }

  /** A key never has an unlanded spawn beside a mapped entry, nor two unlanded spawns. */
  lemma OneBackendPerKey(cfg: PoolConfig, acts: seq<Action>, sp: SpawnId, sq: SpawnId)
    requires Filled(cfg) && Run(cfg, acts).Some?
    requires var s := Run(cfg, acts).value;
             sp in s.tasks && sq in s.tasks && Unlanded(s.tasks[sp].phase) && Unlanded(s.tasks[sq].phase)
    ensures var s := Run(cfg, acts).value;
            s.tasks[sp].key !in s.pool.entries && (s.tasks[sp].key == s.tasks[sq].key ==> sp == sq)
  {
    RunInv(cfg, acts);
    var s := Run(cfg, acts).value;
    assert TaskOk(s, sp) && TaskOk(s, sq);
    hide Run, Tallies, CapOk, Conserved, Fresh;
  }

  /**
  The deadline is the latest time that passes neither the lifetime nor the literal expiry and stays clear of
  the skew when it can: it meets one of those bounds.
  */
  lemma DeadlineBounds(cfg: PoolConfig, born: Time, expiry: Time)
    ensures var d := Deadline(cfg, born, Some(expiry));
            && d <= born + cfg.maxLifetime && d <= expiry
            && (born <= expiry - 30_000_000_000 ==> d <= expiry - 30_000_000_000)
            && (d == born + cfg.maxLifetime || d == expiry - 30_000_000_000 || (d == expiry && born > expiry - 30_000_000_000))
            && (born <= expiry && cfg.maxLifetime >= 0 ==> born <= d)
    ensures Deadline(cfg, born, None) == born + cfg.maxLifetime
  {
  }

  // ---- The circuit breaker ----

  /** Failures in a row, and when the last of them was. */
  datatype Streak = Streak(fails: nat, last: Time)

  predicate Fails(s: Sys, a: Action, key: Key) {
    a.BySpawn? && a.work.ConnectFails? && a.spawn in s.tasks && s.tasks[a.spawn].key == key
  }

  /** A spawn of the key lands, or its server is evicted. */
  predicate Clears(s: Sys, a: Action, key: Key) {
    || (a.BySpawn? && a.work.Land? && SpawnRow(s.pool, a.spawn).key == key && !s.pool.closed && !SpawnRow(s.pool, a.spawn).stale)
    || (a.ByApply? && a.apply.EvictOne? && a.apply.server == key.server)
  }

  /** The connect failures of a key in a run since it last landed or was evicted. */
  function Failures(cfg: PoolConfig, acts: seq<Action>, key: Key): Streak {
    if acts == [] || Run(cfg, acts[..|acts| - 1]).None? then Streak(0, ZERO_TIME)
    else
      var front, a := acts[..|acts| - 1], acts[|acts| - 1];
      var s := Run(cfg, front).value;
      if Fails(s, a, key) then Streak(Failures(cfg, front, key).fails + 1, a.work.now)
      else if Clears(s, a, key) then Streak(0, ZERO_TIME)
      else Failures(cfg, front, key)
  }

  predicate BreakerIs(broken: map<Key, Breaker>, cfg: PoolConfig, key: Key, f: Streak) {
    if f.fails == 0 then key !in broken
    else
      key in broken &&
      broken[key] == Breaker(f.fails, if f.fails >= cfg.breakerThreshold then f.last + cfg.breakerCooldown else ZERO_TIME)
  }

  lemma LookUpKeepsBroken(s: Sys, cfg: PoolConfig, c: CallerId, me: Caller, now: Time, sp: SpawnId)
    requires me.Trying?
    ensures LookUpStep(s, cfg, c, me, now, sp).pool.broken == s.pool.broken
  {
    hide Decide, DropUnusable, RetireSuperseded, LookUpStep;
    LookUpBecomes(s, cfg, c, me, now, sp);
  }

  lemma WakeKeepsBroken(s: Sys, c: CallerId, me: Caller, now: Time)
    requires Wakeable(s, me)
    ensures WakeStep(s, c, me, now).pool.broken == s.pool.broken
  {
  }

  lemma CallerKeepsBroken(s: Sys, cfg: PoolConfig, c: CallerId, a: CallerAction)
    requires CallerEnabled(s, cfg, c, a)
    ensures CallerMove(s, cfg, c, a).pool.broken == s.pool.broken
  {
    hide LookUpStep, WakeStep;
    if a.LookUp? {
      LookUpKeepsBroken(s, cfg, c, s.callers[c], a.now, a.newSpawn);
    } else if a.Wake? {
      WakeKeepsBroken(s, c, s.callers[c], a.now);
    }
  }

  lemma PoolKeepsBroken(s: Sys, cfg: PoolConfig, a: PoolAction)
    ensures PoolMove(s, cfg, a).pool.broken == s.pool.broken
  {
  }

  lemma ApplyMovesBroken(s: Sys, cfg: PoolConfig, a: ApplyAction, key: Key, f: Streak)
    requires ApplyEnabled(s, a) && BreakerIs(s.pool.broken, cfg, key, f)
    ensures BreakerIs(ApplyMove(s, a).pool.broken, cfg, key, if Clears(s, ByApply(a), key) then Streak(0, ZERO_TIME) else f)
  {
  }

  lemma SpawnMovesBroken(s: Sys, cfg: PoolConfig, sp: SpawnId, a: SpawnAction, key: Key, f: Streak)
    requires SpawnEnabled(s, sp, a) && TasksOk(s) && BreakerIs(s.pool.broken, cfg, key, f)
    ensures var broken := SpawnMove(s, cfg, sp, a).pool.broken; var act := BySpawn(sp, a);
            BreakerIs(broken, cfg, key, if Fails(s, act, key) then Streak(f.fails + 1, a.now)
                                        else if Clears(s, act, key) then Streak(0, ZERO_TIME) else f)
  {
    assert TaskOk(s, sp);
    hide TasksOk, Deadline;
  }

  lemma StepMovesBroken(s: Sys, cfg: PoolConfig, a: Action, key: Key, f: Streak)
    requires Shape(s) && Enabled(s, cfg, a) && BreakerIs(s.pool.broken, cfg, key, f)
    ensures BreakerIs(Step(s, cfg, a).pool.broken, cfg, key,
                      if Fails(s, a, key) then Streak(f.fails + 1, a.work.now)
                      else if Clears(s, a, key) then Streak(0, ZERO_TIME) else f)
  {
    hide CallerMove, SpawnMove, PoolMove, ApplyMove, CallerEnabled, SpawnEnabled, PoolEnabled, ApplyEnabled,
      EntriesOk, OrphansOk, TasksOk, SpawningOk, CallersOk, ConnsOk, BreakerIs;
    match a
    case ByCaller(c, call) => CallerKeepsBroken(s, cfg, c, call);
    case BySpawn(sp, work) => SpawnMovesBroken(s, cfg, sp, work, key, f);
    case ByPool(p) => PoolKeepsBroken(s, cfg, p);
    case ByApply(ap) => ApplyMovesBroken(s, cfg, ap, key, f);
  }

  lemma {:induction false} BreakerCounts(cfg: PoolConfig, acts: seq<Action>, key: Key)
    requires Filled(cfg) && Run(cfg, acts).Some?
    ensures BreakerIs(Run(cfg, acts).value.pool.broken, cfg, key, Failures(cfg, acts, key))
  {
    if acts != [] {
      var front, a := acts[..|acts| - 1], acts[|acts| - 1];
      BreakerCounts(cfg, front, key);
      RunInv(cfg, front);
      StepMovesBroken(Run(cfg, front).value, cfg, a, key, Failures(cfg, front, key));
      hide Shape, Tallies, CapOk, Conserved, Fresh, Step, Enabled, BreakerIs, Fails, Clears;
    }
  }

  /**
  In every run a Get that finds no usable entry is refused as circuit-open exactly when the key's connect
  failures since it last landed or was evicted reach the threshold and the last one's cooldown still runs.
  */
  lemma BreakerOpens(cfg: PoolConfig, acts: seq<Action>, key: Key, now: Time, sp: SpawnId)
    requires Filled(cfg) && Run(cfg, acts).Some? && now > Run(cfg, acts).value.clock
    ensures var s := Run(cfg, acts).value; var f := Failures(cfg, acts, key);
            Lookup(s.pool, cfg, key, now, s.dead, sp).outcome == Refused(CircuitOpen) <==>
              && !s.pool.closed && !(key in s.pool.entries && !Unusable(s.pool, s.pool.entries[key], now, s.dead))
              && f.fails > 0 && f.fails >= cfg.breakerThreshold && now < f.last + cfg.breakerCooldown
  {
    RunInv(cfg, acts);
    BreakerCounts(cfg, acts, key);
    assert now > ZERO_TIME;
    hide Run, Failures, TenantCount, Shape, Tallies, CapOk, Conserved, Fresh;
  }
}
