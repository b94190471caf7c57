/** The tenant cap: reservations are counted exactly, and live backends plus reservations stay within it. */
module GatewayCap {
  import opened Common
  import opened PoolModel
  import opened GatewaySystem
  import opened GatewayShape

  /** An admitted spawn holds its reservation until it lands, fails or is turned away. */
  function Reserves(tenant: string): Task -> bool {
    (t: Task) => t.key.tenant == tenant && Unlanded(t.phase)
  }

  ghost predicate ReservationsExact(p: Pool, tasks: map<SpawnId, Task>) {
    forall t :: Pending(p, t) == Count(tasks, Reserves(t))
  }

  predicate Placed(p: Pool, c: ConnId) { Mapped(p, c) || c in p.orphans }

  function Live(p: Pool, dead: set<ConnId>, tenant: string): set<ConnId> {
    set c | c in p.table && Placed(p, c) && p.table[c].key.tenant == tenant && c !in dead
  }

  ghost predicate WithinCap(p: Pool, dead: set<ConnId>, cfg: PoolConfig) {
    forall t :: |Live(p, dead, t)| + Pending(p, t) <= cfg.maxProcsPerTenant
  }

  // ---- The source's two loops count the live set ----

  lemma {:induction false} ImageCard(keys: set<Key>, m: map<Key, ConnId>)
    requires keys <= m.Keys && forall k, l :: k in keys && l in keys && m[k] == m[l] ==> k == l
    ensures |set k | k in keys :: m[k]| == |keys|
    decreases |keys|
  {
    if keys != {} {
      var k :| k in keys;
      ImageCard(keys - {k}, m);
      assert (set l | l in keys :: m[l]) == (set l | l in keys - {k} :: m[l]) + {m[k]};
    }
  }

  lemma {:induction false} DistinctCard(s: seq<ConnId>)
    requires Distinct(s)
    ensures |Elements(s)| == |s|
  {
    if s != [] {
      var front := s[..|s| - 1];
      DistinctCard(front);
      assert Elements(s) == Elements(front) + {s[|s| - 1]};
      assert s[|s| - 1] !in front;
    }
  }

  lemma MappedCard(p: Pool, dead: set<ConnId>, tenant: string)
    requires EntriesOk(p)
    ensures |set k | k in p.entries && k.tenant == tenant && p.entries[k] !in dead|
         == |set c | c in p.table && Mapped(p, c) && p.table[c].key.tenant == tenant && c !in dead|
  {
    var keys := set k | k in p.entries && k.tenant == tenant && p.entries[k] !in dead;
    ImageCard(keys, p.entries);
    assert (set c | c in p.table && Mapped(p, c) && p.table[c].key.tenant == tenant && c !in dead)
        == (set k | k in keys :: p.entries[k]);
  }

  lemma OrphanCard(p: Pool, dead: set<ConnId>, tenant: string)
    requires OrphansOk(p)
    ensures |Filter(p.orphans, c => LiveOrphan(p, dead, tenant, c))|
         == |set c | c in p.orphans && p.table[c].key.tenant == tenant && c !in dead|
  {
    var f := (c: ConnId) => LiveOrphan(p, dead, tenant, c);
    FilterDistinct(p.orphans, f);
    DistinctCard(Filter(p.orphans, f));
    assert Elements(Filter(p.orphans, f))
        == (set c | c in p.orphans && p.table[c].key.tenant == tenant && c !in dead);
  }

  lemma LiveSplits(p: Pool, dead: set<ConnId>, tenant: string)
    requires OrphansOk(p)
    ensures |Live(p, dead, tenant)|
         == |set c | c in p.table && Mapped(p, c) && p.table[c].key.tenant == tenant && c !in dead|
          + |set c | c in p.orphans && p.table[c].key.tenant == tenant && c !in dead|
  {
    var mapped := set c | c in p.table && Mapped(p, c) && p.table[c].key.tenant == tenant && c !in dead;
    var orphaned := set c | c in p.orphans && p.table[c].key.tenant == tenant && c !in dead;
    forall c
      ensures c in Live(p, dead, tenant) <==> c in mapped + orphaned
    {
    }
    assert Live(p, dead, tenant) == mapped + orphaned;
    assert mapped !! orphaned;
  }

  /** The count Get compares with the cap is the number of live placed backends plus the reservations. */
  lemma TenantCountIsLive(p: Pool, dead: set<ConnId>, tenant: string)
    requires EntriesOk(p) && OrphansOk(p)
    ensures TenantCount(p, dead, tenant) == |Live(p, dead, tenant)| + Pending(p, tenant)
  {
    MappedCard(p, dead, tenant);
    OrphanCard(p, dead, tenant);
    LiveSplits(p, dead, tenant);
    hide EntriesOk, OrphansOk, Live, Mapped, LiveOrphan, Filter;
  }

  // ---- Steps that place nothing new ----

  ghost predicate Fades(p: Pool, q: Pool) {
    && q.table.Keys == p.table.Keys
    && (forall c :: c in p.table ==> q.table[c].key == p.table[c].key)
    && (forall c :: c in p.table && Placed(q, c) ==> Placed(p, c))
  }

  lemma FadingCap(p: Pool, q: Pool, dead: set<ConnId>, dead': set<ConnId>, cfg: PoolConfig)
    requires WithinCap(p, dead, cfg) && Fades(p, q) && dead <= dead'
    requires forall t :: Pending(q, t) <= Pending(p, t)
    ensures WithinCap(q, dead', cfg)
  {
    forall t
      ensures |Live(q, dead', t)| + Pending(q, t) <= cfg.maxProcsPerTenant
    {
      SubsetCard(Live(q, dead', t), Live(p, dead, t));
    }
  }

  lemma UnmapFades(p: Pool, q: Pool)
    requires Unmaps(p, q) && q.table == p.table && forall c :: c in q.orphans ==> c in p.orphans
    ensures Fades(p, q)
  {
  }

  lemma DropFades(p: Pool, key: Key, now: Time, dead: set<ConnId>)
    requires EntriesOk(p)
    ensures Fades(p, DropUnusable(p, key, now, dead).pool)
  {
  }

  // ---- Lookup ----

  lemma StartReserves(p: Pool, tasks: map<SpawnId, Task>, key: Key, sp: SpawnId)
    requires ReservationsExact(p, tasks) && sp !in tasks
    ensures ReservationsExact(StartSpawn(p, key, sp), tasks[sp := Task(key, Starting)])
  {
    forall t
      ensures Pending(StartSpawn(p, key, sp), t) == Count(tasks[sp := Task(key, Starting)], Reserves(t))
    {
      CountUpdate(tasks, sp, Task(key, Starting), Reserves(t));
    }
  }

  lemma StartWithinCap(p: Pool, dead: set<ConnId>, cfg: PoolConfig, key: Key, sp: SpawnId)
    requires EntriesOk(p) && OrphansOk(p) && WithinCap(p, dead, cfg)
    requires TenantCount(p, dead, key.tenant) < cfg.maxProcsPerTenant
    ensures WithinCap(StartSpawn(p, key, sp), dead, cfg)
  {
    TenantCountIsLive(p, dead, key.tenant);
    var q := StartSpawn(p, key, sp);
    forall t
      ensures |Live(q, dead, t)| + Pending(q, t) <= cfg.maxProcsPerTenant
    {
      assert Live(q, dead, t) == Live(p, dead, t);
    }
  }

  lemma DecideWithinCap(p: Pool, tasks: map<SpawnId, Task>, dead: set<ConnId>, cfg: PoolConfig, key: Key, now: Time, sp: SpawnId)
    requires EntriesOk(p) && OrphansOk(p) && WithinCap(p, dead, cfg) && ReservationsExact(p, tasks) && sp !in tasks
    ensures var d := Decide(p, cfg, key, now, dead, sp);
            && WithinCap(d.pool, dead, cfg)
            && ReservationsExact(d.pool, if d.outcome.Started? then tasks[sp := Task(key, Starting)] else tasks)
  {
    var d := Decide(p, cfg, key, now, dead, sp);
    hide EntriesOk, OrphansOk, WithinCap, ReservationsExact, TenantCount;
    if d.outcome.Started? {
      StartReserves(p, tasks, key, sp);
      StartWithinCap(p, dead, cfg, key, sp);
    }
  }

  ghost predicate CapOk(s: Sys, cfg: PoolConfig) {
    WithinCap(s.pool, s.dead, cfg) && ReservationsExact(s.pool, s.tasks)
  }

  lemma FadeKeepsCap(s: Sys, t: Sys, cfg: PoolConfig)
    requires CapOk(s, cfg) && Fades(s.pool, t.pool) && s.dead <= t.dead
    requires t.tasks == s.tasks && t.pool.pending == s.pool.pending
    ensures CapOk(t, cfg)
  {
    assert forall x :: Pending(t.pool, x) == Pending(s.pool, x);
    FadingCap(s.pool, t.pool, s.dead, t.dead, cfg);
    hide WithinCap, Fades;
  }

  lemma QueueKeepsCap(s: Sys, cfg: PoolConfig, key: Key, now: Time)
    requires CapOk(s, cfg) && Shape(s) && key in s.pool.entries
    ensures CapOk(s.(pool := QueueOn(s.pool, s.pool.entries[key], now)), cfg)
  {
    MappedInTable(s, key);
    QueueFades(s.pool, s.pool.entries[key], now);
    hide Shape, CapOk, Fades;
    FadeKeepsCap(s, s.(pool := QueueOn(s.pool, s.pool.entries[key], now)), cfg);
  }

  lemma DropKeepsCap(s: Sys, cfg: PoolConfig, key: Key, now: Time)
    requires CapOk(s, cfg) && Shape(s)
    ensures CapOk(Take(s, DropUnusable(s.pool, key, now, s.dead)), cfg)
  {
    DropFades(s.pool, key, now, s.dead);
    hide Shape, CapOk, Fades;
    FadeKeepsCap(s, Take(s, DropUnusable(s.pool, key, now, s.dead)), cfg);
  }

  lemma LookUpKeepsCap(s: Sys, cfg: PoolConfig, c: CallerId, me: Caller, now: Time, sp: SpawnId)
    requires CapOk(s, cfg) && Shape(s) && me.Trying? && sp !in s.tasks
    ensures CapOk(LookUpStep(s, cfg, c, me, now, sp), cfg)
  {
    hide CapOk, Shape, DropUnusable, RetireSuperseded, Decide, QueueOn, Take;
    var t := LookUpStep(s, cfg, c, me, now, sp);
    var d := DropUnusable(s.pool, me.key, now, s.dead);
    if s.pool.closed {
      SameCap(s, t, cfg) by { TakeFields(s, Dropped(s.pool, {})); }
    } else {
      DropKeepsCap(s, cfg, me.key, now);
      DropKeepsShape(s, me.key, now);
      TakeFields(s, d);
      TakeFields(s, Dropped(Lookup(s.pool, cfg, me.key, now, s.dead, sp).pool, Lookup(s.pool, cfg, me.key, now, s.dead, sp).victims));
      if me.key in d.pool.entries {
        QueueKeepsCap(Take(s, d), cfg, me.key, now);
        SameCap(Take(s, d).(pool := QueueOn(d.pool, d.pool.entries[me.key], now)), t, cfg);
      } else {
        RetireThenDecide(Take(s, d), cfg, me.key, now, sp);
        DecideStarting(RetireSuperseded(d.pool, me.key).pool, cfg, me.key, now, s.dead, sp);
        SameCap(Decided(Take(s, d), cfg, me.key, now, sp), t, cfg);
      }
    }
  }

  lemma TakeFields(s: Sys, d: Dropped)
    ensures var t := Take(s, d); t.pool == d.pool && t.tasks == s.tasks && t.dead == s.dead && t.callers == s.callers
  {
  }

  lemma MappedInTable(s: Sys, key: Key)
    requires Shape(s) && key in s.pool.entries
    ensures s.pool.entries[key] in s.pool.table
  {
  }

  lemma QueueFades(p: Pool, c: ConnId, now: Time)
    requires c in p.table
    ensures Fades(p, QueueOn(p, c, now))
  {
  }

  function Decided(s: Sys, cfg: PoolConfig, key: Key, now: Time, sp: SpawnId): Sys {
    var r := RetireSuperseded(s.pool, key);
    var choice := Decide(r.pool, cfg, key, now, s.dead, sp);
    s.(pool := choice.pool, tasks := if choice.outcome.Started? then s.tasks[sp := Task(key, Starting)] else s.tasks)
  }

  lemma RetireThenDecide(s: Sys, cfg: PoolConfig, key: Key, now: Time, sp: SpawnId)
    requires CapOk(s, cfg) && Shape(s) && sp !in s.tasks
    ensures CapOk(Decided(s, cfg, key, now, sp), cfg)
  {
    var r := RetireSuperseded(s.pool, key);
    UnmapFades(s.pool, r.pool);
    FadeKeepsCap(s, Take(s, r), cfg);
    RetireKeepsShape(s, key);
    assert EntriesOk(r.pool) && OrphansOk(r.pool) by { PoolOfShape(Take(s, r)); }
    hide Shape, RetireSuperseded, WithinCap, ReservationsExact, EntriesOk, OrphansOk, Decide;
    DecideWithinCap(r.pool, s.tasks, s.dead, cfg, key, now, sp);
  }

  lemma SameCap(s: Sys, t: Sys, cfg: PoolConfig)
    requires CapOk(s, cfg) && t.pool == s.pool && t.tasks == s.tasks && t.dead == s.dead
    ensures CapOk(t, cfg)
  {
  }

  // ---- The other steps ----

  lemma CallerKeepsCap(s: Sys, cfg: PoolConfig, c: CallerId, a: CallerAction)
    requires CapOk(s, cfg) && Shape(s) && CallerEnabled(s, cfg, c, a)
    ensures CapOk(CallerMove(s, cfg, c, a), cfg)
  {
    var t := CallerMove(s, cfg, c, a);
    if a.LookUp? {
      LookUpKeepsCap(s, cfg, c, s.callers[c], a.now, a.newSpawn);
    } else {
      assert c in s.callers ==> CallerOk(s, s.callers[c]);
      CallerFades(s, cfg, c, a);
      hide Shape, CapOk, Fades;
      FadeKeepsCap(s, t, cfg);
    }
  }

  lemma CallerFades(s: Sys, cfg: PoolConfig, c: CallerId, a: CallerAction)
    requires EntriesOk(s.pool) && CallerEnabled(s, cfg, c, a) && !a.LookUp?
    requires c in s.callers ==> CallerOk(s, s.callers[c])
    ensures var t := CallerMove(s, cfg, c, a);
            Fades(s.pool, t.pool) && t.tasks == s.tasks && t.dead == s.dead && t.pool.pending == s.pool.pending
  {
    hide CallerMove;
    CallerRows(s, cfg, c, a);
  }

  /** Only rows changed, and none its key. */
  predicate RowsOnly(s: Sys, t: Sys) {
    && t.pool == s.pool.(table := t.pool.table) && t.tasks == s.tasks && t.dead == s.dead
    && t.pool.table.Keys == s.pool.table.Keys
    && forall x :: x in s.pool.table ==> t.pool.table[x].key == s.pool.table[x].key
  }

  lemma OneRow(s: Sys, t: Sys, conn: ConnId, e: Entry)
    requires conn in s.pool.table && e.key == Row(s.pool, conn).key
    requires t.pool == SetRow(s.pool, conn, e) && t.tasks == s.tasks && t.dead == s.dead
    ensures RowsOnly(s, t)
  {
  }

  lemma WakeRows(s: Sys, c: CallerId, me: Caller, now: Time)
    requires EntriesOk(s.pool) && Wakeable(s, me)
    ensures RowsOnly(s, WakeStep(s, c, me, now))
  {
  }

  lemma SameRowsOnly(s: Sys, t: Sys)
    requires t.pool == s.pool && t.tasks == s.tasks && t.dead == s.dead
    ensures RowsOnly(s, t)
  {
  }

  lemma CallerRows(s: Sys, cfg: PoolConfig, c: CallerId, a: CallerAction)
    requires EntriesOk(s.pool) && CallerEnabled(s, cfg, c, a) && !a.LookUp?
    requires c in s.callers ==> CallerOk(s, s.callers[c])
    ensures RowsOnly(s, CallerMove(s, cfg, c, a))
  {
    hide LookUpStep, WakeStep, EntriesOk, RowsOnly;
    var t := CallerMove(s, cfg, c, a);
    if a.Wake? {
      WakeRows(s, c, s.callers[c], a.now);
    } else if c in s.callers && AtEntry(s.callers[c]) {
      var conn := s.callers[c].conn;
      OneRow(s, t, conn, Row(t.pool, conn));
    } else {
      SameRowsOnly(s, t);
    }
  }

  lemma PhaseKeepsReservations(p: Pool, tasks: map<SpawnId, Task>, sp: SpawnId, ph: Phase)
    requires ReservationsExact(p, tasks) && sp in tasks && Unlanded(ph) == Unlanded(tasks[sp].phase)
    ensures ReservationsExact(p, tasks[sp := tasks[sp].(phase := ph)])
  {
    var task := tasks[sp].(phase := ph);
    forall t
      ensures Pending(p, t) == Count(tasks[sp := task], Reserves(t))
    {
      CountUpdate(tasks, sp, task, Reserves(t));
    }
  }

  lemma ReleaseKeepsReservations(p: Pool, tasks: map<SpawnId, Task>, sp: SpawnId, ph: Phase)
    requires ReservationsExact(p, tasks) && sp in tasks && Unlanded(tasks[sp].phase) && !Unlanded(ph)
    ensures var q := ReleasePending(p, tasks[sp].key.tenant);
            ReservationsExact(q, tasks[sp := tasks[sp].(phase := ph)])
  {
    var q := ReleasePending(p, tasks[sp].key.tenant);
    var task := tasks[sp].(phase := ph);
    forall t
      ensures Pending(q, t) == Count(tasks[sp := task], Reserves(t))
    {
      CountUpdate(tasks, sp, task, Reserves(t));
      if t == tasks[sp].key.tenant {
        assert sp in Matching(tasks, Reserves(t));
      }
    }
  }

  /** Landing swaps a reservation for at most one live backend of the same tenant. */
  lemma LandKeepsCap(s: Sys, cfg: PoolConfig, sp: SpawnId, now: Time, expiry: Option<Time>)
    requires CapOk(s, cfg) && EntriesOk(s.pool) && sp in s.tasks && s.tasks[sp].phase.Opened? && TaskOk(s, sp)
    ensures CapOk(LandStep(s, cfg, sp, now, expiry), cfg)
  {
    hide Live, Reserves, EntriesOk, Deadline, Count, TenantCount;
    var t := LandStep(s, cfg, sp, now, expiry);
    var conn, tenant := s.tasks[sp].phase.conn, s.tasks[sp].key.tenant;
    assert t.tasks == s.tasks[sp := s.tasks[sp].(phase := t.tasks[sp].phase)] && !Unlanded(t.tasks[sp].phase)
      && t.pool.pending == ReleasePending(s.pool, tenant).pending && t.dead == s.dead;
    ReleaseKeepsReservations(s.pool, s.tasks, sp, t.tasks[sp].phase);
    ReservationHeld(s.tasks, sp);
    hide LandStep;
    forall x
      ensures |Live(t.pool, t.dead, x)| + Pending(t.pool, x) <= cfg.maxProcsPerTenant
    {
      LandLive(s, cfg, sp, now, expiry, x);
      SubsetCard(Live(t.pool, t.dead, x), Live(s.pool, s.dead, x) + if x == tenant then {conn} else {});
    }
  }

  lemma ReservationHeld(tasks: map<SpawnId, Task>, sp: SpawnId)
    requires sp in tasks && Unlanded(tasks[sp].phase)
    ensures Count(tasks, Reserves(tasks[sp].key.tenant)) > 0
  {
    assert sp in Matching(tasks, Reserves(tasks[sp].key.tenant));
  }

  lemma LandLive(s: Sys, cfg: PoolConfig, sp: SpawnId, now: Time, expiry: Option<Time>, tenant: string)
    requires EntriesOk(s.pool) && sp in s.tasks && s.tasks[sp].phase.Opened? && TaskOk(s, sp)
    ensures Live(LandStep(s, cfg, sp, now, expiry).pool, s.dead, tenant)
         <= Live(s.pool, s.dead, tenant) + if tenant == s.tasks[sp].key.tenant then {s.tasks[sp].phase.conn} else {}
  {
  }

  lemma SpawnKeepsCap(s: Sys, cfg: PoolConfig, sp: SpawnId, a: SpawnAction)
    requires CapOk(s, cfg) && Shape(s) && SpawnEnabled(s, sp, a)
    ensures CapOk(SpawnMove(s, cfg, sp, a), cfg)
  {
    var t := SpawnMove(s, cfg, sp, a);
    assert TaskOk(s, sp);
    if a.Land? {
      assert EntriesOk(s.pool);
      hide LandStep, Shape, CapOk;
      LandKeepsCap(s, cfg, sp, a.now, a.expiry);
    } else {
      SpawnFades(s, cfg, sp, a);
      if a.GiveBackReservation? {
        ReleaseKeepsReservations(s.pool, s.tasks, sp, t.tasks[sp].phase);
        assert forall x :: Pending(t.pool, x) <= Pending(s.pool, x) by { ReleaseLowers(s, sp); }
      } else {
        PhaseKeepsReservations(s.pool, s.tasks, sp, t.tasks[sp].phase);
        assert forall x :: Pending(t.pool, x) == Pending(s.pool, x);
      }
      FadingCap(s.pool, t.pool, s.dead, t.dead, cfg);
      hide Shape, Fades, WithinCap;
    }
  }

  lemma ReleaseLowers(s: Sys, sp: SpawnId)
    requires ReservationsExact(s.pool, s.tasks) && sp in s.tasks && Unlanded(s.tasks[sp].phase)
    ensures forall x :: Pending(ReleasePending(s.pool, s.tasks[sp].key.tenant), x) <= Pending(s.pool, x)
  {
  }

  lemma SpawnFades(s: Sys, cfg: PoolConfig, sp: SpawnId, a: SpawnAction)
    requires SpawnEnabled(s, sp, a) && !a.Land?
    ensures Fades(s.pool, SpawnMove(s, cfg, sp, a).pool) && SpawnMove(s, cfg, sp, a).dead == s.dead
  {
  }

  lemma PoolKeepsCap(s: Sys, cfg: PoolConfig, a: PoolAction)
    requires CapOk(s, cfg)
    ensures CapOk(PoolMove(s, cfg, a), cfg)
  {
    var t := PoolMove(s, cfg, a);
    UnmapFades(s.pool, t.pool) by { hide CapOk; }
    hide CapOk, Fades;
    FadeKeepsCap(s, t, cfg);
  }

  lemma ApplyKeepsCap(s: Sys, cfg: PoolConfig, a: ApplyAction)
    requires CapOk(s, cfg) && ApplyEnabled(s, a)
    ensures CapOk(ApplyMove(s, a), cfg)
  {
    var t := ApplyMove(s, a);
    UnmapFades(s.pool, t.pool) by { hide CapOk; }
    hide CapOk, Fades;
    FadeKeepsCap(s, t, cfg);
  }

  lemma CapStep(s: Sys, cfg: PoolConfig, a: Action)
    requires CapOk(s, cfg) && Shape(s) && Enabled(s, cfg, a)
    ensures CapOk(Step(s, cfg, a), cfg)
  {
    hide CallerMove, SpawnMove, PoolMove, ApplyMove, CallerEnabled, SpawnEnabled, PoolEnabled, ApplyEnabled, Shape, CapOk;
    match a {
      case ByCaller(c, call) => CallerKeepsCap(s, cfg, c, call);
      case BySpawn(sp, work) => SpawnKeepsCap(s, cfg, sp, work);
      case ByPool(p) => PoolKeepsCap(s, cfg, p);
      case ByApply(ap) => ApplyKeepsCap(s, cfg, ap);
    }
    SameCap(Move(s, cfg, a), Step(s, cfg, a), cfg);
  }
}
