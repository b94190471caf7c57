/** Runs in which inflight passes MaxConcurrent: a finished call hands its slot on before it counts down. */
module GatewayInflight {
  import opened Common
  import opened PoolModel
  import opened GatewaySystem
  import opened GatewayTheorems
  import R = ReconcileModel

  const KEY: Key := Key("server", "tenant", "", 0)
  const CONN: ConnId := 7
  const SPAWN: SpawnId := 1

  lemma Extend(cfg: PoolConfig, acts: seq<Action>, a: Action) returns (more: seq<Action>)
    requires Run(cfg, acts).Some? && Enabled(Run(cfg, acts).value, cfg, a)
    ensures Run(cfg, more) == Some(Step(Run(cfg, acts).value, cfg, a))
  {
    more := acts + [a];
    assert more[..|acts|] == acts;
  }

  // ---- A backend comes into service ----

  predicate Configured(s: Sys) {
    s == START.(rec := s.rec, clock := 1) && KEY.server in R.ServersOf(s.rec.cur)
  }

  lemma Configures(cfg: PoolConfig) returns (acts: seq<Action>)
    ensures Run(cfg, acts).Some? && Configured(Run(cfg, acts).value)
  {
    var next := R.Config(map[KEY.server := "definition"], "");
    assert KEY.server in R.Diff(None, next).added;
    acts := Extend(cfg, [], ByApply(Begin(Some(next), 1)));
    acts := Extend(cfg, acts, ByApply(Publish));
  }

  predicate Spawning(s: Sys, ph: Phase) {
    && s.pool == StartSpawn(EMPTY, KEY, SPAWN) && s.tasks == map[SPAWN := Task(KEY, ph)] && s.dead == {}
    && s.origin == map[] && s.callers.Keys == {0} && s.clock == 2 && KEY.server in R.ServersOf(s.rec.cur)
  }

  lemma EmptyLookup(cfg: PoolConfig)
    requires Filled(cfg)
    ensures Lookup(EMPTY, cfg, KEY, 2, {}, SPAWN) == LookupStep(StartSpawn(EMPTY, KEY, SPAWN), Started(SPAWN), {})
  {
    assert RetireSuperseded(EMPTY, KEY).pool == EMPTY && RetireSuperseded(EMPTY, KEY).victims == {};
    assert TenantCount(EMPTY, {}, KEY.tenant) == 0;
  }

  lemma Asks(cfg: PoolConfig) returns (acts: seq<Action>)
    requires Filled(cfg)
    ensures Run(cfg, acts).Some? && Spawning(Run(cfg, acts).value, Starting)
  {
    hide Run, Lookup;
    acts := Configures(cfg);
    acts := Extend(cfg, acts, ByCaller(0, Arrive(KEY)));
    EmptyLookup(cfg);
    acts := Extend(cfg, acts, ByCaller(0, LookUp(2, SPAWN)));
  }

  predicate Connected(s: Sys) {
    && SPAWN in s.tasks && s.tasks == map[SPAWN := Task(KEY, Opened(CONN))] && s.dead == {} && s.callers.Keys == {0}
    && s.clock == 3
    && s.pool == StartSpawn(EMPTY, KEY, SPAWN).(spawns := map[SPAWN := Spawn(KEY, false, 3)])
  }

  lemma Connects(cfg: PoolConfig) returns (acts: seq<Action>)
    requires Filled(cfg)
    ensures Run(cfg, acts).Some? && Connected(Run(cfg, acts).value)
  {
    hide Run;
    acts := Asks(cfg);
    acts := Extend(cfg, acts, BySpawn(SPAWN, FactoryReads));
    acts := Extend(cfg, acts, BySpawn(SPAWN, FactoryReturns(3)));
    acts := Extend(cfg, acts, BySpawn(SPAWN, ConnectReturns(CONN)));
  }

  /** A live entry with n calls counted on it and no slot taken. */
  predicate Serving(s: Sys, n: nat, deadline: Time) {
    && !s.pool.closed && MappedAt(s.pool, KEY, CONN) && CONN in s.pool.table && CONN !in s.dead
    && s.pool.table[CONN].inflight == n && s.pool.table[CONN].slots == 0 && s.pool.table[CONN].deadline == deadline
    && (forall c :: c in s.callers ==> c <= n) && (forall sp :: sp in s.tasks ==> sp == SPAWN)
  }

  lemma Serves(cfg: PoolConfig) returns (acts: seq<Action>)
    requires Filled(cfg)
    ensures Run(cfg, acts).Some? && Serving(Run(cfg, acts).value, 0, 4 + cfg.maxLifetime) && Run(cfg, acts).value.clock == 4
  {
    hide Run;
    acts := Connects(cfg);
    acts := Extend(cfg, acts, BySpawn(SPAWN, Land(4, None)));
  }

  // ---- Calls that have freed their slot and not yet counted down ----

  predicate Queued(s: Sys, n: nat, deadline: Time) {
    && !s.pool.closed && MappedAt(s.pool, KEY, CONN) && CONN in s.pool.table && CONN !in s.dead
    && s.pool.table[CONN].inflight == n && s.pool.table[CONN].slots == 0 && s.pool.table[CONN].deadline == deadline
    && n + 1 in s.callers && s.callers[n + 1] == Queueing(KEY, 1, CONN)
    && (forall c :: c in s.callers ==> c <= n + 1) && (forall sp :: sp in s.tasks ==> sp == SPAWN)
  }

  lemma LiveLookup(s: Sys, cfg: PoolConfig, n: nat, deadline: Time, now: Time)
    requires Serving(s, n, deadline) && now <= deadline
    ensures Lookup(s.pool, cfg, KEY, now, s.dead, SPAWN + 1) == LookupStep(QueueOn(s.pool, CONN, now), PoolModel.Queued(CONN), {})
  {
  }

  lemma Queues(cfg: PoolConfig, acts: seq<Action>, n: nat, deadline: Time) returns (more: seq<Action>)
    requires Run(cfg, acts).Some? && Serving(Run(cfg, acts).value, n, deadline) && Run(cfg, acts).value.clock < deadline
    ensures Run(cfg, more).Some? && Queued(Run(cfg, more).value, n, deadline)
    ensures Run(cfg, more).value.clock == Run(cfg, acts).value.clock + 1
  {
    hide Run, Lookup;
    var now := Run(cfg, acts).value.clock + 1;
    more := Extend(cfg, acts, ByCaller(n + 1, Arrive(KEY)));
    LiveLookup(Run(cfg, more).value.(callers := Run(cfg, acts).value.callers), cfg, n, deadline, now);
    more := Extend(cfg, more, ByCaller(n + 1, LookUp(now, SPAWN + 1)));
  }

  lemma Passes(cfg: PoolConfig, acts: seq<Action>, n: nat, deadline: Time) returns (more: seq<Action>)
    requires Filled(cfg) && Run(cfg, acts).Some? && Queued(Run(cfg, acts).value, n, deadline)
    requires Run(cfg, acts).value.clock < deadline
    ensures Run(cfg, more).Some? && Serving(Run(cfg, more).value, n + 1, deadline)
    ensures Run(cfg, more).value.clock == Run(cfg, acts).value.clock + 1
  {
    hide Run;
    more := Extend(cfg, acts, ByCaller(n + 1, TakeSlot));
    more := Extend(cfg, more, ByCaller(n + 1, Recheck(Run(cfg, acts).value.clock + 1)));
    more := Extend(cfg, more, ByCaller(n + 1, FreeSlot));
  }

  lemma {:induction false} ServesMany(cfg: PoolConfig, n: nat) returns (acts: seq<Action>)
    requires Filled(cfg) && cfg.maxLifetime >= 2 * n
    ensures Run(cfg, acts).Some? && Serving(Run(cfg, acts).value, n, 4 + cfg.maxLifetime)
    ensures Run(cfg, acts).value.clock == 4 + 2 * n
  {
    hide Run, Serving, Queued;
    if n == 0 {
      acts := Serves(cfg);
    } else {
      acts := ServesMany(cfg, n - 1);
      acts := Queues(cfg, acts, n - 1, 4 + cfg.maxLifetime);
      acts := Passes(cfg, acts, n - 1, 4 + cfg.maxLifetime);
    }
  }

  /** However small MaxConcurrent is, any number of calls may be counted in flight at once, with no slot taken. */
  lemma InflightPassesAnyBound(cfg: PoolConfig, n: nat) returns (acts: seq<Action>)
    requires Filled(cfg) && cfg.maxLifetime >= 2 * n
    ensures Run(cfg, acts).Some? && CONN in Run(cfg, acts).value.pool.table
    ensures var row := Run(cfg, acts).value.pool.table[CONN]; row.inflight == n && row.slots == 0
  {
    acts := ServesMany(cfg, n);
    hide Run;
  }
}
