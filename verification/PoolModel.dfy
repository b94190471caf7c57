/**
The backend pool as a value, and what each section of pool.go that holds p.mu does to it.

A connection id stands for an entry pointer and its mux, a spawn id for a spawn pointer. The
table holds the fields of every entry ever created, because a caller may keep using an entry
that is no longer mapped.
*/
module PoolModel {
  import opened Common

  type ConnId = int
  type SpawnId = int
  type Time = int

  const ZERO_TIME: Time := 0
  const CRED_EXPIRY_SKEW: Time := 30_000_000_000

  datatype Key = Key(server: string, tenant: string, credSet: string, credVersion: int)

  datatype PoolConfig = PoolConfig(
    maxConcurrent: int, maxProcsPerTenant: int, idleTTL: Time, maxLifetime: Time,
    breakerThreshold: int, breakerCooldown: Time)

  datatype Entry = Entry(
    key: Key, born: Time, deadline: Time, defined: Time, lastUsed: Time,
    inflight: int, waiters: int, slots: int)

  datatype Spawn = Spawn(key: Key, stale: bool, built: Time)

  datatype Breaker = Breaker(fails: nat, openUntil: Time)

  datatype Pool = Pool(
    entries: map<Key, ConnId>, table: map<ConnId, Entry>, orphans: seq<ConnId>,
    pending: map<string, int>, spawning: map<Key, SpawnId>, spawns: map<SpawnId, Spawn>,
    broken: map<Key, Breaker>, closed: bool)

  const EMPTY: Pool := Pool(map[], map[], [], map[], map[], map[], map[], false)

  predicate Busy(e: Entry) { e.inflight > 0 || e.waiters > 0 }

  const NO_ENTRY: Entry := Entry(Key("", "", "", 0), ZERO_TIME, ZERO_TIME, ZERO_TIME, ZERO_TIME, 0, 0, 0)

  /** The fields behind an entry pointer. */
  function Row(p: Pool, c: ConnId): Entry {
    if c in p.table then p.table[c] else NO_ENTRY
  }

  function SetRow(p: Pool, c: ConnId, e: Entry): Pool { p.(table := p.table[c := e]) }

  const NO_SPAWN: Spawn := Spawn(Key("", "", "", 0), false, ZERO_TIME)

  function SpawnRow(p: Pool, sp: SpawnId): Spawn {
    if sp in p.spawns then p.spawns[sp] else NO_SPAWN
  }

  predicate MappedAt(p: Pool, k: Key, c: ConnId) { k in p.entries && p.entries[k] == c }

  predicate Mapped(p: Pool, c: ConnId) { MappedAt(p, Row(p, c).key, c) }

  // ---- Get, first section (pool.go:246-332) ----

  predicate Unusable(p: Pool, c: ConnId, now: Time, dead: set<ConnId>) {
    c in dead || now > Row(p, c).deadline
  }

  datatype Dropped = Dropped(pool: Pool, victims: set<ConnId>)

  /** Unmaps a dead or past-deadline entry: a live busy one becomes an orphan, any other is closed. */
  function DropUnusable(p: Pool, key: Key, now: Time, dead: set<ConnId>): (d: Dropped)
    ensures d.pool == p.(entries := d.pool.entries, orphans := d.pool.orphans)
  {
    if key in p.entries && Unusable(p, p.entries[key], now, dead) then
      var c := p.entries[key];
      var q := p.(entries := p.entries - {key});
      if c in dead || !Busy(Row(p, c)) then Dropped(q, {c})
      else Dropped(q.(orphans := p.orphans + [c]), {})
    else Dropped(p, {})
  }

  predicate Superseded(p: Pool, k: Key, key: Key)
    requires k in p.entries
  {
    && k.server == key.server && k.tenant == key.tenant && k.credSet == key.credSet
    && k.credVersion < key.credVersion
    && !Busy(Row(p, p.entries[k]))
  }

  function RetireSuperseded(p: Pool, key: Key): (d: Dropped)
    ensures d.pool == p.(entries := d.pool.entries)
  {
    Dropped(
      p.(entries := map k | k in p.entries && !Superseded(p, k, key) :: p.entries[k]),
      set k | k in p.entries && Superseded(p, k, key) :: p.entries[k])
  }

  function Pending(p: Pool, tenant: string): int {
    if tenant in p.pending then p.pending[tenant] else 0
  }

  predicate LiveOrphan(p: Pool, dead: set<ConnId>, tenant: string, c: ConnId) {
    Row(p, c).key.tenant == tenant && c !in dead
  }

  function TenantCount(p: Pool, dead: set<ConnId>, tenant: string): int {
    |set k | k in p.entries && k.tenant == tenant && p.entries[k] !in dead|
    + |Filter(p.orphans, c => LiveOrphan(p, dead, tenant, c))|
    + Pending(p, tenant)
  }

  datatype Refusal = PoolClosed | CircuitOpen | AtCap

  datatype Outcome = Refused(why: Refusal) | Attached(spawn: SpawnId) | Started(spawn: SpawnId) | Queued(conn: ConnId)

  datatype LookupStep = LookupStep(pool: Pool, outcome: Outcome, victims: set<ConnId>)

  function QueueOn(p: Pool, c: ConnId, now: Time): Pool {
    SetRow(p, c, Row(p, c).(lastUsed := now, waiters := Row(p, c).waiters + 1))
  }

  function StartSpawn(p: Pool, key: Key, sp: SpawnId): Pool {
    p.(pending := p.pending[key.tenant := Pending(p, key.tenant) + 1],
       spawning := p.spawning[key := sp],
       spawns := p.spawns[sp := Spawn(key, false, ZERO_TIME)])
  }

  datatype Decision = Decision(pool: Pool, outcome: Outcome)

  /** With no entry to queue on: the breaker, the spawn to share, the cap, and a new spawn. */
  function Decide(p: Pool, cfg: PoolConfig, key: Key, now: Time, dead: set<ConnId>, newSpawn: SpawnId): (d: Decision)
    ensures d.pool == p.(pending := d.pool.pending, spawning := d.pool.spawning, spawns := d.pool.spawns)
  {
    if key in p.broken && now < p.broken[key].openUntil then Decision(p, Refused(CircuitOpen))
    else if key in p.spawning then Decision(p, Attached(p.spawning[key]))
    else if TenantCount(p, dead, key.tenant) >= cfg.maxProcsPerTenant then Decision(p, Refused(AtCap))
    else Decision(StartSpawn(p, key, newSpawn), Started(newSpawn))
  }

  function Lookup(p: Pool, cfg: PoolConfig, key: Key, now: Time, dead: set<ConnId>, newSpawn: SpawnId): LookupStep {
    if p.closed then LookupStep(p, Refused(PoolClosed), {})
    else
      var d := DropUnusable(p, key, now, dead);
      if key in d.pool.entries then
        LookupStep(QueueOn(d.pool, d.pool.entries[key], now), Queued(d.pool.entries[key]), d.victims)
      else
        var r := RetireSuperseded(d.pool, key);
        var choice := Decide(r.pool, cfg, key, now, dead, newSpawn);
        LookupStep(choice.pool, choice.outcome, d.victims + r.victims)
  }

  // ---- Get, later sections (pool.go:318-363) ----

  /** After the spawn: queue on the entry it installed, provided that entry is still the one mapped. */
  function Attach(p: Pool, key: Key, c: ConnId, now: Time): Option<Pool> {
    if MappedAt(p, key, c) then Some(QueueOn(p, c, now)) else None
  }

  function LeaveQueue(p: Pool, c: ConnId): Pool {
    SetRow(p, c, Row(p, c).(waiters := Row(p, c).waiters - 1))
  }

  predicate Admissible(p: Pool, key: Key, c: ConnId, now: Time, dead: set<ConnId>) {
    MappedAt(p, key, c) && !Unusable(p, c, now, dead)
  }

  /** With a slot in hand: leave the queue, and start the call if the entry is still admissible. */
  function Admit(p: Pool, key: Key, c: ConnId, now: Time, dead: set<ConnId>): Pool {
    var e := Row(p, c).(waiters := Row(p, c).waiters - 1);
    SetRow(p, c, if Admissible(p, key, c, now, dead) then e.(inflight := e.inflight + 1) else e)
  }

  function FinishCall(p: Pool, c: ConnId, now: Time): Pool {
    SetRow(p, c, Row(p, c).(inflight := Row(p, c).inflight - 1, lastUsed := now))
  }

  /** Sends to and receives from the slot channel, which are not under p.mu. */
  function MoveSlots(p: Pool, c: ConnId, delta: int): Pool {
    SetRow(p, c, Row(p, c).(slots := Row(p, c).slots + delta))
  }

  // ---- spawnEntry and runSpawn (pool.go:381-495) ----

  function ReleasePending(p: Pool, tenant: string): Pool {
    var n := Pending(p, tenant) - 1;
    p.(pending := if n > 0 then p.pending[tenant := n] else p.pending - {tenant})
  }

  function Stamp(p: Pool, sp: SpawnId, now: Time): Pool {
    p.(spawns := p.spawns[sp := SpawnRow(p, sp).(built := now)])
  }

  function RecordFailure(p: Pool, cfg: PoolConfig, key: Key, now: Time): Pool {
    var prior := if key in p.broken then p.broken[key] else Breaker(0, ZERO_TIME);
    var fails := prior.fails + 1;
    p.(broken := p.broken[key :=
      Breaker(fails, if fails >= cfg.breakerThreshold then now + cfg.breakerCooldown else prior.openUntil)])
  }

  /** born + MaxLifetime, clamped to the credentials' expiry less the skew when they carry one. */
  function Deadline(cfg: PoolConfig, born: Time, expiry: Option<Time>): Time {
    var limit := born + cfg.maxLifetime;
    if expiry.None? then limit
    else
      var skewed := expiry.value - CRED_EXPIRY_SKEW;
      var d := if skewed < born then expiry.value else skewed;
      if d < limit then d else limit
  }

  datatype Landing = Installed(conn: ConnId) | Adopted(conn: ConnId) | Retired | ShutDown

  datatype InstallStep = InstallStep(pool: Pool, landing: Landing, victims: set<ConnId>)

  function Install(p: Pool, cfg: PoolConfig, sp: SpawnId, conn: ConnId, now: Time, expiry: Option<Time>,
                   dead: set<ConnId>): InstallStep
  {
    var s := SpawnRow(p, sp);
    var q := ReleasePending(p, s.key.tenant);
    if q.closed then InstallStep(q, ShutDown, {conn})
    else if s.stale then InstallStep(q, Retired, {conn})
    else
      var u := q.(broken := q.broken - {s.key});
      if s.key in u.entries && u.entries[s.key] !in dead then
        InstallStep(u, Adopted(u.entries[s.key]), {conn})
      else
        var e := Entry(s.key, now, Deadline(cfg, now, expiry), s.built, now, 0, 0, 0);
        InstallStep(u.(entries := u.entries[s.key := conn], table := u.table[conn := e]), Installed(conn), {})
  }

  function EndSpawn(p: Pool, sp: SpawnId): Pool {
    var k := SpawnRow(p, sp).key;
    if k in p.spawning && p.spawning[k] == sp then p.(spawning := p.spawning - {k}) else p
  }

  // ---- reap, evictServer, Shutdown (pool.go:603-747) ----

  predicate Reapable(p: Pool, cfg: PoolConfig, c: ConnId, now: Time, dead: set<ConnId>) {
    var e := Row(p, c);
    c in dead || (!Busy(e) && now - e.lastUsed > cfg.idleTTL) || (!Busy(e) && now > e.deadline)
  }

  predicate Drained(p: Pool, c: ConnId, dead: set<ConnId>) {
    c in dead || !Busy(Row(p, c))
  }

  function Reap(p: Pool, cfg: PoolConfig, now: Time, dead: set<ConnId>): (d: Dropped)
    ensures d.pool == p.(entries := d.pool.entries, orphans := d.pool.orphans)
  {
    Dropped(
      p.(entries := map k | k in p.entries && !Reapable(p, cfg, p.entries[k], now, dead) :: p.entries[k],
         orphans := Filter(p.orphans, c => !Drained(p, c, dead))),
      (set k | k in p.entries && Reapable(p, cfg, p.entries[k], now, dead) :: p.entries[k])
      + Elements(Filter(p.orphans, c => Drained(p, c, dead))))
  }

  predicate DefinedAfter(e: Entry, since: Time) {
    if e.defined == ZERO_TIME then e.born > since else e.defined > since
  }

  predicate Evictable(p: Pool, c: ConnId, server: string, since: Time) {
    Row(p, c).key.server == server && DefinedAfter(Row(p, c), since)
  }

  predicate Outdated(p: Pool, sp: SpawnId, server: string, since: Time) {
    var s := SpawnRow(p, sp);
    && s.key in p.spawning && p.spawning[s.key] == sp
    && s.key.server == server && (s.built == ZERO_TIME || s.built > since)
  }

  predicate EvictsKey(p: Pool, k: Key, server: string, since: Time)
    requires k in p.entries
  {
    k.server == server && DefinedAfter(Row(p, p.entries[k]), since)
  }

  function Evict(p: Pool, server: string, since: Time): (d: Dropped)
    ensures d.pool == p.(entries := d.pool.entries, orphans := d.pool.orphans, broken := d.pool.broken, spawns := d.pool.spawns)
  {
    Dropped(
      p.(entries := map k | k in p.entries && !EvictsKey(p, k, server, since) :: p.entries[k],
         orphans := Filter(p.orphans, c => !Evictable(p, c, server, since)),
         broken := map k | k in p.broken && k.server != server :: p.broken[k],
         spawns := map sp | sp in p.spawns ::
           if Outdated(p, sp, server, since) then p.spawns[sp].(stale := true) else p.spawns[sp]),
      (set k | k in p.entries && EvictsKey(p, k, server, since) :: p.entries[k])
      + Elements(Filter(p.orphans, c => Evictable(p, c, server, since))))
  }

  function Shutdown(p: Pool): Dropped {
    Dropped(p.(entries := map[], orphans := [], closed := true), p.entries.Values + Elements(p.orphans))
  }
}
