/** Every backend in service was built from the live definition of its server, whatever Apply did. */
module GatewayFreshness {
  import opened Common
  import opened PoolModel
  import opened GatewaySystem
  import opened GatewayShape
  import R = ReconcileModel

  type Definition = R.Definition

  predicate Matches(cfg: Option<R.Config>, server: string, def: Definition) {
    server in R.ServersOf(cfg) && R.ServersOf(cfg)[server] == def
  }

  /** A definition read at no later than stamp (zero while unstamped) is one this Apply allows for. */
  predicate Allowed(r: R.Reconciler, server: string, def: Definition, stamp: Time) {
    match r.progress
    case Idle => Matches(r.cur, server, def)
    case Opened(_, _, _, _) => Matches(r.cur, server, def)
    case Binding(rev, prev, windowStart, publish) =>
      Matches(prev, server, def)
      || (publish && Matches(Some(rev), server, def) && (stamp == ZERO_TIME || stamp > windowStart))
    case Evicting(owed) =>
      Matches(r.cur, server, def)
      || (server in owed.servers && (stamp == ZERO_TIME || stamp > owed.since))
  }

  predicate RecOk(r: R.Reconciler, clock: Time) {
    match r.progress
    case Idle => true
    case Opened(_, prev, windowStart, _) => r.cur == prev && windowStart <= clock
    case Binding(rev, prev, windowStart, publish) =>
      r.cur == (if publish then Some(rev) else prev) && windowStart <= clock
    case Evicting(owed) => owed.since <= clock
  }

  /** The spawn has a definition in hand and will install what it builds. */
  predicate Building(s: Sys, sp: SpawnId)
    requires sp in s.tasks
  {
    var ph := s.tasks[sp].phase;
    (ph.Read? || ph.Connecting? || (ph.Opened? && ph.conn in s.origin)) && !SpawnRow(s.pool, sp).stale
  }

  function DefOf(s: Sys, sp: SpawnId): Definition
    requires sp in s.tasks && Building(s, sp)
  {
    var ph := s.tasks[sp].phase;
    if ph.Opened? then s.origin[ph.conn].def else ph.def
  }

  predicate StampOk(s: Sys, sp: SpawnId)
    requires sp in s.tasks
  {
    var ph, built := s.tasks[sp].phase, SpawnRow(s.pool, sp).built;
    && 0 <= built <= s.clock
    && (ph.Starting? || ph.Read? ==> built == ZERO_TIME)
    && (ph.Connecting? || ph.Opened? ==> built > ZERO_TIME)
  }

  ghost predicate SpawnsFresh(s: Sys) {
    forall sp :: sp in s.tasks ==>
      && StampOk(s, sp)
      && (Building(s, sp) ==> Allowed(s.rec, s.tasks[sp].key.server, DefOf(s, sp), SpawnRow(s.pool, sp).built))
  }

  predicate ConnFresh(s: Sys, c: ConnId) {
    && c in s.origin && 0 < Row(s.pool, c).defined <= s.clock
    && Allowed(s.rec, Row(s.pool, c).key.server, s.origin[c].def, Row(s.pool, c).defined)
  }

  ghost predicate ConnsFresh(s: Sys) {
    && (forall k :: k in s.pool.entries ==> ConnFresh(s, s.pool.entries[k]))
    && (forall c :: c in s.pool.orphans ==> ConnFresh(s, c))
  }

  ghost predicate Fresh(s: Sys) {
    RecOk(s.rec, s.clock) && s.clock >= 0 && SpawnsFresh(s) && ConnsFresh(s)
  }

  // ---- Apply ----

  lemma AllowedMoves(r: R.Reconciler, r': R.Reconciler, next: Option<R.Config>, now: Time, clock: Time,
                     server: string, def: Definition, stamp: Time)
    requires RecOk(r, clock) && Allowed(r, server, def, stamp) && stamp >= 0
    requires (r.progress.Idle? && r' == R.Begin(r, next, now)) || (r.progress.Opened? && r' == R.Publish(r))
          || (r.progress.Binding? && (r' == R.Refuse(r) || r' == R.Accept(r)))
          || (r.progress.Evicting? && r.progress.owed.servers == {} && r' == R.Finish(r))
    ensures Allowed(r', server, def, stamp)
  {
    if r.progress.Idle? {
      var d := R.Diff(r.cur, R.Revision(next));
      assert server !in d.removed && server !in d.changed <== R.Empty(d);
    }
  }

  lemma RecMoves(r: R.Reconciler, r': R.Reconciler, next: Option<R.Config>, now: Time, clock: Time)
    requires RecOk(r, clock) && clock >= 0
    requires (r.progress.Idle? && r' == R.Begin(r, next, now)) || (r.progress.Opened? && r' == R.Publish(r))
          || (r.progress.Binding? && (r' == R.Refuse(r) || r' == R.Accept(r)))
          || (r.progress.Evicting? && r' == R.Finish(r))
    ensures RecOk(r', if now > clock then now else clock)
  {
  }

  lemma ApplyKeepsFresh(s: Sys, a: ApplyAction)
    requires Fresh(s) && ApplyEnabled(s, a) && !a.EvictOne?
    ensures Fresh(ApplyMove(s, a).(clock := if a.Begin? then a.now else s.clock))
  {
    var t := ApplyMove(s, a).(clock := if a.Begin? then a.now else s.clock);
    var next, now := if a.Begin? then a.next else None, if a.Begin? then a.now else s.clock;
    RecMoves(s.rec, t.rec, next, now, s.clock);
    forall sp | sp in t.tasks
      ensures StampOk(t, sp)
      ensures Building(t, sp) ==> Allowed(t.rec, t.tasks[sp].key.server, DefOf(t, sp), SpawnRow(t.pool, sp).built)
    {
      if Building(t, sp) {
        AllowedMoves(s.rec, t.rec, next, now, s.clock, s.tasks[sp].key.server, DefOf(s, sp), SpawnRow(s.pool, sp).built);
      }
    }
    forall c | ConnFresh(s, c)
      ensures ConnFresh(t, c)
    {
      AllowedMoves(s.rec, t.rec, next, now, s.clock, Row(s.pool, c).key.server, s.origin[c].def, Row(s.pool, c).defined);
    }
    hide Allowed, RecOk, ApplyMove;
  }

  // ---- Eviction ----

  lemma EvictKeepsConns(s: Sys, server: string)
    requires Fresh(s) && EntriesOk(s.pool) && s.rec.progress.Evicting? && server in s.rec.progress.owed.servers
    ensures ConnsFresh(ApplyMove(s, EvictOne(server)))
  {
    var t := ApplyMove(s, EvictOne(server));
    forall k | k in t.pool.entries
      ensures ConnFresh(t, t.pool.entries[k])
    {
      assert ConnFresh(s, s.pool.entries[k]);
    }
    forall c | c in t.pool.orphans
      ensures ConnFresh(t, c)
    {
      assert ConnFresh(s, c);
    }
  }

  lemma EvictKeepsSpawns(s: Sys, server: string)
    requires Fresh(s) && TasksOk(s) && s.rec.progress.Evicting? && server in s.rec.progress.owed.servers
    ensures SpawnsFresh(ApplyMove(s, EvictOne(server)))
  {
  }

  // ---- Steps that read no definition ----

  /** Nothing is placed or built that was not before, and the clock does not go back. */
  ghost predicate AddsNothing(s: Sys, t: Sys) {
    && t.rec == s.rec && s.clock <= t.clock && t.origin == s.origin
    && (forall k :: k in t.pool.entries ==> k in s.pool.entries && t.pool.entries[k] == s.pool.entries[k])
    && (forall c :: c in t.pool.orphans ==> c in s.pool.orphans || Mapped(s.pool, c))
    && (forall c :: c in s.pool.table ==>
          c in t.pool.table && Row(t.pool, c).key == Row(s.pool, c).key
          && Row(t.pool, c).defined == Row(s.pool, c).defined)
  }

  lemma RecLater(r: R.Reconciler, clock: Time, later: Time)
    requires RecOk(r, clock) && clock <= later
    ensures RecOk(r, later)
  {
  }

  lemma AddsNothingConns(s: Sys, t: Sys)
    requires ConnsFresh(s) && EntriesOk(s.pool) && OrphansOk(s.pool) && AddsNothing(s, t)
    ensures ConnsFresh(t)
  {
  }

  predicate SameSpawns(s: Sys, t: Sys) {
    t.tasks == s.tasks && t.pool.spawns == s.pool.spawns
  }

  lemma IdleKeepsFresh(s: Sys, t: Sys)
    requires Fresh(s) && EntriesOk(s.pool) && OrphansOk(s.pool) && AddsNothing(s, t) && SameSpawns(s, t)
    ensures Fresh(t)
  {
  }

  // ---- Callers ----

  lemma DropAddsNothing(s: Sys, key: Key, now: Time)
    requires EntriesOk(s.pool)
    ensures AddsNothing(s, Take(s, DropUnusable(s.pool, key, now, s.dead)))
  {
    DropPlaces(s.pool, key, now, s.dead);
    hide DropUnusable;
  }

  lemma DropPlaces(p: Pool, key: Key, now: Time, dead: set<ConnId>)
    requires EntriesOk(p)
    ensures var q := DropUnusable(p, key, now, dead).pool;
            && (forall k :: k in q.entries ==> k in p.entries && q.entries[k] == p.entries[k])
            && (forall c :: c in q.orphans ==> c in p.orphans || Mapped(p, c))
  {
  }

  lemma RetireAddsNothing(s: Sys, key: Key)
    ensures AddsNothing(s, Take(s, RetireSuperseded(s.pool, key)))
  {
  }

  lemma WakeAddsNothing(s: Sys, c: CallerId, me: Caller, now: Time)
    requires Wakeable(s, me)
    ensures AddsNothing(s, WakeStep(s, c, me, now)) && SameSpawns(s, WakeStep(s, c, me, now))
  {
  }

  lemma CallerAddsNothing(s: Sys, cfg: PoolConfig, c: CallerId, a: CallerAction)
    requires CallerEnabled(s, cfg, c, a) && !a.LookUp?
    ensures var t := CallerMove(s, cfg, c, a); AddsNothing(s, t) && SameSpawns(s, t)
  {
    hide WakeStep, LookUpStep;
    if a.Wake? {
      WakeAddsNothing(s, c, s.callers[c], a.now);
      hide AddsNothing, SameSpawns;
    }
  }

  lemma LaterAddsNothing(s: Sys, t: Sys, later: Time)
    requires AddsNothing(s, t) && SameSpawns(s, t) && s.clock <= later
    ensures AddsNothing(s, t.(clock := later)) && SameSpawns(s, t.(clock := later))
  {
  }

  lemma DecideFresh(s: Sys, t: Sys, cfg: PoolConfig, key: Key, now: Time, sp: SpawnId)
    requires Fresh(s) && sp !in s.tasks && s.clock <= t.clock
    requires var d := Decide(s.pool, cfg, key, now, s.dead, sp);
             && t.pool == d.pool && t.rec == s.rec && t.origin == s.origin
             && t.tasks == (if d.outcome.Started? then s.tasks[sp := Task(key, Starting)] else s.tasks)
    ensures Fresh(t)
  {
    hide TenantCount, Allowed, RecOk;
    RecLater(s.rec, s.clock, t.clock);
    var d := Decide(s.pool, cfg, key, now, s.dead, sp);
    assert d.outcome.Started? ==> d.pool.spawns == s.pool.spawns[sp := Spawn(key, false, ZERO_TIME)] && d.outcome.spawn == sp;
    assert !d.outcome.Started? ==> d.pool == s.pool;
    hide Decide;
    forall q | q in t.tasks
      ensures StampOk(t, q)
      ensures Building(t, q) ==> Allowed(t.rec, t.tasks[q].key.server, DefOf(t, q), SpawnRow(t.pool, q).built)
    {
      assert q in s.tasks ==> StampOk(s, q);
    }
    assert ConnsFresh(t) by {
      forall c | ConnFresh(s, c)
        ensures ConnFresh(t, c)
      {
      }
    }
  }

  lemma SameFresh(s: Sys, t: Sys)
    requires Fresh(s) && EntriesOk(s.pool) && OrphansOk(s.pool)
    requires t.pool == s.pool && t.rec == s.rec && t.origin == s.origin && t.tasks == s.tasks && s.clock <= t.clock
    ensures Fresh(t)
  {
  }

  lemma LookUpTailFresh(u: Sys, t: Sys, cfg: PoolConfig, key: Key, now: Time, sp: SpawnId)
    requires Fresh(u) && Shape(u) && sp !in u.tasks && key !in u.pool.entries && u.clock <= t.clock
    requires var r := RetireSuperseded(u.pool, key);
             var d := Decide(r.pool, cfg, key, now, u.dead, sp);
             && t.pool == d.pool && t.rec == u.rec && t.origin == u.origin
             && t.tasks == (if d.outcome.Started? then u.tasks[sp := Task(key, Starting)] else u.tasks)
    ensures Fresh(t)
  {
    var v := Take(u, RetireSuperseded(u.pool, key));
    RetireAddsNothing(u, key);
    IdleKeepsFresh(u, v);
    hide Fresh, Shape, RetireSuperseded, Decide;
    DecideFresh(v, t, cfg, key, now, sp);
  }

  lemma LookUpKeepsFresh(s: Sys, cfg: PoolConfig, c: CallerId, me: Caller, now: Time, sp: SpawnId)
    requires Fresh(s) && Shape(s) && me.Trying? && sp !in s.tasks && now > s.clock
    ensures Fresh(LookUpStep(s, cfg, c, me, now, sp).(clock := now))
  {
    PoolOfShape(s);
    hide Fresh, Shape, EntriesOk, OrphansOk, DropUnusable, RetireSuperseded, Decide, AddsNothing, QueueOn, LookUpStep;
    var t := LookUpStep(s, cfg, c, me, now, sp).(clock := now);
    var d := DropUnusable(s.pool, me.key, now, s.dead);
    var u := Take(s, d);
    LookUpBecomes(s, cfg, c, me, now, sp);
    DropAddsNothing(s, me.key, now);
    IdleKeepsFresh(s, u);
    DropKeepsShape(s, me.key, now);
    if s.pool.closed {
      SameFresh(s, t);
    } else if me.key in d.pool.entries {
      QueueAddsNothing(u, t, d.pool.entries[me.key], now);
      PoolOfShape(u);
      IdleKeepsFresh(u, t);
    } else {
      LookUpTailFresh(u, t, cfg, me.key, now, sp);
    }
  }

  lemma QueueAddsNothing(s: Sys, t: Sys, c: ConnId, now: Time)
    requires t.pool == QueueOn(s.pool, c, now) && t.rec == s.rec && t.origin == s.origin && t.tasks == s.tasks && s.clock <= t.clock
    ensures AddsNothing(s, t) && SameSpawns(s, t)
  {
  }

  // ---- Spawns ----

  predicate QuietSpawn(a: SpawnAction) { a.FactoryFails? || a.ConnectFails? || a.GiveBackReservation? || a.End? }

  predicate SpawnFresh(s: Sys, sp: SpawnId)
    requires sp in s.tasks
  {
    && StampOk(s, sp)
    && (Building(s, sp) ==> Allowed(s.rec, s.tasks[sp].key.server, DefOf(s, sp), SpawnRow(s.pool, sp).built))
  }

  lemma SpawnMoveOthers(s: Sys, cfg: PoolConfig, sp: SpawnId, a: SpawnAction, later: Time)
    requires SpawnsFresh(s) && TasksOk(s) && SpawnEnabled(s, sp, a) && s.clock <= later
    requires SpawnFresh(SpawnMove(s, cfg, sp, a).(clock := later), sp)
    ensures SpawnsFresh(SpawnMove(s, cfg, sp, a).(clock := later))
  {
    var t := SpawnMove(s, cfg, sp, a).(clock := later);
    forall sq | sq in t.tasks
      ensures SpawnFresh(t, sq)
    {
      if sq != sp {
        assert TaskOk(s, sq) && SpawnFresh(s, sq);
        OtherSpawn(s, cfg, sp, a, later, sq);
      }
    }
    hide SpawnMove;
  }

  lemma SpawnMoveFrame(s: Sys, cfg: PoolConfig, sp: SpawnId, a: SpawnAction, sq: SpawnId)
    requires SpawnEnabled(s, sp, a) && sq in s.tasks && sq != sp
    ensures var t := SpawnMove(s, cfg, sp, a);
            && sq in t.tasks && t.tasks[sq] == s.tasks[sq] && SpawnRow(t.pool, sq) == SpawnRow(s.pool, sq)
            && t.rec == s.rec && forall c :: c in s.origin ==> c in t.origin && t.origin[c] == s.origin[c]
  {
    hide LandStep;
    if a.Land? {
      LandFrame(s, cfg, sp, a.now, a.expiry, sq);
    }
  }

  lemma LandFrame(s: Sys, cfg: PoolConfig, sp: SpawnId, now: Time, expiry: Option<Time>, sq: SpawnId)
    requires sp in s.tasks && s.tasks[sp].phase.Opened? && sq in s.tasks && sq != sp
    ensures var t := LandStep(s, cfg, sp, now, expiry);
            && sq in t.tasks && t.tasks[sq] == s.tasks[sq] && SpawnRow(t.pool, sq) == SpawnRow(s.pool, sq)
            && t.rec == s.rec && t.origin == s.origin
  {
    hide Deadline;
  }

  lemma OtherSpawn(s: Sys, cfg: PoolConfig, sp: SpawnId, a: SpawnAction, later: Time, sq: SpawnId)
    requires SpawnEnabled(s, sp, a) && sq in s.tasks && sq != sp && TaskOk(s, sq) && SpawnFresh(s, sq) && s.clock <= later
    ensures var t := SpawnMove(s, cfg, sp, a).(clock := later); sq in t.tasks && SpawnFresh(t, sq)
  {
    SpawnMoveFrame(s, cfg, sp, a, sq);
    hide Allowed, SpawnMove, SpawnRow;
  }

  lemma FinishedSpawn(s: Sys, cfg: PoolConfig, sp: SpawnId, a: SpawnAction, later: Time)
    requires SpawnEnabled(s, sp, a) && (QuietSpawn(a) || a.Land?) && StampOk(s, sp) && s.clock <= later
    ensures SpawnFresh(SpawnMove(s, cfg, sp, a).(clock := later), sp)
  {
    hide Allowed, Deadline;
  }

  lemma OwnSpawn(s: Sys, cfg: PoolConfig, sp: SpawnId, a: SpawnAction, later: Time)
    requires RecOk(s.rec, s.clock) && s.clock >= 0 && SpawnEnabled(s, sp, a) && SpawnFresh(s, sp) && TaskOk(s, sp)
    requires s.clock <= later && (a.FactoryReturns? ==> later == a.now)
    requires sp in s.pool.spawns
    ensures SpawnFresh(SpawnMove(s, cfg, sp, a).(clock := later), sp)
  {
    assert StampOk(s, sp);
    hide Allowed, RecOk, LandStep, SpawnMove, SpawnFresh;
    if QuietSpawn(a) || a.Land? {
      FinishedSpawn(s, cfg, sp, a, later);
    } else if a.FactoryReturns? {
      ReturningSpawn(s, cfg, sp, later);
    } else {
      BuildingSpawn(s, cfg, sp, a, later);
    }
  }

  lemma ReturningSpawn(s: Sys, cfg: PoolConfig, sp: SpawnId, now: Time)
    requires RecOk(s.rec, s.clock) && s.clock >= 0 && SpawnEnabled(s, sp, FactoryReturns(now)) && SpawnFresh(s, sp)
    requires sp in s.pool.spawns
    ensures SpawnFresh(SpawnMove(s, cfg, sp, FactoryReturns(now)).(clock := now), sp)
  {
  }

  lemma BuildingSpawn(s: Sys, cfg: PoolConfig, sp: SpawnId, a: SpawnAction, later: Time)
    requires RecOk(s.rec, s.clock) && s.clock >= 0 && SpawnEnabled(s, sp, a) && SpawnFresh(s, sp)
    requires sp in s.pool.spawns && s.clock <= later && (a.FactoryReads? || a.ConnectReturns?)
    ensures SpawnFresh(SpawnMove(s, cfg, sp, a).(clock := later), sp)
  {
  }

  lemma SpawnAddsNothing(s: Sys, cfg: PoolConfig, sp: SpawnId, a: SpawnAction, later: Time)
    requires SpawnEnabled(s, sp, a) && !a.Land? && !a.ConnectReturns? && s.clock <= later
    ensures AddsNothing(s, SpawnMove(s, cfg, sp, a).(clock := later))
  {
  }

  lemma ConnectConns(s: Sys, sp: SpawnId, c: ConnId)
    requires ConnsFresh(s) && sp in s.tasks && s.tasks[sp].phase.Connecting? && c !in s.origin
    ensures ConnsFresh(ConnectStep(s, sp, c))
  {
  }

  lemma LandConns(s: Sys, cfg: PoolConfig, sp: SpawnId, now: Time, expiry: Option<Time>)
    requires ConnsFresh(s) && EntriesOk(s.pool) && OrphansOk(s.pool) && s.clock < now
    requires sp in s.tasks && s.tasks[sp].phase.Opened? && TaskOk(s, sp) && SpawnFresh(s, sp)
    ensures ConnsFresh(LandStep(s, cfg, sp, now, expiry).(clock := now))
  {
    var t := LandStep(s, cfg, sp, now, expiry).(clock := now);
    forall c | ConnFresh(s, c) && c in s.pool.table
      ensures ConnFresh(t, c)
    {
      hide Allowed, Deadline;
    }
    hide Allowed, Deadline, Distinct;
  }

  lemma SpawnMoveConns(s: Sys, cfg: PoolConfig, sp: SpawnId, a: SpawnAction, later: Time)
    requires ConnsFresh(s) && EntriesOk(s.pool) && OrphansOk(s.pool) && SpawnEnabled(s, sp, a)
    requires TaskOk(s, sp) && SpawnFresh(s, sp) && s.clock <= later && (a.Land? ==> later == a.now)
    ensures ConnsFresh(SpawnMove(s, cfg, sp, a).(clock := later))
  {
    hide ConnsFresh, EntriesOk, OrphansOk, AddsNothing, TaskOk, LandStep, ConnectStep, SpawnFresh;
    if a.Land? {
      LandConns(s, cfg, sp, a.now, a.expiry);
    } else if a.ConnectReturns? {
      ConnectConns(s, sp, a.newConn);
      ClockConns(ConnectStep(s, sp, a.newConn), later) by { ConnectClock(s, sp, a.newConn); }
    } else {
      SpawnAddsNothing(s, cfg, sp, a, later);
      hide SpawnMove;
      AddsNothingConns(s, SpawnMove(s, cfg, sp, a).(clock := later));
    }
  }

  lemma ConnectClock(s: Sys, sp: SpawnId, c: ConnId)
    requires sp in s.tasks && s.tasks[sp].phase.Connecting?
    ensures ConnectStep(s, sp, c).clock == s.clock
  {
  }

  lemma ClockConns(s: Sys, later: Time)
    requires ConnsFresh(s) && s.clock <= later
    ensures ConnsFresh(s.(clock := later))
  {
  }

  lemma SpawnKeepsFresh(s: Sys, cfg: PoolConfig, sp: SpawnId, a: SpawnAction, later: Time)
    requires Fresh(s) && Shape(s) && SpawnEnabled(s, sp, a) && s.clock <= later
    requires a.FactoryReturns? ==> later == a.now
    requires a.Land? ==> later == a.now
    ensures Fresh(SpawnMove(s, cfg, sp, a).(clock := later))
  {
    assert TaskOk(s, sp) && SpawnFresh(s, sp);
    PoolOfShape(s);
    OwnSpawn(s, cfg, sp, a, later);
    SpawnMoveOthers(s, cfg, sp, a, later);
    SpawnMoveConns(s, cfg, sp, a, later);
    RecLater(s.rec, s.clock, later);
    SpawnMoveRec(s, cfg, sp, a);
    hide SpawnsFresh, ConnsFresh, RecOk, SpawnMove, Shape, EntriesOk, OrphansOk, SpawnFresh, TaskOk;
  }

  lemma SpawnMoveRec(s: Sys, cfg: PoolConfig, sp: SpawnId, a: SpawnAction)
    requires SpawnEnabled(s, sp, a)
    ensures SpawnMove(s, cfg, sp, a).rec == s.rec
  {
  }

  // ---- Every action ----

  lemma PoolAddsNothing(s: Sys, cfg: PoolConfig, a: PoolAction)
    ensures AddsNothing(s, PoolMove(s, cfg, a)) && SameSpawns(s, PoolMove(s, cfg, a))
  {
    match a
    case Die(_) =>
    case Reap(now) => ReapAddsNothing(s, cfg, now);
    case Shutdown =>
  }

  lemma ReapAddsNothing(s: Sys, cfg: PoolConfig, now: Time)
    ensures AddsNothing(s, PoolMove(s, cfg, PoolAction.Reap(now))) && SameSpawns(s, PoolMove(s, cfg, PoolAction.Reap(now)))
  {
    hide Reapable, Drained;
  }

  lemma EvictKeepsFresh(s: Sys, server: string)
    requires Fresh(s) && Shape(s) && s.rec.progress.Evicting? && server in s.rec.progress.owed.servers
    ensures Fresh(ApplyMove(s, EvictOne(server)))
  {
    PoolOfShape(s);
    EvictKeepsConns(s, server);
    EvictKeepsSpawns(s, server);
    hide SpawnsFresh, ConnsFresh, Shape, EntriesOk, OrphansOk;
  }

  lemma FreshStep(s: Sys, cfg: PoolConfig, a: Action)
    requires Fresh(s) && Shape(s) && Enabled(s, cfg, a)
    ensures Fresh(Step(s, cfg, a))
  {
    hide Fresh, Shape, CallerMove, SpawnMove, PoolMove, ApplyMove, AddsNothing, SameSpawns, EntriesOk, OrphansOk;
    PoolOfShape(s);
    match a
    case ByCaller(c, call) =>
      if call.LookUp? {
        LookUpKeepsFresh(s, cfg, c, s.callers[c], call.now, call.newSpawn);
        assert Step(s, cfg, a) == LookUpStep(s, cfg, c, s.callers[c], call.now, call.newSpawn).(clock := call.now) by {
          CallerMoveLookUp(s, cfg, c, call);
        }
      } else {
        CallerAddsNothing(s, cfg, c, call);
        LaterAddsNothing(s, CallerMove(s, cfg, c, call), Clock(s, a));
        IdleKeepsFresh(s, CallerMove(s, cfg, c, call).(clock := Clock(s, a)));
      }
    case BySpawn(sp, work) => SpawnKeepsFresh(s, cfg, sp, work, Clock(s, a));
    case ByPool(p) =>
      PoolAddsNothing(s, cfg, p);
      IdleKeepsFresh(s, PoolMove(s, cfg, p));
      SameClock(s, cfg, p);
    case ByApply(ap) =>
      if ap.EvictOne? {
        EvictKeepsFresh(s, ap.server);
        EvictClock(s, ap);
      } else {
        ApplyKeepsFresh(s, ap);
      }
  }

  lemma CallerMoveLookUp(s: Sys, cfg: PoolConfig, c: CallerId, a: CallerAction)
    requires CallerEnabled(s, cfg, c, a) && a.LookUp?
    ensures CallerMove(s, cfg, c, a) == LookUpStep(s, cfg, c, s.callers[c], a.now, a.newSpawn)
  {
  }

  lemma SameClock(s: Sys, cfg: PoolConfig, a: PoolAction)
    ensures PoolMove(s, cfg, a).clock == s.clock
  {
  }

  lemma EvictClock(s: Sys, a: ApplyAction)
    requires ApplyEnabled(s, a)
    ensures ApplyMove(s, a).clock == s.clock
  {
  }
}
