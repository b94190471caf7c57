/** The times a run's goroutines read off the clock, and that each entry's fields are those times. */
module GatewayHistory {
  import opened Common
  import opened PoolModel
  import opened GatewaySystem
  import opened GatewayShape
  import opened GatewayTheorems
  import R = ReconcileModel

  /** When a spawn landed a connection, and the expiry of the credentials it was built with. */
  datatype Arrival = Arrival(now: Time, expiry: Option<Time>)

  /** When each factory returned, when each connection landed, and when a caller last came to it or left it. */
  datatype Log = Log(returned: map<SpawnId, Time>, landed: map<ConnId, Arrival>, used: map<ConnId, Time>)

  /** The entry that the caller came to queue on in this step, or finished its call on. */
  function Visited(s: Sys, t: Sys, p: CallerId): Option<ConnId> {
    if !(p in s.callers && p in t.callers) then None
    else if t.callers[p].Queueing? && !s.callers[p].Queueing? then Some(t.callers[p].conn)
    else if s.callers[p].Freed? && !t.callers[p].Freed? then Some(s.callers[p].conn)
    else None
  }

  /** What one step adds to the log. */
  function Note(log: Log, s: Sys, a: Action, t: Sys): Log {
    match a
    case BySpawn(sp, FactoryReturns(now)) => log.(returned := log.returned[sp := now])
    case BySpawn(sp, Land(now, expiry)) =>
      if sp in s.tasks && s.tasks[sp].phase.Opened? then
        var c := s.tasks[sp].phase.conn;
        log.(landed := log.landed[c := Arrival(now, expiry)], used := log.used[c := now])
      else log
    case ByCaller(p, _) =>
      if Visited(s, t, p).Some? then log.(used := log.used[Visited(s, t, p).value := t.clock]) else log
    case _ => log
  }

  function History(cfg: PoolConfig, acts: seq<Action>): Log {
    if acts == [] || Run(cfg, acts).None? then Log(map[], map[], map[])
    else
      var front := acts[..|acts| - 1];
      Note(History(cfg, front), Run(cfg, front).value, acts[|acts| - 1], Run(cfg, acts).value)
  }

  function ReturnedAt(log: Log, sp: SpawnId): Time { if sp in log.returned then log.returned[sp] else ZERO_TIME }

  /** When the definition that c was built from had been read. */
  function DefinedAt(log: Log, s: Sys, c: ConnId): Time {
    if c in s.origin then ReturnedAt(log, s.origin[c].spawn) else ZERO_TIME
  }

  predicate RowTold(s: Sys, cfg: PoolConfig, log: Log, c: ConnId)
    requires c in s.pool.table
  {
    var row := s.pool.table[c];
    && c in log.landed && c in log.used && c in s.origin
    && row.defined == DefinedAt(log, s, c) && row.born == log.landed[c].now
    && row.deadline == Deadline(cfg, log.landed[c].now, log.landed[c].expiry) && row.lastUsed == log.used[c]
  }

  ghost predicate SpawnsTold(s: Sys, log: Log) {
    && log.returned.Keys <= s.tasks.Keys
    && forall sp :: sp in s.tasks ==> SpawnRow(s.pool, sp).built == ReturnedAt(log, sp)
  }

  ghost predicate RowsTold(s: Sys, cfg: PoolConfig, log: Log) {
    forall c :: c in s.pool.table ==> RowTold(s, cfg, log, c)
  }

  predicate Early(ph: Phase) { ph.Starting? || ph.Read? }

  /** What opened a connection had its factory return before. */
  ghost predicate OriginsPast(s: Sys) {
    forall c :: c in s.origin ==> s.origin[c].spawn in s.tasks && !Early(s.tasks[s.origin[c].spawn].phase)
  }

  ghost predicate Told(s: Sys, cfg: PoolConfig, log: Log) { SpawnsTold(s, log) && RowsTold(s, cfg, log) && OriginsPast(s) }

  // ---- One step ----

  predicate SameButUse(e: Entry, f: Entry) {
    f == e.(inflight := f.inflight, waiters := f.waiters, slots := f.slots, lastUsed := f.lastUsed)
  }

  /** A step that files no entry and stamps no spawn; only the entry that was visited is used. */
  ghost predicate Touches(s: Sys, t: Sys, visited: Option<ConnId>, now: Time) {
    && t.pool.table.Keys == s.pool.table.Keys && s.tasks.Keys <= t.tasks.Keys
    && (forall c :: c in s.origin ==> c in t.origin && t.origin[c] == s.origin[c])
    && (forall c :: c in t.origin && c !in s.origin ==> t.origin[c].spawn in t.tasks && !Early(t.tasks[t.origin[c].spawn].phase))
    && (forall sp :: sp in s.tasks ==> sp in t.tasks && (Early(t.tasks[sp].phase) ==> Early(s.tasks[sp].phase)))
    && (forall c :: c in s.pool.table ==>
          SameButUse(s.pool.table[c], t.pool.table[c])
          && t.pool.table[c].lastUsed == if visited == Some(c) then now else s.pool.table[c].lastUsed)
    && (forall sp :: sp in t.tasks ==>
          SpawnRow(t.pool, sp).built == if sp in s.tasks then SpawnRow(s.pool, sp).built else ZERO_TIME)
  }

  function Use(log: Log, visited: Option<ConnId>, now: Time): Log {
    if visited.Some? then log.(used := log.used[visited.value := now]) else log
  }

  lemma TouchTold(s: Sys, t: Sys, cfg: PoolConfig, log: Log, visited: Option<ConnId>, now: Time)
    requires Told(s, cfg, log) && Touches(s, t, visited, now)
    ensures Told(t, cfg, Use(log, visited, now))
  {
    forall c | c in t.pool.table
      ensures RowTold(t, cfg, Use(log, visited, now), c)
    {
      assert RowTold(s, cfg, log, c);
    }
    hide Deadline;
  }

  // ---- Callers ----

  /** A step of a caller that changes one row, or none. */
  lemma RowTouches(s: Sys, t: Sys, conn: ConnId, e: Entry, now: Time)
    requires conn in s.pool.table && SameButUse(s.pool.table[conn], e)
    requires t.pool == SetRow(s.pool, conn, e) && t.tasks == s.tasks && t.origin == s.origin
    requires s.pool.spawns.Keys == s.tasks.Keys
    ensures Touches(s, t, Some(conn), e.lastUsed)
    ensures e.lastUsed == s.pool.table[conn].lastUsed ==> Touches(s, t, None, now)
  {
  }

  lemma NothingTouches(s: Sys, t: Sys, now: Time)
    requires s.pool.spawns.Keys == s.tasks.Keys
    requires t.pool.table == s.pool.table && t.pool.spawns == s.pool.spawns && t.tasks == s.tasks && t.origin == s.origin
    ensures Touches(s, t, None, now)
  {
  }

  lemma LookUpTouches(s: Sys, cfg: PoolConfig, c: CallerId, now: Time, sp: SpawnId)
    requires Shape(s) && CallerEnabled(s, cfg, c, LookUp(now, sp))
    ensures var t := LookUpStep(s, cfg, c, s.callers[c], now, sp).(clock := now); Touches(s, t, Visited(s, t, c), now)
  {
    var me := s.callers[c];
    var l := Lookup(s.pool, cfg, me.key, now, s.dead, sp);
    var t := LookUpStep(s, cfg, c, me, now, sp).(clock := now);
    LookupRows(s.pool, cfg, me.key, now, s.dead, sp);
    SpawnKeys(s);
    LookUpLeaves(s, cfg, c, me, now, sp);
    if l.outcome.Queued? {
      QueuedEntry(s, cfg, me.key, now, sp);
      var row := Row(s.pool, l.outcome.conn).(lastUsed := now, waiters := Row(s.pool, l.outcome.conn).waiters + 1);
      var u := s.(pool := SetRow(s.pool, l.outcome.conn, row));
      RowTouches(s, u, l.outcome.conn, row, now);
      SameTouches(s, u, t, Some(l.outcome.conn), now) by { hide Lookup, LookUpStep, Touches, Shape; }
    } else if l.outcome.Started? {
      StartTouches(s, t, me.key, sp, now) by { hide Lookup, LookUpStep, Shape; }
    } else {
      NothingTouches(s, t, now) by { hide Lookup, LookUpStep, Shape; }
    }
    hide Lookup, LookUpStep, Touches, Shape;
  }

  lemma LookUpLeaves(s: Sys, cfg: PoolConfig, c: CallerId, me: Caller, now: Time, sp: SpawnId)
    requires me.Trying?
    ensures var t := LookUpStep(s, cfg, c, me, now, sp); var l := Lookup(s.pool, cfg, me.key, now, s.dead, sp);
            && t.pool == l.pool && t.origin == s.origin && c in t.callers
            && t.tasks == (if l.outcome.Started? then s.tasks[l.outcome.spawn := Task(me.key, Starting)] else s.tasks)
            && (t.callers[c].Queueing? <==> l.outcome.Queued?)
            && (l.outcome.Queued? ==> t.callers[c].conn == l.outcome.conn)
  {
    hide Lookup;
  }

  lemma SpawnKeys(s: Sys)
    requires Shape(s)
    ensures s.pool.spawns.Keys == s.tasks.Keys
  {
  }

  lemma SameTouches(s: Sys, u: Sys, t: Sys, visited: Option<ConnId>, now: Time)
    requires Touches(s, u, visited, now)
    requires t.pool.table == u.pool.table && t.pool.spawns == u.pool.spawns && t.tasks == u.tasks && t.origin == u.origin
    ensures Touches(s, t, visited, now)
  {
  }

  lemma StartTouches(s: Sys, t: Sys, key: Key, sp: SpawnId, now: Time)
    requires t.pool.table == s.pool.table && t.pool.spawns == s.pool.spawns[sp := Spawn(key, false, ZERO_TIME)]
    requires sp !in s.tasks && t.tasks == s.tasks[sp := Task(key, Starting)] && t.origin == s.origin
    ensures Touches(s, t, None, now)
  {
  }

  lemma QueuedEntry(s: Sys, cfg: PoolConfig, key: Key, now: Time, sp: SpawnId)
    requires Shape(s)
    ensures var l := Lookup(s.pool, cfg, key, now, s.dead, sp);
            l.outcome.Queued? ==>
              l.outcome.conn in s.pool.table && l.pool.table == QueueOn(s.pool, l.outcome.conn, now).table
  {
    hide Decide, RetireSuperseded;
    DecideStarting(RetireSuperseded(DropUnusable(s.pool, key, now, s.dead).pool, key).pool, cfg, key, now, s.dead, sp);
  }

  /** A lookup changes the row it queues on and adds the spawn it starts. */
  lemma LookupRows(p: Pool, cfg: PoolConfig, key: Key, now: Time, dead: set<ConnId>, sp: SpawnId)
    ensures var l := Lookup(p, cfg, key, now, dead, sp);
            && (!l.outcome.Queued? ==> l.pool.table == p.table) && (l.outcome.Started? ==> l.outcome.spawn == sp)
            && l.pool.spawns == if l.outcome.Started? then p.spawns[sp := Spawn(key, false, ZERO_TIME)] else p.spawns
  {
    hide TenantCount, DropUnusable;
  }

  lemma CallerTouches(s: Sys, cfg: PoolConfig, c: CallerId, a: CallerAction, clock: Time)
    requires Shape(s) && CallerEnabled(s, cfg, c, a) && clock == Clock(s, ByCaller(c, a))
    ensures var t := CallerMove(s, cfg, c, a).(clock := clock); Touches(s, t, Visited(s, t, c), clock)
  {
    assert c in s.callers ==> CallerOk(s, s.callers[c]);
    SpawnKeys(s);
    var t := CallerMove(s, cfg, c, a).(clock := clock);
    hide Shape, LookUpStep, WakeStep, Touches, Unusable;
    if a.LookUp? {
      LookUpTouches(s, cfg, c, a.now, a.newSpawn);
    } else if a.Wake? {
      WakeTouches(s, c, s.callers[c], a.now);
    } else if c in s.callers && AtEntry(s.callers[c]) {
      var conn := s.callers[c].conn;
      RowTouches(s, t, conn, Row(t.pool, conn), clock);
    } else {
      NothingTouches(s, t, clock);
    }
  }

  lemma WakeTouches(s: Sys, c: CallerId, me: Caller, now: Time)
    requires EntriesOk(s.pool) && Wakeable(s, me) && c in s.callers && s.callers[c] == me && s.pool.spawns.Keys == s.tasks.Keys
    ensures var t := WakeStep(s, c, me, now).(clock := now); Touches(s, t, Visited(s, t, c), now)
  {
    var t := WakeStep(s, c, me, now).(clock := now);
    if t.callers[c].Queueing? {
      var conn := t.callers[c].conn;
      RowTouches(s, t, conn, Row(t.pool, conn), now);
    } else {
      NothingTouches(s, t, now);
    }
    hide Touches;
  }

  // ---- Spawns ----

  lemma LandTold(s: Sys, cfg: PoolConfig, log: Log, sp: SpawnId, now: Time, expiry: Option<Time>)
    requires Told(s, cfg, log) && sp in s.tasks && s.tasks[sp].phase.Opened? && TaskOk(s, sp)
    ensures var c := s.tasks[sp].phase.conn;
            Told(LandStep(s, cfg, sp, now, expiry), cfg,
                 log.(landed := log.landed[c := Arrival(now, expiry)], used := log.used[c := now]))
  {
    var conn := s.tasks[sp].phase.conn;
    var t := LandStep(s, cfg, sp, now, expiry);
    var log' := log.(landed := log.landed[conn := Arrival(now, expiry)], used := log.used[conn := now]);
    hide Deadline;
    forall c | c in t.pool.table
      ensures RowTold(t, cfg, log', c)
    {
      if c != conn {
        assert RowTold(s, cfg, log, c);
      }
    }
  }

  lemma SpawnTouches(s: Sys, cfg: PoolConfig, sp: SpawnId, a: SpawnAction)
    requires SpawnEnabled(s, sp, a) && !a.Land? && !a.FactoryReturns?
    ensures Touches(s, SpawnMove(s, cfg, sp, a), None, ZERO_TIME)
  {
  }

  lemma SpawnTold(s: Sys, cfg: PoolConfig, log: Log, sp: SpawnId, a: SpawnAction)
    requires Told(s, cfg, log) && Shape(s) && SpawnEnabled(s, sp, a)
    ensures Told(SpawnMove(s, cfg, sp, a), cfg, Note(log, s, BySpawn(sp, a), SpawnMove(s, cfg, sp, a)))
  {
    assert TaskOk(s, sp) && sp in s.pool.spawns;
    hide Shape;
    if a.Land? {
      hide LandStep;
      LandTold(s, cfg, log, sp, a.now, a.expiry);
    } else if a.FactoryReturns? {
      ReturnTold(s, cfg, log, sp, a.now);
    } else {
      SpawnTouches(s, cfg, sp, a);
      hide Told, SpawnMove;
      TouchTold(s, SpawnMove(s, cfg, sp, a), cfg, log, None, ZERO_TIME);
    }
  }

  lemma ReturnTold(s: Sys, cfg: PoolConfig, log: Log, sp: SpawnId, now: Time)
    requires Told(s, cfg, log) && Shape(s) && SpawnEnabled(s, sp, FactoryReturns(now))
    ensures Told(SpawnMove(s, cfg, sp, FactoryReturns(now)), cfg, log.(returned := log.returned[sp := now]))
  {
  }

  // ---- Runs ----

  lemma PoolTouches(s: Sys, cfg: PoolConfig, a: PoolAction)
    requires Shape(s)
    ensures Touches(s, PoolMove(s, cfg, a), None, ZERO_TIME)
  {
    hide Shape, Touches, PoolModel.Reap;
    SpawnKeys(s);
    PoolLeaves(s, cfg, a);
    NothingTouches(s, PoolMove(s, cfg, a), ZERO_TIME);
  }

  lemma PoolLeaves(s: Sys, cfg: PoolConfig, a: PoolAction)
    ensures var t := PoolMove(s, cfg, a);
            t.pool.table == s.pool.table && t.pool.spawns == s.pool.spawns && t.tasks == s.tasks && t.origin == s.origin
  {
    hide PoolModel.Reap;
  }

  lemma EvictKeepsTimes(p: Pool, server: string, since: Time)
    ensures var q := Evict(p, server, since).pool;
            q.table == p.table && forall sp :: sp in p.spawns ==> SpawnRow(q, sp).built == SpawnRow(p, sp).built
  {
  }

  lemma EvictTouches(s: Sys, t: Sys, server: string, since: Time)
    requires s.pool.spawns.Keys == s.tasks.Keys && t.pool == Evict(s.pool, server, since).pool
    requires t.origin == s.origin && t.tasks == s.tasks
    ensures Touches(s, t, None, ZERO_TIME)
  {
    EvictKeepsTimes(s.pool, server, since);
    hide Evict;
  }

  lemma ApplyTouches(s: Sys, a: ApplyAction)
    requires Shape(s) && ApplyEnabled(s, a)
    ensures Touches(s, ApplyMove(s, a), None, ZERO_TIME)
  {
    SpawnKeys(s);
    hide Shape, Evict, R.Begin, R.Publish, R.Refuse, R.Accept, R.Evicted;
    var t := ApplyMove(s, a);
    if a.EvictOne? {
      hide Touches;
      EvictTouches(s, t, a.server, s.rec.progress.owed.since);
    } else {
      hide ApplyEnabled;
      assert t.pool == s.pool && t.origin == s.origin && t.tasks == s.tasks;
    }
  }

  lemma ClockTold(s: Sys, cfg: PoolConfig, log: Log, clock: Time)
    requires Told(s, cfg, log)
    ensures Told(s.(clock := clock), cfg, log)
  {
  }

  lemma StepTold(s: Sys, cfg: PoolConfig, log: Log, a: Action)
    requires Told(s, cfg, log) && Shape(s) && Enabled(s, cfg, a)
    ensures Told(Step(s, cfg, a), cfg, Note(log, s, a, Step(s, cfg, a)))
  {
    hide CallerMove, SpawnMove, PoolMove, ApplyMove, CallerEnabled, SpawnEnabled, PoolEnabled, ApplyEnabled, Shape, Told, Touches;
    var t := Step(s, cfg, a);
    match a
    case ByCaller(c, call) =>
      CallerTouches(s, cfg, c, call, t.clock);
      TouchTold(s, t, cfg, log, Visited(s, t, c), t.clock);
    case BySpawn(sp, work) =>
      SpawnTold(s, cfg, log, sp, work);
      ClockTold(SpawnMove(s, cfg, sp, work), cfg, Note(log, s, a, SpawnMove(s, cfg, sp, work)), t.clock);
    case ByPool(p) =>
      PoolTouches(s, cfg, p);
      TouchTold(s, PoolMove(s, cfg, p), cfg, log, None, ZERO_TIME);
      ClockTold(PoolMove(s, cfg, p), cfg, log, t.clock);
    case ByApply(ap) =>
      ApplyTouches(s, ap);
      TouchTold(s, ApplyMove(s, ap), cfg, log, None, ZERO_TIME);
      ClockTold(ApplyMove(s, ap), cfg, log, t.clock);
  }

  lemma RunSplit(cfg: PoolConfig, acts: seq<Action>, a: Action)
    requires Run(cfg, acts + [a]).Some?
    ensures Run(cfg, acts).Some? && Enabled(Run(cfg, acts).value, cfg, a)
    ensures Run(cfg, acts + [a]).value == Step(Run(cfg, acts).value, cfg, a)
  {
    assert (acts + [a])[..|acts|] == acts;
  }

  lemma {:induction false} RunTold(cfg: PoolConfig, acts: seq<Action>)
    requires Filled(cfg) && Run(cfg, acts).Some?
    ensures Told(Run(cfg, acts).value, cfg, History(cfg, acts))
  {
    if acts != [] {
      var front, a := acts[..|acts| - 1], acts[|acts| - 1];
      RunTold(cfg, front);
      RunInv(cfg, front);
      hide Told, Shape, Step, Enabled, Note;
      StepTold(Run(cfg, front).value, cfg, History(cfg, front), a);
    }
  }

  /** The fields of an entry are the times of its own life: nothing else it is judged by was ever written to them. */
  lemma FieldsAreTimes(cfg: PoolConfig, acts: seq<Action>, c: ConnId)
    requires Filled(cfg) && Run(cfg, acts).Some? && c in Run(cfg, acts).value.pool.table
    ensures var s := Run(cfg, acts).value; var log := History(cfg, acts); var row := s.pool.table[c];
            && c in s.origin && c in log.landed && c in log.used
            && row.defined == ReturnedAt(log, s.origin[c].spawn) && row.born == log.landed[c].now
            && row.deadline == Deadline(cfg, log.landed[c].now, log.landed[c].expiry) && row.lastUsed == log.used[c]
  {
    RunTold(cfg, acts);
    assert RowTold(Run(cfg, acts).value, cfg, History(cfg, acts), c);
    hide Run, History, Deadline;
  }

  /** A spawn is stamped when its factory returns, and not before. */
  lemma StampIsReturn(cfg: PoolConfig, acts: seq<Action>, sp: SpawnId)
    requires Filled(cfg) && Run(cfg, acts).Some? && sp in Run(cfg, acts).value.tasks
    ensures SpawnRow(Run(cfg, acts).value.pool, sp).built == ReturnedAt(History(cfg, acts), sp)
  {
    RunTold(cfg, acts);
    hide Run, History;
  }
}
