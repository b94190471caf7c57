/** How the maps, the orphan list, the spawns and the callers agree with one another in every state. */
module GatewayShape {
  import opened Common
  import opened PoolModel
  import opened GatewaySystem
  import R = ReconcileModel

  /** The spawn still owes the pool an entry or an error, so nothing else may be mapped at its key. */
  predicate Unlanded(ph: Phase) {
    ph.Starting? || ph.Read? || ph.Connecting? || ph.Opened? || ph.Failing?
  }

  predicate LandedAt(ph: Phase) { (ph.Returning? || ph.Ended?) && ph.result.Landed? }

  ghost predicate EntriesOk(p: Pool) {
    forall k :: k in p.entries ==> p.entries[k] in p.table && p.table[p.entries[k]].key == k
  }

  ghost predicate OrphansOk(p: Pool) {
    Distinct(p.orphans) && forall c :: c in p.orphans ==> c in p.table && !Mapped(p, c)
  }

  predicate TaskOk(s: Sys, sp: SpawnId)
    requires sp in s.tasks
  {
    var ph, key := s.tasks[sp].phase, s.tasks[sp].key;
    && SpawnRow(s.pool, sp).key == key
    && (!ph.Ended? ==> key in s.pool.spawning && s.pool.spawning[key] == sp)
    && (Unlanded(ph) ==> key !in s.pool.entries)
    && (LandedAt(ph) ==> ph.result.conn in s.pool.table && Row(s.pool, ph.result.conn).key == key)
    && (ph.Opened? ==> ph.conn in s.origin && s.origin[ph.conn].spawn == sp && ph.conn !in s.pool.table && ph.conn !in s.handed)
  }

  ghost predicate TasksOk(s: Sys) {
    s.pool.spawns.Keys == s.tasks.Keys && forall sp :: sp in s.tasks ==> TaskOk(s, sp)
  }

  ghost predicate SpawningOk(s: Sys) {
    forall k :: k in s.pool.spawning ==>
      s.pool.spawning[k] in s.tasks && s.tasks[s.pool.spawning[k]].key == k
      && !s.tasks[s.pool.spawning[k]].phase.Ended?
  }

  predicate AtEntry(ph: Caller) {
    ph.Queueing? || ph.Slotted? || ph.HandingBack? || ph.Calling? || ph.Freed?
  }

  predicate CallerOk(s: Sys, ph: Caller) {
    && (ph.Awaiting? ==> ph.spawn in s.tasks && s.tasks[ph.spawn].key == ph.key)
    && (AtEntry(ph) ==> ph.conn in s.pool.table && Row(s.pool, ph.conn).key == ph.key)
  }

  ghost predicate CallersOk(s: Sys) {
    forall c :: c in s.callers ==> CallerOk(s, s.callers[c])
  }

  ghost predicate ConnsOk(s: Sys) {
    && s.pool.table.Keys + s.dead <= s.origin.Keys
    && forall c :: c in s.handed ==> c in s.origin
  }

  ghost predicate Shape(s: Sys) {
    && EntriesOk(s.pool) && OrphansOk(s.pool) && TasksOk(s) && SpawningOk(s) && CallersOk(s) && ConnsOk(s)
  }

  // ---- Changes that add nothing ----

  ghost predicate Unmaps(p: Pool, q: Pool) {
    && (forall k :: k in q.entries ==> k in p.entries && q.entries[k] == p.entries[k])
    && q.spawning == p.spawning
  }

  ghost predicate SameKeys(p: Pool, q: Pool) {
    && q.table.Keys == p.table.Keys
    && q.spawns.Keys == p.spawns.Keys
    && (forall c :: c in p.table ==> Row(q, c).key == Row(p, c).key)
    && (forall sp :: sp in p.spawns ==> SpawnRow(q, sp).key == SpawnRow(p, sp).key)
  }

  /** Entries may go, rows, flags and counters may change; no entry, row, spawn or key is new. */
  ghost predicate Shrinks(p: Pool, q: Pool) {
    Unmaps(p, q) && SameKeys(p, q) && OrphansOk(q)
  }

  lemma ShrinkKeepsShape(s: Sys, d: Dropped)
    requires Shape(s) && Shrinks(s.pool, d.pool) && d.victims <= s.pool.table.Keys
    ensures Shape(Take(s, d))
  {
  }

  lemma CallerKeepsShape(s: Sys, c: CallerId, ph: Caller)
    requires Shape(s) && CallerOk(s, ph)
    ensures Shape(SetCaller(s, c, ph))
  {
  }

  lemma PhaseKeepsShape(s: Sys, sp: SpawnId, ph: Phase)
    requires Shape(s) && sp in s.tasks && !s.tasks[sp].phase.Ended? && !ph.Ended?
    requires Unlanded(ph) ==> Unlanded(s.tasks[sp].phase)
    requires !LandedAt(ph) && !ph.Opened?
    ensures Shape(SetPhase(s, sp, ph))
  {
  }

  lemma RowShrinks(p: Pool, c: ConnId, e: Entry)
    requires OrphansOk(p) && c in p.table && e.key == Row(p, c).key
    ensures Shrinks(p, SetRow(p, c, e))
  {
  }

  lemma RowKeepsShape(s: Sys, conn: ConnId, e: Entry, c: CallerId, ph: Caller)
    requires Shape(s) && conn in s.pool.table && e.key == Row(s.pool, conn).key && CallerOk(s, ph)
    ensures Shape(SetCaller(s.(pool := SetRow(s.pool, conn, e)), c, ph))
  {
    RowShrinks(s.pool, conn, e);
    var d := Dropped(SetRow(s.pool, conn, e), {});
    ShrinkKeepsShape(s, d);
    assert s.handed + multiset({}) == s.handed;
    CallerKeepsShape(Take(s, d), c, ph);
    hide Shape;
  }

  // ---- Lookup ----

  lemma UnmapShrinks(p: Pool, key: Key)
    requires OrphansOk(p) && key in p.entries
    ensures Shrinks(p, p.(entries := p.entries - {key}))
  {
  }

  lemma OrphanShrinks(p: Pool, key: Key)
    requires EntriesOk(p) && OrphansOk(p) && key in p.entries
    ensures Shrinks(p, p.(entries := p.entries - {key}, orphans := p.orphans + [p.entries[key]]))
  {
    assert Mapped(p, p.entries[key]);
    DistinctAppend(p.orphans, p.entries[key]);
    hide Distinct;
  }

  lemma DropKeepsShape(s: Sys, key: Key, now: Time)
    requires Shape(s)
    ensures Shape(Take(s, DropUnusable(s.pool, key, now, s.dead)))
  {
    if key in s.pool.entries && Unusable(s.pool, s.pool.entries[key], now, s.dead) {
      UnmapShrinks(s.pool, key);
      OrphanShrinks(s.pool, key);
      ShrinkKeepsShape(s, DropUnusable(s.pool, key, now, s.dead));
    } else {
      assert s.handed + multiset({}) == s.handed;
    }
    hide Shape;
  }

  lemma RetireKeepsShape(s: Sys, key: Key)
    requires Shape(s)
    ensures Shape(Take(s, RetireSuperseded(s.pool, key)))
  {
  }

  lemma StartTasks(s: Sys, key: Key, sp: SpawnId)
    requires TasksOk(s) && sp !in s.tasks && key !in s.pool.entries && key !in s.pool.spawning
    ensures TasksOk(StartStep(s, key, sp))
  {
  }

  lemma StartRest(s: Sys, key: Key, sp: SpawnId)
    requires SpawningOk(s) && CallersOk(s) && ConnsOk(s) && sp !in s.tasks
    ensures var t := StartStep(s, key, sp); SpawningOk(t) && CallersOk(t) && ConnsOk(t)
  {
  }

  /** A key with neither an entry nor a spawn may be given a spawn. */
  lemma StartKeepsShape(s: Sys, key: Key, sp: SpawnId)
    requires Shape(s) && sp !in s.tasks && key !in s.pool.entries && key !in s.pool.spawning
    ensures Shape(StartStep(s, key, sp))
  {
    hide TasksOk, SpawningOk, CallersOk, ConnsOk, Distinct;
    StartTasks(s, key, sp);
    StartRest(s, key, sp);
  }

  lemma AwaitKeepsShape(s: Sys, c: CallerId, key: Key, attempt: nat)
    requires Shape(s) && key in s.pool.spawning
    ensures Shape(SetCaller(s, c, Awaiting(key, attempt, s.pool.spawning[key])))
  {
  }

  lemma StartAwaitKeepsShape(s: Sys, c: CallerId, key: Key, attempt: nat, sp: SpawnId)
    requires Shape(s) && sp !in s.tasks && key !in s.pool.entries && key !in s.pool.spawning
    ensures Shape(SetCaller(StartStep(s, key, sp), c, Awaiting(key, attempt, sp)))
  {
    StartKeepsShape(s, key, sp);
    hide Shape;
    AwaitKeepsShape(StartStep(s, key, sp), c, key, attempt);
  }

  lemma SettledOk(s: Sys, ph: Caller)
    requires ph.Trying? || ph.Done?
    ensures CallerOk(s, ph)
  {
  }

  lemma DecideKeepsShape(s: Sys, cfg: PoolConfig, c: CallerId, me: Caller, now: Time, sp: SpawnId)
    requires Shape(s) && me.Trying? && sp !in s.tasks && me.key !in s.pool.entries
    ensures var choice := Decide(s.pool, cfg, me.key, now, s.dead, sp);
            Shape(Settle(s.(pool := choice.pool), c, me, choice.outcome))
  {
    var choice := Decide(s.pool, cfg, me.key, now, s.dead, sp);
    hide Shape, TenantCount, CallerOk;
    match choice.outcome
    case Refused(_) =>
      SettledOk(s, Done);
      CallerKeepsShape(s, c, Done);
    case Attached(_) => AwaitKeepsShape(s, c, me.key, me.attempt);
    case Started(_) => StartAwaitKeepsShape(s, c, me.key, me.attempt, sp);
  }

  lemma QueueKeepsShape(s: Sys, c: CallerId, key: Key, attempt: nat, conn: ConnId, now: Time)
    requires Shape(s) && MappedAt(s.pool, key, conn)
    ensures Shape(SetCaller(s.(pool := QueueOn(s.pool, conn, now)), c, Queueing(key, attempt, conn)))
  {
  }

  /** An entry dropped as unusable is not also retired as superseded. */
  lemma VictimsDiffer(p: Pool, key: Key, now: Time, dead: set<ConnId>)
    requires EntriesOk(p)
    ensures var d := DropUnusable(p, key, now, dead); d.victims !! RetireSuperseded(d.pool, key).victims
  {
  }

  lemma LookUpKeepsShape(s: Sys, cfg: PoolConfig, c: CallerId, me: Caller, now: Time, sp: SpawnId)
    requires Shape(s) && me.Trying? && sp !in s.tasks
    ensures Shape(LookUpStep(s, cfg, c, me, now, sp))
  {
    hide Decide, Shape, CallerOk, QueueOn;
    if s.pool.closed {
      assert s.handed + multiset({}) == s.handed;
      SettledOk(s, Done);
      CallerKeepsShape(s, c, Done);
    } else {
      var d := DropUnusable(s.pool, me.key, now, s.dead);
      DropKeepsShape(s, me.key, now);
      if me.key in d.pool.entries {
        QueueKeepsShape(Take(s, d), c, me.key, me.attempt, d.pool.entries[me.key], now);
      } else {
        RetireKeepsShape(Take(s, d), me.key);
        var r := RetireSuperseded(d.pool, me.key);
        VictimsDiffer(s.pool, me.key, now, s.dead) by { PoolOfShape(s); }
        assert s.handed + multiset(d.victims) + multiset(r.victims) == s.handed + multiset(d.victims + r.victims);
        DecideKeepsShape(Take(Take(s, d), r), cfg, c, me, now, sp);
      }
    }
  }

  // ---- Callers ----

  lemma WakeKeepsShape(s: Sys, c: CallerId, me: Caller, now: Time)
    requires Shape(s) && Wakeable(s, me)
    ensures Shape(WakeStep(s, c, me, now))
  {
    hide Shape;
    match s.tasks[me.spawn].phase.result
    case Error => CallerKeepsShape(s, c, Done);
    case Retire => CallerKeepsShape(s, c, Retry(me.key, me.attempt));
    case Landed(conn) =>
      if MappedAt(s.pool, me.key, conn) {
        QueueKeepsShape(s, c, me.key, me.attempt, conn, now);
      } else {
        CallerKeepsShape(s, c, Retry(me.key, me.attempt));
      }
  }

  lemma CallerMoveKeepsShape(s: Sys, cfg: PoolConfig, c: CallerId, a: CallerAction)
    requires Shape(s) && CallerEnabled(s, cfg, c, a)
    ensures Shape(CallerMove(s, cfg, c, a))
  {
    assert c in s.callers ==> CallerOk(s, s.callers[c]);
    hide Shape, LookUpStep, WakeStep;
    if a.Arrive? {
      CallerKeepsShape(s, c, Trying(a.key, 1));
    } else {
      var me := s.callers[c];
      var t := CallerMove(s, cfg, c, a);
      match a
      case LookUp(now, sp) => LookUpKeepsShape(s, cfg, c, me, now, sp);
      case Wake(now) => WakeKeepsShape(s, c, me, now);
      case GiveUp =>
        if me.Queueing? {
          RowKeepsShape(s, me.conn, Row(t.pool, me.conn), c, Done);
        } else {
          CallerKeepsShape(s, c, Done);
        }
      case TakeSlot => RowKeepsShape(s, me.conn, Row(t.pool, me.conn), c, t.callers[c]);
      case Recheck(now) => RowKeepsShape(s, me.conn, Row(t.pool, me.conn), c, t.callers[c]);
      case HandBack =>
        assert CallerOk(s, Retry(me.key, me.attempt)) by { SettledOk(s, Retry(me.key, me.attempt)); }
        RowKeepsShape(s, me.conn, Row(t.pool, me.conn), c, Retry(me.key, me.attempt));
      case FreeSlot => RowKeepsShape(s, me.conn, Row(t.pool, me.conn), c, t.callers[c]);
      case Finish(now) => RowKeepsShape(s, me.conn, Row(t.pool, me.conn), c, Done);
    }
  }

  // ---- Spawns ----

  lemma FieldsShrink(p: Pool, q: Pool)
    requires OrphansOk(p)
    requires q.entries == p.entries && q.table == p.table && q.orphans == p.orphans && q.spawning == p.spawning
    requires q.spawns.Keys == p.spawns.Keys && forall sp :: sp in p.spawns ==> SpawnRow(q, sp).key == SpawnRow(p, sp).key
    ensures Shrinks(p, q)
  {
  }

  lemma PoolPhaseKeepsShape(s: Sys, sp: SpawnId, q: Pool, ph: Phase)
    requires Shape(s) && Shrinks(s.pool, q) && sp in s.tasks && !s.tasks[sp].phase.Ended? && !ph.Ended?
    requires Unlanded(ph) ==> Unlanded(s.tasks[sp].phase)
    requires !LandedAt(ph) && !ph.Opened?
    ensures Shape(SetPhase(s.(pool := q), sp, ph))
  {
    ShrinkKeepsShape(s, Dropped(q, {}));
    assert s.handed + multiset({}) == s.handed;
    hide Shape;
    PhaseKeepsShape(s.(pool := q), sp, ph);
  }

  lemma ConnectKeepsShape(s: Sys, sp: SpawnId, c: ConnId)
    requires Shape(s) && sp in s.tasks && s.tasks[sp].phase.Connecting? && c !in s.origin
    ensures Shape(ConnectStep(s, sp, c))
  {
  }

  lemma EndTasks(s: Sys, sp: SpawnId)
    requires TasksOk(s) && sp in s.tasks && s.tasks[sp].phase.Returning?
    ensures TasksOk(EndStep(s, sp))
  {
  }

  lemma EndKeepsShape(s: Sys, sp: SpawnId)
    requires Shape(s) && sp in s.tasks && s.tasks[sp].phase.Returning?
    ensures Shape(EndStep(s, sp))
  {
    assert TaskOk(s, sp);
    EndTasks(s, sp);
    hide TasksOk, Distinct;
  }

  /** The spawn's key is unmapped, so the branch that adopts a rival's entry is never taken (pool.go:443-450). */
  lemma NoRival(s: Sys, cfg: PoolConfig, sp: SpawnId, now: Time, expiry: Option<Time>)
    requires Shape(s) && SpawnEnabled(s, sp, Land(now, expiry))
    ensures !Install(s.pool, cfg, sp, s.tasks[sp].phase.conn, now, expiry, s.dead).landing.Adopted?
  {
  }

  lemma LandedTask(s: Sys, cfg: PoolConfig, sp: SpawnId, now: Time, expiry: Option<Time>)
    requires sp in s.tasks && s.tasks[sp].phase.Opened? && TaskOk(s, sp)
    ensures TaskOk(LandStep(s, cfg, sp, now, expiry), sp)
  {
    hide Deadline;
  }

  lemma OtherTask(s: Sys, cfg: PoolConfig, sp: SpawnId, now: Time, expiry: Option<Time>, sq: SpawnId)
    requires sp in s.tasks && s.tasks[sp].phase.Opened? && TaskOk(s, sp) && sq in s.tasks && sq != sp && TaskOk(s, sq)
    ensures TaskOk(LandStep(s, cfg, sp, now, expiry), sq)
  {
    hide Deadline;
  }

  lemma LandTasks(s: Sys, cfg: PoolConfig, sp: SpawnId, now: Time, expiry: Option<Time>)
    requires TasksOk(s) && sp in s.tasks && s.tasks[sp].phase.Opened?
    ensures TasksOk(LandStep(s, cfg, sp, now, expiry))
  {
    hide TaskOk, Deadline;
    var t := LandStep(s, cfg, sp, now, expiry);
    forall sq | sq in t.tasks
      ensures TaskOk(t, sq)
    {
      if sq == sp {
        LandedTask(s, cfg, sp, now, expiry);
      } else {
        OtherTask(s, cfg, sp, now, expiry, sq);
      }
    }
  }

  lemma LandPool(s: Sys, cfg: PoolConfig, sp: SpawnId, now: Time, expiry: Option<Time>)
    requires EntriesOk(s.pool) && OrphansOk(s.pool) && sp in s.tasks && s.tasks[sp].phase.Opened? && TaskOk(s, sp)
    ensures var t := LandStep(s, cfg, sp, now, expiry); EntriesOk(t.pool) && OrphansOk(t.pool)
  {
    hide LandStep, TaskOk, EntriesOk, OrphansOk;
    LandEntries(s, cfg, sp, now, expiry);
    LandOrphans(s, cfg, sp, now, expiry);
  }

  lemma LandEntries(s: Sys, cfg: PoolConfig, sp: SpawnId, now: Time, expiry: Option<Time>)
    requires EntriesOk(s.pool) && sp in s.tasks && s.tasks[sp].phase.Opened? && TaskOk(s, sp)
    ensures EntriesOk(LandStep(s, cfg, sp, now, expiry).pool)
  {
    hide Deadline;
  }

  lemma LandOrphans(s: Sys, cfg: PoolConfig, sp: SpawnId, now: Time, expiry: Option<Time>)
    requires OrphansOk(s.pool) && sp in s.tasks && s.tasks[sp].phase.Opened? && TaskOk(s, sp)
    ensures OrphansOk(LandStep(s, cfg, sp, now, expiry).pool)
  {
    hide Distinct, Deadline;
  }

  lemma LandKeepsShape(s: Sys, cfg: PoolConfig, sp: SpawnId, now: Time, expiry: Option<Time>)
    requires Shape(s) && sp in s.tasks && s.tasks[sp].phase.Opened?
    ensures Shape(LandStep(s, cfg, sp, now, expiry))
  {
    assert TaskOk(s, sp);
    hide TasksOk, SpawningOk, CallersOk, ConnsOk, EntriesOk, OrphansOk, SameKeys, LandStep;
    LandTasks(s, cfg, sp, now, expiry);
    LandPool(s, cfg, sp, now, expiry);
    LandRest(s, cfg, sp, now, expiry);
  }

  lemma LandRest(s: Sys, cfg: PoolConfig, sp: SpawnId, now: Time, expiry: Option<Time>)
    requires SpawningOk(s) && CallersOk(s) && ConnsOk(s) && sp in s.tasks && s.tasks[sp].phase.Opened? && TaskOk(s, sp)
    ensures var t := LandStep(s, cfg, sp, now, expiry); SpawningOk(t) && CallersOk(t) && ConnsOk(t)
  {
    hide LandStep, TaskOk, SpawningOk, CallersOk, ConnsOk;
    LandSpawning(s, cfg, sp, now, expiry);
    LandCallers(s, cfg, sp, now, expiry);
    LandConns(s, cfg, sp, now, expiry);
  }

  lemma LandSpawning(s: Sys, cfg: PoolConfig, sp: SpawnId, now: Time, expiry: Option<Time>)
    requires SpawningOk(s) && sp in s.tasks && s.tasks[sp].phase.Opened?
    ensures SpawningOk(LandStep(s, cfg, sp, now, expiry))
  {
    hide Deadline;
  }

  lemma LandCallers(s: Sys, cfg: PoolConfig, sp: SpawnId, now: Time, expiry: Option<Time>)
    requires CallersOk(s) && sp in s.tasks && s.tasks[sp].phase.Opened? && TaskOk(s, sp)
    ensures CallersOk(LandStep(s, cfg, sp, now, expiry))
  {
    hide Deadline;
  }

  lemma LandConns(s: Sys, cfg: PoolConfig, sp: SpawnId, now: Time, expiry: Option<Time>)
    requires ConnsOk(s) && sp in s.tasks && s.tasks[sp].phase.Opened? && TaskOk(s, sp)
    ensures ConnsOk(LandStep(s, cfg, sp, now, expiry))
  {
    hide Deadline;
  }

  lemma SpawnMoveKeepsShape(s: Sys, cfg: PoolConfig, sp: SpawnId, a: SpawnAction)
    requires Shape(s) && SpawnEnabled(s, sp, a)
    ensures Shape(SpawnMove(s, cfg, sp, a))
  {
    assert OrphansOk(s.pool);
    assert TaskOk(s, sp);
    hide ConnectStep, LandStep, EndStep, Shape, Shrinks, OrphansOk;
    var t := SpawnMove(s, cfg, sp, a);
    match a
    case FactoryReads => PhaseKeepsShape(s, sp, t.tasks[sp].phase);
    case FactoryFails => PhaseKeepsShape(s, sp, Failing);
    case FactoryReturns(now) =>
      FieldsShrink(s.pool, t.pool);
      PoolPhaseKeepsShape(s, sp, t.pool, t.tasks[sp].phase);
    case ConnectReturns(c) => ConnectKeepsShape(s, sp, c);
    case ConnectFails(now) =>
      FieldsShrink(s.pool, t.pool);
      PoolPhaseKeepsShape(s, sp, t.pool, Failing);
    case GiveBackReservation =>
      FieldsShrink(s.pool, t.pool);
      PoolPhaseKeepsShape(s, sp, t.pool, Returning(Error));
    case Land(now, expiry) => LandKeepsShape(s, cfg, sp, now, expiry);
    case End => EndKeepsShape(s, sp);
  }

  /** A lookup, part by part. */
  lemma LookUpBecomes(s: Sys, cfg: PoolConfig, c: CallerId, me: Caller, now: Time, sp: SpawnId)
    requires me.Trying?
    ensures var t := LookUpStep(s, cfg, c, me, now, sp);
            var d := DropUnusable(s.pool, me.key, now, s.dead);
            && t.rec == s.rec && t.origin == s.origin && t.clock == s.clock
            && (if s.pool.closed then t.pool == s.pool && t.tasks == s.tasks && t.handed == s.handed + multiset({})
                else if me.key in d.pool.entries then
                  t.pool == QueueOn(d.pool, d.pool.entries[me.key], now) && t.tasks == s.tasks
                  && t.handed == s.handed + multiset(d.victims)
                else
                  var e := Decide(RetireSuperseded(d.pool, me.key).pool, cfg, me.key, now, s.dead, sp);
                  t.pool == e.pool
                  && t.handed == s.handed + multiset(d.victims + RetireSuperseded(d.pool, me.key).victims)
                  && t.tasks == if e.outcome.Started? then s.tasks[sp := Task(me.key, Starting)] else s.tasks)
  {
    hide DropUnusable, RetireSuperseded, Decide, QueueOn;
    DecideStarting(RetireSuperseded(DropUnusable(s.pool, me.key, now, s.dead).pool, me.key).pool, cfg, me.key, now, s.dead, sp);
  }

  lemma DecideStarting(p: Pool, cfg: PoolConfig, key: Key, now: Time, dead: set<ConnId>, sp: SpawnId)
    ensures var o := Decide(p, cfg, key, now, dead, sp).outcome; !o.Queued? && (o.Started? ==> o.spawn == sp)
  {
  }

  // ---- The reaper, Shutdown and Apply ----

  lemma ReapShrinks(p: Pool, cfg: PoolConfig, now: Time, dead: set<ConnId>)
    requires EntriesOk(p) && OrphansOk(p)
    ensures var d := PoolModel.Reap(p, cfg, now, dead); Shrinks(p, d.pool) && d.victims <= p.table.Keys
  {
    FilterDistinct(p.orphans, c => !Drained(p, c, dead));
    hide Distinct;
  }

  lemma EvictShrinks(p: Pool, server: string, since: Time)
    requires EntriesOk(p) && OrphansOk(p)
    ensures var d := Evict(p, server, since); Shrinks(p, d.pool) && d.victims <= p.table.Keys
  {
    FilterDistinct(p.orphans, c => !Evictable(p, c, server, since));
    hide Distinct;
  }

  lemma PoolMoveKeepsShape(s: Sys, cfg: PoolConfig, a: PoolAction)
    requires Shape(s) && PoolEnabled(s, a)
    ensures Shape(PoolMove(s, cfg, a))
  {
    hide Shape, Shrinks, EntriesOk, OrphansOk, PoolModel.Reap, PoolModel.Shutdown;
    assert EntriesOk(s.pool) && OrphansOk(s.pool) by { PoolOfShape(s); }
    match a
    case Die(c) => DeathMattersNot(s, c);
    case Reap(now) =>
      ReapShrinks(s.pool, cfg, now, s.dead);
      ShrinkKeepsShape(s, PoolModel.Reap(s.pool, cfg, now, s.dead));
    case Shutdown =>
      ShutdownShrinks(s.pool);
      ShrinkKeepsShape(s, PoolModel.Shutdown(s.pool));
  }

  lemma PoolOfShape(s: Sys)
    requires Shape(s)
    ensures EntriesOk(s.pool) && OrphansOk(s.pool)
  {
  }

  lemma ShutdownShrinks(p: Pool)
    requires EntriesOk(p) && OrphansOk(p)
    ensures var d := PoolModel.Shutdown(p); Shrinks(p, d.pool) && d.victims <= p.table.Keys
  {
    forall c | c in PoolModel.Shutdown(p).victims
      ensures c in p.table
    {
    }
  }

  lemma DeathMattersNot(s: Sys, c: ConnId)
    requires Shape(s) && c in s.origin
    ensures Shape(s.(dead := s.dead + {c}))
  {
  }

  lemma ApplyMoveKeepsShape(s: Sys, a: ApplyAction)
    requires Shape(s) && ApplyEnabled(s, a)
    ensures Shape(ApplyMove(s, a))
  {
    if a.EvictOne? {
      var since := s.rec.progress.owed.since;
      EvictShrinks(s.pool, a.server, since);
      ShrinkKeepsShape(s, Evict(s.pool, a.server, since));
      SameShape(Take(s, Evict(s.pool, a.server, since)), ApplyMove(s, a));
    } else {
      SameShape(s, ApplyMove(s, a));
    }
    hide Shape;
  }

  /** The clock and the reconciler's own state play no part in the shape. */
  lemma SameShape(s: Sys, t: Sys)
    requires Shape(s) && t == s.(rec := t.rec, clock := t.clock)
    ensures Shape(t)
  {
  }

  lemma ShapeStep(s: Sys, cfg: PoolConfig, a: Action)
    requires Shape(s) && Enabled(s, cfg, a)
    ensures Shape(Step(s, cfg, a))
  {
    hide CallerMove, SpawnMove, PoolMove, ApplyMove, CallerEnabled, SpawnEnabled, PoolEnabled, ApplyEnabled, Shape;
    match a {
      case ByCaller(c, call) => CallerMoveKeepsShape(s, cfg, c, call);
      case BySpawn(sp, work) => SpawnMoveKeepsShape(s, cfg, sp, work);
      case ByPool(p) => PoolMoveKeepsShape(s, cfg, p);
      case ByApply(ap) => ApplyMoveKeepsShape(s, ap);
    }
    SameShape(Move(s, cfg, a), Step(s, cfg, a));
  }
}
