/** Every connection opened is in exactly one place, and is handed to Close exactly once. */
module GatewayConservation {
  import opened Common
  import opened PoolModel
  import opened GatewaySystem
  import opened GatewayShape
  import Cap = GatewayCap

  /** Opened by a spawn that has not landed it yet. */
  predicate StillStarting(s: Sys, c: ConnId) {
    && c in s.origin && s.origin[c].spawn in s.tasks
    && s.tasks[s.origin[c].spawn].phase == Opened(c)
  }

  function PlacedTimes(p: Pool, c: ConnId): nat { Weight(Mapped(p, c)) + Weight(c in p.orphans) }

  /** In how many of the four places c is: mapped, orphaned, still starting, handed to Close. */
  function Places(s: Sys, c: ConnId): nat {
    PlacedTimes(s.pool, c) + Weight(StillStarting(s, c)) + s.handed[c]
  }

  ghost predicate Conserved(s: Sys) {
    && (forall c :: c in s.origin ==> Places(s, c) == 1)
    && (s.pool.closed ==> s.pool.entries == map[] && s.pool.orphans == [])
  }

  /** A section of the pool that unplaces exactly what it hands to Close. */
  ghost predicate Accounts(p: Pool, d: Dropped) {
    && (forall c :: PlacedTimes(p, c) == PlacedTimes(d.pool, c) + Weight(c in d.victims))
    && (d.pool.closed ==> p.closed || (d.pool.entries == map[] && d.pool.orphans == []))
    && (p.closed ==> d.pool.closed && d.pool.entries == map[] && d.pool.orphans == [])
  }

  lemma TakeKeepsConserved(s: Sys, d: Dropped)
    requires Conserved(s) && Accounts(s.pool, d)
    ensures Conserved(Take(s, d))
  {
  }

  /** The connections of placed entries, and no others, are placed. */
  lemma MappedOnce(p: Pool, k: Key, c: ConnId)
    requires EntriesOk(p) && MappedAt(p, k, c)
    ensures k == Row(p, c).key && Mapped(p, c)
  {
  }

  ghost predicate Closed(p: Pool) { p.closed ==> p.entries == map[] && p.orphans == [] }

  lemma DropAccounts(p: Pool, key: Key, now: Time, dead: set<ConnId>)
    requires EntriesOk(p) && OrphansOk(p) && Closed(p)
    ensures Accounts(p, DropUnusable(p, key, now, dead))
  {
    if key in p.entries {
      MappedOnce(p, key, p.entries[key]);
    }
    hide Distinct;
  }

  lemma RetireAccounts(p: Pool, key: Key)
    requires EntriesOk(p) && OrphansOk(p) && Closed(p)
    ensures Accounts(p, RetireSuperseded(p, key))
  {
  }

  lemma ReapAccounts(p: Pool, cfg: PoolConfig, now: Time, dead: set<ConnId>)
    requires EntriesOk(p) && OrphansOk(p) && Closed(p)
    ensures Accounts(p, PoolModel.Reap(p, cfg, now, dead))
  {
  }

  lemma EvictAccounts(p: Pool, server: string, since: Time)
    requires EntriesOk(p) && OrphansOk(p) && Closed(p)
    ensures Accounts(p, Evict(p, server, since))
  {
  }

  lemma ShutdownAccounts(p: Pool)
    requires EntriesOk(p) && OrphansOk(p) && Closed(p)
    ensures Accounts(p, PoolModel.Shutdown(p))
  {
  }

  // ---- Steps that move no connection ----

  predicate SamePlaces(s: Sys, t: Sys) {
    && t.pool.entries == s.pool.entries && t.pool.orphans == s.pool.orphans && t.pool.closed == s.pool.closed
    && t.handed == s.handed && t.origin == s.origin
  }

  lemma SamePlacesConserved(s: Sys, t: Sys)
    requires Conserved(s) && EntriesOk(s.pool) && EntriesOk(t.pool) && SamePlaces(s, t)
    requires forall c :: c in s.origin ==> StillStarting(t, c) == StillStarting(s, c)
    ensures Conserved(t)
  {
  }

  // ---- Callers ----

  lemma DecideSamePlaces(p: Pool, cfg: PoolConfig, key: Key, now: Time, dead: set<ConnId>, sp: SpawnId)
    ensures var q := Decide(p, cfg, key, now, dead, sp).pool;
            q.entries == p.entries && q.orphans == p.orphans && q.closed == p.closed
  {
  }

  lemma UnionAsMultiset<T>(a: set<T>, b: set<T>)
    requires a !! b
    ensures multiset(a + b) == multiset(a) + multiset(b) && (b == {} ==> a + b == a)
  {
  }

  lemma LookupSamePlaces(s: Sys, cfg: PoolConfig, c: CallerId, me: Caller, now: Time, sp: SpawnId, d: Dropped, r: Dropped)
    requires me.Trying? && !s.pool.closed && d == DropUnusable(s.pool, me.key, now, s.dead)
    requires r == (if me.key in d.pool.entries then Dropped(d.pool, {}) else RetireSuperseded(d.pool, me.key))
    requires d.victims !! r.victims
    ensures SamePlaces(Take(Take(s, d), r), LookUpStep(s, cfg, c, me, now, sp))
  {
    hide DropUnusable, RetireSuperseded, Decide, LookUpStep, QueueOn;
    LookUpBecomes(s, cfg, c, me, now, sp);
    UnionAsMultiset(d.victims, r.victims);
    if me.key in d.pool.entries {
      QueueSamePlaces(d.pool, d.pool.entries[me.key], now);
      assert multiset(r.victims) == multiset{};
    } else {
      DecideSamePlaces(r.pool, cfg, me.key, now, s.dead, sp);
    }
  }

  lemma QueueSamePlaces(p: Pool, c: ConnId, now: Time)
    ensures var q := QueueOn(p, c, now); q.entries == p.entries && q.orphans == p.orphans && q.closed == p.closed
  {
  }

  lemma LookUpKeepsConserved(s: Sys, cfg: PoolConfig, c: CallerId, me: Caller, now: Time, sp: SpawnId)
    requires Conserved(s) && Shape(s) && me.Trying? && sp !in s.tasks
    ensures Conserved(LookUpStep(s, cfg, c, me, now, sp))
  {
    var t := LookUpStep(s, cfg, c, me, now, sp);
    LookUpKeepsShape(s, cfg, c, me, now, sp);
    PoolOfShape(s);
    PoolOfShape(t);
    LookUpStarting(s, cfg, c, me, now, sp);
    if s.pool.closed {
      assert s.handed + multiset({}) == s.handed;
      hide Shape, EntriesOk, OrphansOk, Conserved;
      SamePlacesConserved(s, t);
    } else {
      var d := DropUnusable(s.pool, me.key, now, s.dead);
      DropAccounts(s.pool, me.key, now, s.dead);
      DropKeepsShape(s, me.key, now);
      TakeKeepsConserved(s, d);
      LookUpTail(s, cfg, c, me, now, sp, d) by { hide Shape, Conserved, EntriesOk, OrphansOk, DropUnusable, Accounts; }
      hide Shape, Conserved, EntriesOk, OrphansOk, DropUnusable, Accounts;
    }
  }

  lemma LookUpStarting(s: Sys, cfg: PoolConfig, c: CallerId, me: Caller, now: Time, sp: SpawnId)
    requires me.Trying? && sp !in s.tasks
    ensures var t := LookUpStep(s, cfg, c, me, now, sp);
            && t.origin == s.origin
            && forall x :: x in s.origin ==> StillStarting(t, x) == StillStarting(s, x)
  {
    hide DropUnusable, RetireSuperseded, TenantCount;
  }

  lemma LookUpTail(s: Sys, cfg: PoolConfig, c: CallerId, me: Caller, now: Time, sp: SpawnId, d: Dropped)
    requires me.Trying? && sp !in s.tasks && !s.pool.closed && d == DropUnusable(s.pool, me.key, now, s.dead)
    requires EntriesOk(s.pool) && Shape(Take(s, d)) && Conserved(Take(s, d))
    requires var t := LookUpStep(s, cfg, c, me, now, sp);
             EntriesOk(t.pool) && forall x :: x in s.origin ==> StillStarting(t, x) == StillStarting(s, x)
    ensures Conserved(LookUpStep(s, cfg, c, me, now, sp))
  {
    var t := LookUpStep(s, cfg, c, me, now, sp);
    var u := Take(s, d);
    PoolOfShape(u);
    if me.key in d.pool.entries {
      LookupSamePlaces(s, cfg, c, me, now, sp, d, Dropped(d.pool, {}));
      assert Take(u, Dropped(d.pool, {})).handed == u.handed;
      hide Shape, Conserved, EntriesOk, OrphansOk, DropUnusable, LookUpStep;
      SamePlacesConserved(u, t);
    } else {
      var r := RetireSuperseded(d.pool, me.key);
      RetireAccounts(d.pool, me.key) by { assert Closed(d.pool) by { ConservedClosed(u); } }
      VictimsDiffer(s.pool, me.key, now, s.dead);
      TakeKeepsConserved(u, r);
      LookupSamePlaces(s, cfg, c, me, now, sp, d, r);
      RetireKeepsShape(u, me.key);
      PoolOfShape(Take(u, r));
      hide Shape, Conserved, EntriesOk, OrphansOk, DropUnusable, RetireSuperseded, LookUpStep, Accounts;
      SamePlacesConserved(Take(u, r), t);
    }
  }

  lemma ConservedClosed(s: Sys)
    requires Conserved(s)
    ensures Closed(s.pool)
  {
  }

  lemma CallerSamePlaces(s: Sys, cfg: PoolConfig, c: CallerId, a: CallerAction)
    requires CallerEnabled(s, cfg, c, a) && !a.LookUp?
    ensures SamePlaces(s, CallerMove(s, cfg, c, a)) && CallerMove(s, cfg, c, a).tasks == s.tasks
  {
  }

  lemma CallerKeepsConserved(s: Sys, cfg: PoolConfig, c: CallerId, a: CallerAction)
    requires Conserved(s) && Shape(s) && CallerEnabled(s, cfg, c, a)
    ensures Conserved(CallerMove(s, cfg, c, a))
  {
    var t := CallerMove(s, cfg, c, a);
    hide Shape, Conserved, LookUpStep, WakeStep;
    if a.LookUp? {
      LookUpKeepsConserved(s, cfg, c, s.callers[c], a.now, a.newSpawn);
    } else {
      CallerSamePlaces(s, cfg, c, a);
      CallerMoveKeepsShape(s, cfg, c, a);
      PoolOfShape(s);
      PoolOfShape(t);
      hide CallerMove, CallerEnabled, EntriesOk, OrphansOk;
      SamePlacesConserved(s, t);
    }
  }

  // ---- Spawns ----

  lemma LandKeepsConserved(s: Sys, cfg: PoolConfig, sp: SpawnId, now: Time, expiry: Option<Time>)
    requires Conserved(s) && EntriesOk(s.pool) && OrphansOk(s.pool)
    requires sp in s.tasks && s.tasks[sp].phase.Opened? && TaskOk(s, sp)
    ensures Conserved(LandStep(s, cfg, sp, now, expiry))
  {
    var t := LandStep(s, cfg, sp, now, expiry);
    var conn := s.tasks[sp].phase.conn;
    forall c | c in t.origin
      ensures Places(t, c) == 1
    {
      assert Places(s, c) == 1;
      LandPlaces(s, cfg, sp, now, expiry, c);
    }
    hide Distinct, Deadline, EntriesOk, Places;
  }

  lemma LandPlaces(s: Sys, cfg: PoolConfig, sp: SpawnId, now: Time, expiry: Option<Time>, c: ConnId)
    requires EntriesOk(s.pool) && OrphansOk(s.pool) && c in s.origin
    requires sp in s.tasks && s.tasks[sp].phase.Opened? && TaskOk(s, sp)
    ensures Places(LandStep(s, cfg, sp, now, expiry), c) == Places(s, c)
  {
    hide Distinct, Deadline;
  }

  lemma PhaseKeepsStarting(s: Sys, cfg: PoolConfig, sp: SpawnId, a: SpawnAction)
    requires SpawnEnabled(s, sp, a) && !a.Land? && !a.ConnectReturns?
    ensures var t := SpawnMove(s, cfg, sp, a);
            SamePlaces(s, t) && forall c :: c in s.origin ==> StillStarting(t, c) == StillStarting(s, c)
  {
  }

  lemma ConnectKeepsConserved(s: Sys, sp: SpawnId, c: ConnId)
    requires Conserved(s) && EntriesOk(s.pool) && OrphansOk(s.pool) && ConnsOk(s)
    requires sp in s.tasks && s.tasks[sp].phase.Connecting? && c !in s.origin
    ensures Conserved(ConnectStep(s, sp, c))
  {
  }

  lemma SpawnKeepsConserved(s: Sys, cfg: PoolConfig, sp: SpawnId, a: SpawnAction)
    requires Conserved(s) && Shape(s) && SpawnEnabled(s, sp, a)
    ensures Conserved(SpawnMove(s, cfg, sp, a))
  {
    var t := SpawnMove(s, cfg, sp, a);
    assert TaskOk(s, sp);
    assert ConnsOk(s);
    PoolOfShape(s);
    hide Conserved, EntriesOk, OrphansOk, TasksOk, SpawningOk, CallersOk, ConnsOk, LandStep, ConnectStep;
    if a.Land? {
      LandKeepsConserved(s, cfg, sp, a.now, a.expiry);
    } else if a.ConnectReturns? {
      ConnectKeepsConserved(s, sp, a.newConn);
    } else {
      SpawnMoveKeepsShape(s, cfg, sp, a);
      PoolOfShape(t);
      PhaseKeepsStarting(s, cfg, sp, a);
      hide SpawnMove, StillStarting;
      SamePlacesConserved(s, t);
    }
  }

  // ---- The reaper, Shutdown and Apply ----

  lemma PoolKeepsConserved(s: Sys, cfg: PoolConfig, a: PoolAction)
    requires Conserved(s) && Shape(s)
    ensures Conserved(PoolMove(s, cfg, a))
  {
    PoolOfShape(s);
    ConservedClosed(s);
    hide Conserved, EntriesOk, OrphansOk, Shape, Accounts, Closed;
    match a
    case Die(c) => SamePlacesConserved(s, PoolMove(s, cfg, a));
    case Reap(now) =>
      ReapAccounts(s.pool, cfg, now, s.dead);
      TakeKeepsConserved(s, PoolModel.Reap(s.pool, cfg, now, s.dead));
    case Shutdown =>
      ShutdownAccounts(s.pool);
      TakeKeepsConserved(s, PoolModel.Shutdown(s.pool));
  }

  lemma ApplyKeepsConserved(s: Sys, a: ApplyAction)
    requires Conserved(s) && Shape(s) && ApplyEnabled(s, a)
    ensures Conserved(ApplyMove(s, a))
  {
    PoolOfShape(s);
    ConservedClosed(s);
    if a.EvictOne? {
      var d := Evict(s.pool, a.server, s.rec.progress.owed.since);
      EvictAccounts(s.pool, a.server, s.rec.progress.owed.since);
      TakeKeepsConserved(s, d);
      SameConserved(Take(s, d), ApplyMove(s, a));
    } else {
      SameConserved(s, ApplyMove(s, a));
    }
    hide Conserved, EntriesOk, OrphansOk, Shape, Accounts, Closed;
  }

  lemma SameConserved(s: Sys, t: Sys)
    requires Conserved(s) && t == s.(rec := t.rec, clock := t.clock)
    ensures Conserved(t)
  {
  }

  lemma ConservedStep(s: Sys, cfg: PoolConfig, a: Action)
    requires Conserved(s) && Shape(s) && Enabled(s, cfg, a)
    ensures Conserved(Step(s, cfg, a))
  {
    hide CallerMove, SpawnMove, PoolMove, ApplyMove, CallerEnabled, SpawnEnabled, PoolEnabled, ApplyEnabled, Shape, Conserved;
    match a {
      case ByCaller(c, call) => CallerKeepsConserved(s, cfg, c, call);
      case BySpawn(sp, work) => SpawnKeepsConserved(s, cfg, sp, work);
      case ByPool(p) => PoolKeepsConserved(s, cfg, p);
      case ByApply(ap) => ApplyKeepsConserved(s, ap);
    }
    SameConserved(Move(s, cfg, a), Step(s, cfg, a));
  }

  // ---- Who may close live work ----

  predicate Kills(s: Sys, t: Sys, c: ConnId) {
    t.handed[c] > s.handed[c] && c !in s.dead && c in s.pool.table && Busy(s.pool.table[c])
  }

  predicate Evicts(a: Action) { (a.ByPool? && a.pool.Shutdown?) || (a.ByApply? && a.apply.EvictOne?) }

  lemma LookupSpares(p: Pool, cfg: PoolConfig, key: Key, now: Time, dead: set<ConnId>, sp: SpawnId, c: ConnId)
    requires EntriesOk(p) && c in Lookup(p, cfg, key, now, dead, sp).victims
    ensures c in dead || !Busy(Row(p, c))
  {
  }

  lemma ReapSpares(p: Pool, cfg: PoolConfig, now: Time, dead: set<ConnId>, c: ConnId)
    requires c in PoolModel.Reap(p, cfg, now, dead).victims
    ensures c in dead || !Busy(Row(p, c))
  {
  }

  /** Age-out, idling, supersession and a spawn's own end never close a live backend with work on it. */
  lemma OnlyEvictionKills(s: Sys, cfg: PoolConfig, a: Action, c: ConnId)
    requires Shape(s) && Enabled(s, cfg, a) && Kills(s, Step(s, cfg, a), c)
    ensures Evicts(a)
  {
    PoolOfShape(s);
    match a
    case ByCaller(caller, call) =>
      if call.LookUp? {
        LookUpKills(s, cfg, caller, call.now, call.newSpawn, c);
      } else {
        CallerSamePlaces(s, cfg, caller, call);
        hide CallerMove, Shape;
        assert false;
      }
    case BySpawn(sp, work) =>
      SpawnSpares(s, cfg, sp, work, c);
      hide SpawnMove, Shape;
      assert false;
    case ByPool(p) =>
      if p.Reap? {
        ReapSpares(s.pool, cfg, p.now, s.dead, c);
      }
    case ByApply(ap) =>
  }

  lemma LookUpKills(s: Sys, cfg: PoolConfig, caller: CallerId, now: Time, sp: SpawnId, c: ConnId)
    requires EntriesOk(s.pool) && CallerEnabled(s, cfg, caller, LookUp(now, sp))
    ensures !Kills(s, LookUpStep(s, cfg, caller, s.callers[caller], now, sp), c)
  {
    hide Lookup, EntriesOk, Busy;
    var me := s.callers[caller];
    var l := Lookup(s.pool, cfg, me.key, now, s.dead, sp);
    if c in l.victims {
      LookupSpares(s.pool, cfg, me.key, now, s.dead, sp, c);
    }
  }

  lemma SpawnSpares(s: Sys, cfg: PoolConfig, sp: SpawnId, a: SpawnAction, c: ConnId)
    requires Shape(s) && SpawnEnabled(s, sp, a) && c in s.pool.table
    ensures SpawnMove(s, cfg, sp, a).handed[c] <= s.handed[c]
  {
    assert TaskOk(s, sp);
    hide Shape;
  }
}
