/**
Call slots: the counters of an entry are the numbers of callers in each phase on it, and a call
starts only on an entry that is mapped, alive and within its deadline at that step.
*/
module GatewayAdmission {
  import opened Common
  import opened PoolModel
  import opened GatewaySystem
  import opened GatewayShape

  function WaitsOn(e: ConnId): Caller -> bool {
    (ph: Caller) => (ph.Queueing? || ph.Slotted?) && ph.conn == e
  }

  function RunsOn(e: ConnId): Caller -> bool {
    (ph: Caller) => (ph.Calling? || ph.Freed?) && ph.conn == e
  }

  function HoldsSlotOf(e: ConnId): Caller -> bool {
    (ph: Caller) => (ph.Slotted? || ph.HandingBack? || ph.Calling?) && ph.conn == e
  }

  ghost predicate Tally(row: Entry, callers: map<CallerId, Caller>, e: ConnId) {
    && row.waiters == Count(callers, WaitsOn(e))
    && row.inflight == Count(callers, RunsOn(e))
    && row.slots == Count(callers, HoldsSlotOf(e))
  }

  ghost predicate Tallies(table: map<ConnId, Entry>, callers: map<CallerId, Caller>, cfg: PoolConfig) {
    forall e :: e in table ==> Tally(table[e], callers, e) && table[e].slots <= cfg.maxConcurrent
  }

  predicate Moves(row: Entry, row': Entry, was: Caller, ph: Caller, e: ConnId) {
    && row'.waiters == row.waiters - Weight(WaitsOn(e)(was)) + Weight(WaitsOn(e)(ph))
    && row'.inflight == row.inflight - Weight(RunsOn(e)(was)) + Weight(RunsOn(e)(ph))
    && row'.slots == row.slots - Weight(HoldsSlotOf(e)(was)) + Weight(HoldsSlotOf(e)(ph))
  }

  function Was(callers: map<CallerId, Caller>, c: CallerId): Caller {
    if c in callers then callers[c] else Done
  }

  lemma TallyMoves(row: Entry, row': Entry, callers: map<CallerId, Caller>, c: CallerId, ph: Caller, e: ConnId)
    requires Tally(row, callers, e) && Moves(row, row', Was(callers, c), ph, e)
    ensures Tally(row', callers[c := ph], e)
  {
    CountUpdate(callers, c, ph, WaitsOn(e));
    CountUpdate(callers, c, ph, RunsOn(e));
    CountUpdate(callers, c, ph, HoldsSlotOf(e));
  }

  /** One caller moves, and the row of the entry it was or is at moves with it. */
  lemma RowKeepsTallies(table: map<ConnId, Entry>, callers: map<CallerId, Caller>, cfg: PoolConfig,
                        c: CallerId, ph: Caller, conn: ConnId, row: Entry)
    requires Tallies(table, callers, cfg) && conn in table
    requires AtEntry(ph) ==> ph.conn == conn
    requires AtEntry(Was(callers, c)) ==> Was(callers, c).conn == conn
    requires Moves(table[conn], row, Was(callers, c), ph, conn) && row.slots <= cfg.maxConcurrent
    ensures Tallies(table[conn := row], callers[c := ph], cfg)
  {
    var table' := table[conn := row];
    forall e | e in table'
      ensures Tally(table'[e], callers[c := ph], e) && table'[e].slots <= cfg.maxConcurrent
    {
      TallyMoves(table[e], table'[e], callers, c, ph, e);
    }
  }

  /** A caller that is at no entry before or after. */
  lemma PlainKeepsTallies(table: map<ConnId, Entry>, callers: map<CallerId, Caller>, cfg: PoolConfig,
                          c: CallerId, ph: Caller)
    requires Tallies(table, callers, cfg) && !AtEntry(ph) && !AtEntry(Was(callers, c))
    ensures Tallies(table, callers[c := ph], cfg)
  {
    forall e | e in table
      ensures Tally(table[e], callers[c := ph], e)
    {
      TallyMoves(table[e], table[e], callers, c, ph, e);
    }
  }

  lemma QueueKeepsTallies(p: Pool, callers: map<CallerId, Caller>, cfg: PoolConfig,
                          c: CallerId, ph: Caller, now: Time)
    requires Tallies(p.table, callers, cfg) && ph.Queueing? && ph.conn in p.table && !AtEntry(Was(callers, c))
    ensures Tallies(QueueOn(p, ph.conn, now).table, callers[c := ph], cfg)
  {
    RowKeepsTallies(p.table, callers, cfg, c, ph, ph.conn, QueueOn(p, ph.conn, now).table[ph.conn]);
  }

  lemma DropKeepsRow(p: Pool, key: Key, now: Time, dead: set<ConnId>)
    requires EntriesOk(p)
    ensures var q := DropUnusable(p, key, now, dead).pool; key in q.entries ==> q.entries[key] in p.table
  {
  }

  lemma LookupTable(p: Pool, cfg: PoolConfig, key: Key, now: Time, dead: set<ConnId>, sp: SpawnId)
    requires EntriesOk(p)
    ensures var l := Lookup(p, cfg, key, now, dead, sp);
            if l.outcome.Queued? then l.outcome.conn in p.table && l.pool.table == QueueOn(p, l.outcome.conn, now).table
            else l.pool.table == p.table
  {
    DropKeepsRow(p, key, now, dead);
    hide DropUnusable, RetireSuperseded, Decide, EntriesOk;
    var d := DropUnusable(p, key, now, dead);
    DecideStarting(RetireSuperseded(d.pool, key).pool, cfg, key, now, dead, sp);
  }

  lemma LookUpKeepsTallies(s: Sys, cfg: PoolConfig, c: CallerId, me: Caller, now: Time, sp: SpawnId)
    requires Tallies(s.pool.table, s.callers, cfg) && EntriesOk(s.pool) && me.Trying? && Was(s.callers, c) == me
    ensures var t := LookUpStep(s, cfg, c, me, now, sp); Tallies(t.pool.table, t.callers, cfg)
  {
    hide Tallies, Lookup, EntriesOk, QueueOn;
    var t := LookUpStep(s, cfg, c, me, now, sp);
    LookupTable(s.pool, cfg, me.key, now, s.dead, sp);
    if t.callers[c].Queueing? {
      QueueKeepsTallies(s.pool, s.callers, cfg, c, t.callers[c], now);
    } else {
      PlainKeepsTallies(s.pool.table, s.callers, cfg, c, t.callers[c]);
    }
  }

  lemma WakeKeepsTallies(s: Sys, cfg: PoolConfig, c: CallerId, me: Caller, now: Time)
    requires Tallies(s.pool.table, s.callers, cfg) && EntriesOk(s.pool) && Wakeable(s, me) && Was(s.callers, c) == me
    ensures var t := WakeStep(s, c, me, now); Tallies(t.pool.table, t.callers, cfg)
  {
    var t := WakeStep(s, c, me, now);
    hide Tallies;
    if t.callers[c].Queueing? {
      QueueKeepsTallies(s.pool, s.callers, cfg, c, t.callers[c], now);
    } else {
      PlainKeepsTallies(s.pool.table, s.callers, cfg, c, t.callers[c]);
    }
  }

  lemma CallerKeepsTallies(s: Sys, cfg: PoolConfig, c: CallerId, a: CallerAction)
    requires Tallies(s.pool.table, s.callers, cfg) && EntriesOk(s.pool) && CallersOk(s) && CallerEnabled(s, cfg, c, a)
    ensures var t := CallerMove(s, cfg, c, a); Tallies(t.pool.table, t.callers, cfg)
  {
    hide Tallies, EntriesOk, LookUpStep, WakeStep;
    var me := Was(s.callers, c);
    if AtEntry(me) {
      AtEntryKeepsTallies(s, cfg, c, a);
    } else if a.LookUp? {
      LookUpKeepsTallies(s, cfg, c, me, a.now, a.newSpawn);
    } else if a.Wake? {
      WakeKeepsTallies(s, cfg, c, me, a.now);
    } else {
      PlainKeepsTallies(s.pool.table, s.callers, cfg, c, CallerMove(s, cfg, c, a).callers[c]);
    }
  }

  lemma AtEntryMoves(s: Sys, cfg: PoolConfig, c: CallerId, a: CallerAction)
    requires CallerEnabled(s, cfg, c, a) && AtEntry(Was(s.callers, c))
    requires Was(s.callers, c).conn in s.pool.table && s.pool.table[Was(s.callers, c).conn].slots <= cfg.maxConcurrent
    ensures var t := CallerMove(s, cfg, c, a); var conn := Was(s.callers, c).conn; var row := Row(t.pool, conn);
            && c in t.callers && t.callers == s.callers[c := t.callers[c]] && t.pool.table == s.pool.table[conn := row]
            && (AtEntry(t.callers[c]) ==> t.callers[c].conn == conn) && row.slots <= cfg.maxConcurrent
            && Moves(s.pool.table[conn], row, Was(s.callers, c), t.callers[c], conn)
  {
    hide LookUpStep, WakeStep;
  }

  lemma AtEntryKeepsTallies(s: Sys, cfg: PoolConfig, c: CallerId, a: CallerAction)
    requires Tallies(s.pool.table, s.callers, cfg) && CallersOk(s) && CallerEnabled(s, cfg, c, a)
    requires AtEntry(Was(s.callers, c))
    ensures var t := CallerMove(s, cfg, c, a); Tallies(t.pool.table, t.callers, cfg)
  {
    var me := Was(s.callers, c);
    assert CallerOk(s, me);
    assert s.pool.table[me.conn].slots <= cfg.maxConcurrent;
    hide Tallies, CallersOk, CallerMove, CallerEnabled, Moves;
    AtEntryMoves(s, cfg, c, a);
    var t := CallerMove(s, cfg, c, a);
    RowKeepsTallies(s.pool.table, s.callers, cfg, c, t.callers[c], me.conn, Row(t.pool, me.conn));
  }

  lemma NobodyAt(s: Sys, e: ConnId)
    requires CallersOk(s) && e !in s.pool.table
    ensures Tally(Entry(NO_ENTRY.key, 0, 0, 0, 0, 0, 0, 0), s.callers, e)
  {
    forall c | c in s.callers
      ensures !WaitsOn(e)(s.callers[c]) && !RunsOn(e)(s.callers[c]) && !HoldsSlotOf(e)(s.callers[c])
    {
      assert CallerOk(s, s.callers[c]);
    }
    assert Matching(s.callers, WaitsOn(e)) == {};
    assert Matching(s.callers, RunsOn(e)) == {};
    assert Matching(s.callers, HoldsSlotOf(e)) == {};
  }

  lemma LandKeepsTallies(s: Sys, cfg: PoolConfig, sp: SpawnId, now: Time, expiry: Option<Time>)
    requires Tallies(s.pool.table, s.callers, cfg) && CallersOk(s) && cfg.maxConcurrent >= 0
    requires sp in s.tasks && s.tasks[sp].phase.Opened? && TaskOk(s, sp)
    ensures var t := LandStep(s, cfg, sp, now, expiry); Tallies(t.pool.table, t.callers, cfg)
  {
    NobodyAt(s, s.tasks[sp].phase.conn);
    hide CallersOk, Deadline;
  }

  predicate SameRows(s: Sys, t: Sys) { t.pool.table == s.pool.table && t.callers == s.callers }

  lemma SpawnKeepsRows(s: Sys, cfg: PoolConfig, sp: SpawnId, a: SpawnAction)
    requires SpawnEnabled(s, sp, a) && !a.Land?
    ensures SameRows(s, SpawnMove(s, cfg, sp, a))
  {
  }

  lemma PoolKeepsRows(s: Sys, cfg: PoolConfig, a: PoolAction)
    ensures SameRows(s, PoolMove(s, cfg, a))
  {
  }

  lemma ApplyKeepsRows(s: Sys, a: ApplyAction)
    requires ApplyEnabled(s, a)
    ensures SameRows(s, ApplyMove(s, a))
  {
  }

  lemma TalliesStep(s: Sys, cfg: PoolConfig, a: Action)
    requires Tallies(s.pool.table, s.callers, cfg) && Shape(s) && Enabled(s, cfg, a) && cfg.maxConcurrent >= 0
    ensures var t := Step(s, cfg, a); Tallies(t.pool.table, t.callers, cfg)
  {
    if a.ByCaller? {
      hide CallerMove, CallerEnabled;
      CallerKeepsTallies(s, cfg, a.caller, a.call);
    } else if a.BySpawn? && a.work.Land? {
      assert TaskOk(s, a.spawn);
      hide LandStep, Tallies;
      LandKeepsTallies(s, cfg, a.spawn, a.work.now, a.work.expiry);
    } else {
      hide Tallies, Shape, SpawnMove, PoolMove, ApplyMove, SpawnEnabled, ApplyEnabled;
      match a
      case BySpawn(sp, work) => SpawnKeepsRows(s, cfg, sp, work);
      case ByPool(p) => PoolKeepsRows(s, cfg, p);
      case ByApply(ap) => ApplyKeepsRows(s, ap);
    }
  }
}
