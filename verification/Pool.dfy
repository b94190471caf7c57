/**
The pool as the object pool.go makes it: fields updated in place, one method for each section
that holds p.mu, each proved to leave exactly the state its function in PoolModel describes.

Time, the set of dead connections and fresh ids are parameters. A method returns the muxes its
section hands to Close, each of them once.
*/
module PoolObject {
  import opened Common
  import opened GatewayShape
  import M = PoolModel

  type Key = M.Key
  type ConnId = M.ConnId
  type SpawnId = M.SpawnId
  type Time = M.Time

  /** The loop that reap, evictServer, retireSupersededLocked and Shutdown share, over a map without repeated values. */
  method DeleteWhere<K(==), V(==)>(m: map<K, V>, goes: K -> bool) returns (left: map<K, V>, gone: seq<V>)
    requires forall k, q :: k in m && q in m && m[k] == m[q] ==> k == q
    ensures left == map k | k in m && !goes(k) :: m[k]
    ensures forall v :: v in gone <==> exists k :: k in m && goes(k) && m[k] == v
    ensures Distinct(gone)
  {
    left, gone := m, [];
    var todo := m.Keys;
    while todo != {}
      invariant todo <= m.Keys
      invariant left == map k | k in m && (k in todo || !goes(k)) :: m[k]
      invariant forall v :: v in gone <==> exists k :: k in m && k !in todo && goes(k) && m[k] == v
      invariant Distinct(gone)
      decreases |todo|
    {
      var k :| k in todo;
      todo := todo - {k};
      if goes(k) {
        assert m[k] !in gone;
        DistinctAppend(gone, m[k]);
        gone := gone + [m[k]];
        left := left - {k};
      }
    }
  }

  function Not<T(!new)>(p: T -> bool): T -> bool { x => !p(x) }

  /** The loop over the orphans, in the order they were parked. */
  method Partition<T(!new)>(s: seq<T>, goes: T -> bool) returns (kept: seq<T>, gone: seq<T>)
    ensures kept == Filter(s, Not(goes)) && gone == Filter(s, goes)
  {
    kept, gone := [], [];
    for i := 0 to |s|
      invariant kept == Filter(s[..i], Not(goes)) && gone == Filter(s[..i], goes)
    {
      FilterNext(s, i, goes);
      FilterNext(s, i, Not(goes));
      if goes(s[i]) {
        gone := gone + [s[i]];
      } else {
        kept := kept + [s[i]];
      }
    }
    assert s[..|s|] == s;
  }

  lemma FilterNext<T(!new)>(s: seq<T>, i: nat, p: T -> bool)
    requires i < |s|
    ensures Filter(s[..i + 1], p) == if p(s[i]) then Filter(s[..i], p) + [s[i]] else Filter(s[..i], p)
  {
    assert s[..i + 1][..i] == s[..i];
  }

  /** The loop that counts orphans. */
  method CountWhere<T(!new)>(s: seq<T>, p: T -> bool) returns (n: nat)
    ensures n == |Filter(s, p)|
  {
    n := 0;
    for i := 0 to |s|
      invariant n == |Filter(s[..i], p)|
    {
      FilterNext(s, i, p);
      hide Filter;
      if p(s[i]) {
        n := n + 1;
      }
    }
    assert s[..|s|] == s;
  }

  class Pool {
    const cfg: M.PoolConfig
    var entries: map<Key, ConnId>
    var table: map<ConnId, M.Entry>
    var orphans: seq<ConnId>
    var pending: map<string, int>
    var spawning: map<Key, SpawnId>
    var spawns: map<SpawnId, M.Spawn>
    var broken: map<Key, M.Breaker>
    var closed: bool

    ghost function State(): M.Pool
      reads this
    {
      M.Pool(entries, table, orphans, pending, spawning, spawns, broken, closed)
    }

    /** What GatewayShape proves of the pool in every reachable state. */
    ghost predicate Valid()
      reads this
    {
      EntriesOk(State()) && OrphansOk(State())
    }

    function Row(c: ConnId): (e: M.Entry)
      reads this
      ensures e == M.Row(State(), c)
    {
      if c in table then table[c] else M.NO_ENTRY
    }

    constructor (cfg: M.PoolConfig)
      ensures Valid() && State() == M.EMPTY && this.cfg == cfg
    {
      this.cfg := cfg;
      entries, table, orphans, pending := map[], map[], [], map[];
      spawning, spawns, broken, closed := map[], map[], map[], false;
    }

    method TenantCount(tenant: string, dead: set<ConnId>) returns (n: int)
      ensures n == M.TenantCount(State(), dead, tenant)
    {
      n := 0;
      var todo := entries.Keys;
      ghost var counted: set<Key> := {};
      while todo != {}
        invariant todo <= entries.Keys
        invariant counted == set k | k in entries && k !in todo && k.tenant == tenant && entries[k] !in dead
        invariant n == |counted|
        decreases |todo|
      {
        var k :| k in todo;
        todo := todo - {k};
        if k.tenant == tenant && entries[k] !in dead {
          n := n + 1;
          counted := counted + {k};
        }
      }
      assert counted == set k | k in entries && k.tenant == tenant && entries[k] !in dead;
      var m := OrphanCount(tenant, dead);
      n := n + m + if tenant in pending then pending[tenant] else 0;
    }

    method OrphanCount(tenant: string, dead: set<ConnId>) returns (n: int)
      ensures n == |Filter(orphans, c => M.LiveOrphan(old(State()), dead, tenant, c))|
    {
      ghost var p := State();
      var rows := table;
      var live := (c: ConnId) => (if c in rows then rows[c] else M.NO_ENTRY).key.tenant == tenant && c !in dead;
      n := CountWhere(orphans, live);
      FilterSame(orphans, live, c => M.LiveOrphan(p, dead, tenant, c));
      hide Filter;
    }

    // ---- Get ----

    method DropUnusable(key: Key, now: Time, dead: set<ConnId>) returns (victims: seq<ConnId>)
      requires Valid()
      modifies this
      ensures Valid() && State() == M.DropUnusable(old(State()), key, now, dead).pool
      ensures Distinct(victims) && Elements(victims) == M.DropUnusable(old(State()), key, now, dead).victims
    {
      ghost var p := State();
      victims := [];
      if key in entries {
        var c := entries[key];
        if c in dead || now > Row(c).deadline {
          UnmappedOk(p, key);
          if c in dead || !M.Busy(Row(c)) {
            victims := [c];
          } else {
            orphans := orphans + [c];
          }
          entries := entries - {key};
        }
      }
    }

    /** What goes is unmapped, and handed over once. */
    method RemoveWhere(goes: Key -> bool) returns (gone: seq<ConnId>)
      requires EntriesOk(State())
      modifies this`entries
      ensures entries == map k | k in old(entries) && !goes(k) :: old(entries)[k]
      ensures forall c :: c in gone <==> exists k :: k in old(entries) && goes(k) && old(entries)[k] == c
      ensures Distinct(gone)
    {
      assert forall k, q :: k in entries && q in entries && entries[k] == entries[q] ==> k == q;
      entries, gone := DeleteWhere(entries, goes);
    }

    method RetireSuperseded(key: Key) returns (victims: seq<ConnId>)
      requires Valid()
      modifies this`entries
      ensures Valid() && State() == M.RetireSuperseded(old(State()), key).pool
      ensures Distinct(victims) && Elements(victims) == M.RetireSuperseded(old(State()), key).victims
    {
      ghost var p := State();
      var es, rows := entries, table;
      var goes := (k: Key) =>
        k in es && k.server == key.server && k.tenant == key.tenant && k.credSet == key.credSet
        && k.credVersion < key.credVersion && !M.Busy(if es[k] in rows then rows[es[k]] else M.NO_ENTRY);
      assert forall k :: k in es ==> goes(k) == M.Superseded(p, k, key);
      victims := RemoveWhere(goes);
      assert entries == M.RetireSuperseded(p, key).pool.entries;
      hide M.Busy, Distinct;
      assert forall c :: c in victims <==> c in M.RetireSuperseded(p, key).victims;
      RetireKeepsValid(p, key);
    }

    /** Get's first section (pool.go:246-332); the mux is queued on, awaited, or refused. */
    method Lookup(key: Key, now: Time, dead: set<ConnId>, newSpawn: SpawnId)
      returns (outcome: M.Outcome, victims: seq<ConnId>)
      requires Valid()
      modifies this
      ensures var l := M.Lookup(old(State()), cfg, key, now, dead, newSpawn);
              && State() == l.pool && outcome == l.outcome
              && Distinct(victims) && Elements(victims) == l.victims
    {
      if closed {
        return M.Refused(M.PoolClosed), [];
      }
      ghost var before := State();
      victims := DropUnusable(key, now, dead);
      if key in entries {
        var c := entries[key];
        table := table[c := Row(c).(lastUsed := now, waiters := Row(c).waiters + 1)];
        return M.Queued(c), victims;
      }
      VictimsDiffer(before, key, now, dead);
      var retired := RetireSuperseded(key);
      DistinctJoin(victims, retired);
      victims := victims + retired;
      if key in broken && now < broken[key].openUntil {
        return M.Refused(M.CircuitOpen), victims;
      }
      if key in spawning {
        return M.Attached(spawning[key]), victims;
      }
      var n := TenantCount(key.tenant, dead);
      if n >= cfg.maxProcsPerTenant {
        return M.Refused(M.AtCap), victims;
      }
      pending := pending[key.tenant := (if key.tenant in pending then pending[key.tenant] else 0) + 1];
      spawns := spawns[newSpawn := M.Spawn(key, false, M.ZERO_TIME)];
      spawning := spawning[key := newSpawn];
      return M.Started(newSpawn), victims;
    }

    /** After the spawn (pool.go:318-332): false means the entry it installed is no longer the one mapped. */
    method Attach(key: Key, c: ConnId, now: Time) returns (ok: bool)
      modifies this`table
      ensures ok == M.Attach(old(State()), key, c, now).Some?
      ensures State() == if ok then M.Attach(old(State()), key, c, now).value else old(State())
    {
      if !(key in entries && entries[key] == c) {
        return false;
      }
      table := table[c := Row(c).(lastUsed := now, waiters := Row(c).waiters + 1)];
      return true;
    }

    /** With a slot in hand (pool.go:342-355): false means the slot has to be handed back. */
    method Admit(key: Key, c: ConnId, now: Time, dead: set<ConnId>) returns (ok: bool)
      modifies this`table
      ensures ok == M.Admissible(old(State()), key, c, now, dead)
      ensures State() == M.Admit(old(State()), key, c, now, dead)
    {
      ghost var p := State();
      var e := Row(c);
      table := table[c := e.(waiters := e.waiters - 1)];
      if !(key in entries && entries[key] == c) || c in dead || now > Row(c).deadline {
        return false;
      }
      table := table[c := Row(c).(inflight := e.inflight + 1)];
      assert table == p.table[c := e.(waiters := e.waiters - 1, inflight := e.inflight + 1)];
      return true;
    }

    method Release(c: ConnId, now: Time)
      modifies this`table
      ensures State() == M.FinishCall(old(State()), c, now)
    {
      table := table[c := Row(c).(inflight := Row(c).inflight - 1, lastUsed := now)];
    }

    // ---- Spawns ----

    method ReleasePending(tenant: string)
      modifies this`pending
      ensures State() == M.ReleasePending(old(State()), tenant)
    {
      var n := (if tenant in pending then pending[tenant] else 0) - 1;
      if n > 0 {
        pending := pending[tenant := n];
      } else {
        pending := pending - {tenant};
      }
    }

    method RecordFailure(key: Key, now: Time)
      modifies this`broken
      ensures State() == M.RecordFailure(old(State()), cfg, key, now)
    {
      var br := if key in broken then broken[key] else M.Breaker(0, M.ZERO_TIME);
      br := br.(fails := br.fails + 1);
      if br.fails >= cfg.breakerThreshold {
        br := br.(openUntil := now + cfg.breakerCooldown);
      }
      broken := broken[key := br];
    }

    /** spawnEntry's last section (pool.go:426-493); a refused connection is handed to Close. */
    method Install(sp: SpawnId, conn: ConnId, now: Time, expiry: Option<Time>, dead: set<ConnId>)
      returns (landing: M.Landing, victims: seq<ConnId>)
      requires sp in spawns
      modifies this
      ensures var i := M.Install(old(State()), cfg, sp, conn, now, expiry, dead);
              && State() == i.pool && landing == i.landing
              && Distinct(victims) && Elements(victims) == i.victims
    {
      var key := spawns[sp].key;
      ReleasePending(key.tenant);
      if closed || spawns[sp].stale {
        return if closed then M.ShutDown else M.Retired, [conn];
      }
      broken := broken - {key};
      if key in entries && entries[key] !in dead {
        return M.Adopted(entries[key]), [conn];
      }
      var deadline := now + cfg.maxLifetime;
      if expiry.Some? {
        var d := expiry.value - M.CRED_EXPIRY_SKEW;
        if d < now {
          d := expiry.value;
        }
        if d < deadline {
          deadline := d;
        }
      }
      table := table[conn := M.Entry(key, now, deadline, spawns[sp].built, now, 0, 0, 0)];
      entries := entries[key := conn];
      return M.Installed(conn), [];
    }

    method EndSpawn(sp: SpawnId)
      requires sp in spawns
      modifies this`spawning
      ensures State() == M.EndSpawn(old(State()), sp)
    {
      var key := spawns[sp].key;
      if key in spawning && spawning[key] == sp {
        spawning := spawning - {key};
      }
    }

    // ---- The reaper, eviction and Shutdown ----

    method ReapEntries(now: Time, dead: set<ConnId>) returns (gone: seq<ConnId>)
      requires EntriesOk(State())
      modifies this`entries
      ensures entries == M.Reap(old(State()), cfg, now, dead).pool.entries
      ensures forall c :: c in gone <==>
        exists k :: k in old(entries) && M.Reapable(old(State()), cfg, old(entries)[k], now, dead) && old(entries)[k] == c
      ensures Distinct(gone)
    {
      ghost var p := State();
      var es, rows, limits := entries, table, cfg;
      var goes := (k: Key) => k in es && (
        var c := es[k];
        var e := if c in rows then rows[c] else M.NO_ENTRY;
        var idle := !M.Busy(e) && now - e.lastUsed > limits.idleTTL;
        var aged := !M.Busy(e) && now > e.deadline;
        c in dead || idle || aged);
      assert forall k :: k in es ==> goes(k) == M.Reapable(p, cfg, es[k], now, dead);
      gone := RemoveWhere(goes);
      assert entries == M.Reap(p, cfg, now, dead).pool.entries;
    }

    /** Orphans are collected once dead or drained; the others keep their order. */
    method ReapOrphans(dead: set<ConnId>) returns (spent: seq<ConnId>)
      modifies this`orphans
      ensures orphans == Filter(old(orphans), c => !M.Drained(old(State()), c, dead))
      ensures spent == Filter(old(orphans), c => M.Drained(old(State()), c, dead))
    {
      ghost var p := State();
      var rows := table;
      var goes := (c: ConnId) => c in dead || !M.Busy(if c in rows then rows[c] else M.NO_ENTRY);
      ghost var drained := (c: ConnId) => M.Drained(p, c, dead);
      ghost var busy := (c: ConnId) => !M.Drained(p, c, dead);
      FilterSame(orphans, goes, drained);
      FilterSame(orphans, Not(goes), busy);
      orphans, spent := Partition(orphans, goes);
    }

    method Reap(now: Time, dead: set<ConnId>) returns (victims: seq<ConnId>)
      requires Valid()
      modifies this`entries, this`orphans
      ensures Valid() && State() == M.Reap(old(State()), cfg, now, dead).pool
      ensures Distinct(victims) && Elements(victims) == M.Reap(old(State()), cfg, now, dead).victims
    {
      ghost var p := State();
      var gone := ReapEntries(now, dead);
      ghost var q := State();
      FilterSame(p.orphans, c => M.Drained(q, c, dead), c => M.Drained(p, c, dead));
      FilterSame(p.orphans, c => !M.Drained(q, c, dead), c => !M.Drained(p, c, dead));
      var spent := ReapOrphans(dead);
      FilterDistinct(p.orphans, c => M.Drained(p, c, dead));
      PlacedDiffer(p, gone, spent);
      DistinctJoin(gone, spent);
      victims := gone + spent;
      assert Elements(gone) == set k | k in p.entries && M.Reapable(p, cfg, p.entries[k], now, dead) :: p.entries[k];
      ReapShrinks(p, cfg, now, dead);
      ShrunkPoolOk(p, State());
      hide Distinct, Filter;
    }

    method EvictEntries(server: string, since: Time) returns (gone: seq<ConnId>)
      requires EntriesOk(State())
      modifies this`entries
      ensures entries == M.Evict(old(State()), server, since).pool.entries
      ensures forall c :: c in gone <==>
        exists k :: k in old(entries) && M.EvictsKey(old(State()), k, server, since) && old(entries)[k] == c
      ensures Distinct(gone)
    {
      ghost var p := State();
      var es, rows := entries, table;
      var goes := (k: Key) =>
        k in es && k.server == server && M.DefinedAfter(if es[k] in rows then rows[es[k]] else M.NO_ENTRY, since);
      assert forall k :: k in es ==> goes(k) == M.EvictsKey(p, k, server, since);
      gone := RemoveWhere(goes);
      assert entries == M.Evict(p, server, since).pool.entries;
    }

    method EvictOrphans(server: string, since: Time) returns (spent: seq<ConnId>)
      modifies this`orphans
      ensures orphans == Filter(old(orphans), c => !M.Evictable(old(State()), c, server, since))
      ensures spent == Filter(old(orphans), c => M.Evictable(old(State()), c, server, since))
    {
      ghost var p := State();
      var rows := table;
      var goes := (c: ConnId) =>
        var e := if c in rows then rows[c] else M.NO_ENTRY;
        e.key.server == server && M.DefinedAfter(e, since);
      ghost var evicts := (c: ConnId) => M.Evictable(p, c, server, since);
      ghost var stays := (c: ConnId) => !M.Evictable(p, c, server, since);
      FilterSame(orphans, goes, evicts);
      FilterSame(orphans, Not(goes), stays);
      orphans, spent := Partition(orphans, goes);
    }

    /** The entries and orphans that go, each once. */
    method EvictPlaced(server: string, since: Time) returns (victims: seq<ConnId>)
      requires Valid()
      modifies this`entries, this`orphans
      ensures entries == M.Evict(old(State()), server, since).pool.entries
      ensures orphans == M.Evict(old(State()), server, since).pool.orphans
      ensures Distinct(victims) && Elements(victims) == M.Evict(old(State()), server, since).victims
    {
      ghost var p := State();
      var gone := EvictEntries(server, since);
      ghost var q := State();
      FilterSame(p.orphans, c => M.Evictable(q, c, server, since), c => M.Evictable(p, c, server, since));
      FilterSame(p.orphans, c => !M.Evictable(q, c, server, since), c => !M.Evictable(p, c, server, since));
      var spent := EvictOrphans(server, since);
      FilterDistinct(p.orphans, c => M.Evictable(p, c, server, since));
      PlacedDiffer(p, gone, spent);
      DistinctJoin(gone, spent);
      victims := gone + spent;
      assert Elements(gone) == set k | k in p.entries && M.EvictsKey(p, k, server, since) :: p.entries[k];
      hide Distinct, Filter;
    }

    /** Both EvictServer (since the zero time) and EvictServerSince (pool.go:639-722). */
    method Evict(server: string, since: Time) returns (victims: seq<ConnId>)
      requires Valid()
      modifies this`entries, this`orphans, this`broken, this`spawns
      ensures Valid() && State() == M.Evict(old(State()), server, since).pool
      ensures Distinct(victims) && Elements(victims) == M.Evict(old(State()), server, since).victims
    {
      ghost var p := State();
      EvictShrinks(p, server, since);
      ShrunkPoolOk(p, M.Evict(p, server, since).pool);
      hide M.Evict, EntriesOk, OrphansOk, Shrinks;
      victims := EvictPlaced(server, since);
      ClearBreakers(server);
      EvictTables(p, State(), server, since);
      MarkStale(server, since);
    }

    method ClearBreakers(server: string)
      modifies this`broken
      ensures broken == map k | k in old(broken) && k.server != server :: old(broken)[k]
    {
      ghost var was := broken;
      var todo := broken.Keys;
      while todo != {}
        invariant todo <= was.Keys
        invariant broken == map k | k in was && (k in todo || k.server != server) :: was[k]
        decreases |todo|
      {
        var k :| k in todo;
        todo := todo - {k};
        if k.server == server {
          broken := broken - {k};
        }
      }
    }

    /** Ranges over the spawns in flight: one unstamped, or stamped after since, must not be installed. */
    method MarkStale(server: string, since: Time)
      modifies this`spawns
      ensures spawns == map sp | sp in old(spawns) ::
        if M.Outdated(old(State()), sp, server, since) then old(spawns)[sp].(stale := true) else old(spawns)[sp]
    {
      ghost var p := State();
      var todo := spawning.Keys;
      while todo != {}
        invariant todo <= spawning.Keys
        invariant spawns == Marked(p, server, since, todo)
        decreases |todo|
      {
        var k :| k in todo;
        MarksOne(p, server, since, todo, k);
        hide Marked;
        var sp := spawning[k];
        if sp in spawns && spawns[sp].key == k && k.server == server && (spawns[sp].built == M.ZERO_TIME || spawns[sp].built > since) {
          spawns := spawns[sp := spawns[sp].(stale := true)];
        }
        todo := todo - {k};
      }
    }

    method Shutdown() returns (victims: seq<ConnId>)
      requires Valid()
      modifies this`entries, this`orphans, this`closed
      ensures Valid() && State() == M.Shutdown(old(State())).pool
      ensures Distinct(victims) && Elements(victims) == M.Shutdown(old(State())).victims
    {
      ghost var p := State();
      closed := true;
      var gone := RemoveWhere(_ => true);
      PlacedDiffer(p, gone, orphans);
      DistinctJoin(gone, orphans);
      victims := gone + orphans;
      assert forall c :: c in gone <==> c in p.entries.Values;
      orphans := [];
    }
  }

  /** The spawns once the keys but those still to do have been gone through. */
  ghost function Marked(p: M.Pool, server: string, since: Time, todo: set<Key>): map<SpawnId, M.Spawn> {
    map sp | sp in p.spawns ::
      if M.Outdated(p, sp, server, since) && p.spawns[sp].key !in todo then p.spawns[sp].(stale := true) else p.spawns[sp]
  }

  lemma MarksOne(p: M.Pool, server: string, since: Time, todo: set<Key>, k: Key)
    requires todo <= p.spawning.Keys && k in todo
    ensures var was := Marked(p, server, since, todo); var sp := p.spawning[k];
            Marked(p, server, since, todo - {k}) ==
              if sp in was && was[sp].key == k && k.server == server && (was[sp].built == M.ZERO_TIME || was[sp].built > since)
              then was[sp := was[sp].(stale := true)] else was
  {
  }

  lemma UnmappedOk(p: M.Pool, key: Key)
    requires EntriesOk(p) && OrphansOk(p) && key in p.entries
    ensures EntriesOk(p.(entries := p.entries - {key})) && OrphansOk(p.(entries := p.entries - {key}))
    ensures OrphansOk(p.(entries := p.entries - {key}, orphans := p.orphans + [p.entries[key]]))
  {
    UnmapShrinks(p, key);
    OrphanShrinks(p, key);
    hide OrphansOk;
  }

  lemma RetireKeepsValid(p: M.Pool, key: Key)
    requires EntriesOk(p) && OrphansOk(p)
    ensures var q := M.RetireSuperseded(p, key).pool; EntriesOk(q) && OrphansOk(q)
  {
  }

  lemma EvictTables(p: M.Pool, q: M.Pool, server: string, since: Time)
    requires q.spawning == p.spawning && q.spawns == p.spawns
    ensures M.Evict(p, server, since).pool.broken == map k | k in p.broken && k.server != server :: p.broken[k]
    ensures M.Evict(p, server, since).pool.spawns == map sp | sp in p.spawns ::
      if M.Outdated(q, sp, server, since) then p.spawns[sp].(stale := true) else p.spawns[sp]
  {
  }

  lemma ShrunkPoolOk(p: M.Pool, q: M.Pool)
    requires EntriesOk(p) && Shrinks(p, q)
    ensures EntriesOk(q) && OrphansOk(q)
  {
  }

  /** No mapped connection is an orphan. */
  lemma PlacedDiffer(p: M.Pool, mapped: seq<ConnId>, orphaned: seq<ConnId>)
    requires EntriesOk(p) && OrphansOk(p)
    requires forall c :: c in mapped ==> exists k :: k in p.entries && p.entries[k] == c
    requires forall c :: c in orphaned ==> c in p.orphans
    ensures Elements(mapped) !! Elements(orphaned)
  {
    forall c | c in mapped
      ensures c !in orphaned
    {
      var k :| k in p.entries && p.entries[k] == c;
      assert M.Mapped(p, c);
    }
  }
}
