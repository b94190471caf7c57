/** The credential cache as the objects of cached.go, each section proved to do what its function in CredModel says. */
module CredObject {
  import opened Common
  import M = CredModel
  import S = CredSystem

  type Time = M.Time

  /** The process-wide generation counter. */
  class Counter {
    var last: int

    constructor ()
      ensures last == 0
    {
      last := 0;
    }

    method Next() returns (gen: int)
      modifies this
      ensures gen == last == old(last) + 1
    {
      last := last + 1;
      return last;
    }
  }

  datatype Glance = Serves(creds: M.Creds, gen: int, launch: bool) | Waits(refresh: int) | BacksOff | Resolves

  class CacheEntry {
    const skew: Time
    const jitter: Time
    var creds: Option<M.Creds>
    var gone: Option<M.Creds>
    var gen: int
    var epoch: nat
    var refreshAt: Time
    var refreshing: Option<int>
    var fails: nat
    var retryAt: Time
    var futile: nat
    var invalidateAt: Time
    var lastUsed: Time

    ghost function View(): M.Entry
      reads this
    {
      M.Entry(skew, jitter, creds, gone, gen, epoch, refreshAt, fails, retryAt, futile, invalidateAt)
    }

    constructor (skew: Time, jitter: Time)
      ensures View() == M.NewEntry(skew, jitter) && refreshing == None
    {
      this.skew, this.jitter := skew, jitter;
      creds, gone, gen, epoch, refreshAt, refreshing := None, None, 0, 0, M.ZERO_TIME, None;
      fails, retryAt, futile, invalidateAt := 0, M.ZERO_TIME, 0, M.ZERO_TIME;
    }

    /** The section that looks at the entry first (cached.go:148-185). */
    method Enter(now: Time, newRefresh: int) returns (g: Glance)
      modifies this`refreshing
      ensures M.Servable(View(), now) <==> g.Serves?
      ensures g.Serves? ==> Some(g.creds) == creds && g.gen == gen && M.ValidAt(g.creds, now)
      ensures g.Serves? ==> (g.launch <==>
        creds.value.expiresAt.Some? && now > refreshAt && now > retryAt && old(refreshing).None?)
      ensures refreshing == if g.Serves? && g.launch then Some(newRefresh) else old(refreshing)
      ensures g.Waits? ==> refreshing == Some(g.refresh)
      ensures g.BacksOff? ==> refreshing.None? && now < retryAt
      ensures g.Resolves? ==> refreshing.None? && now >= retryAt && !M.Servable(View(), now)
    {
      if creds.Some? && (creds.value.expiresAt.None? || now < creds.value.expiresAt.value) {
        var due := creds.value.expiresAt.Some? && now > refreshAt && refreshing.None? && now > retryAt;
        if due {
          refreshing := Some(newRefresh);
        }
        return Serves(creds.value, gen, due);
      }
      if refreshing.Some? {
        return Waits(refreshing.value);
      }
      return if now < retryAt then BacksOff else Resolves;
    }

    /** store (cached.go:250-306); false means the material had already expired. */
    method Store(given: Option<M.Creds>, now: Time, counter: Counter) returns (ok: bool)
      requires (this as object) != counter
      modifies this, counter
      ensures refreshing == old(refreshing) && lastUsed == old(lastUsed)
      ensures ok == M.ValidAt(S.Given(given), now)
      ensures View() == if ok then M.Store(old(View()), S.Given(given), now, old(counter.last) + 1) else old(View())
      ensures counter.last == old(counter.last) + Weight(ok && M.Moved(old(View()), S.Given(given)))
    {
      var c := if given.Some? then given.value else M.NOTHING;
      if c.expiresAt.Some? && c.expiresAt.value <= now {
        return false;
      }
      Judge(c, now, counter);
      Arm(c, now);
      creds, gone := Some(c), None;
      epoch := epoch + 1;
      fails, retryAt := 0, M.ZERO_TIME;
      hide M.Moved, M.RefreshAt, M.Backoff;
      return true;
    }

    /** Whether the material moved, and what a refetch that an Invalidate forced was worth. */
    method Judge(c: M.Creds, now: Time, counter: Counter)
      requires (this as object) != counter
      modifies this`gen, this`futile, this`invalidateAt, counter
      ensures var stored := M.Store(old(View()), c, now, old(counter.last) + 1);
              gen == stored.gen && futile == stored.futile && invalidateAt == stored.invalidateAt
      ensures counter.last == old(counter.last) + Weight(M.Moved(old(View()), c))
    {
      var material := if creds.Some? then creds else gone;
      var moved := material.None? || material.value.material != c.material;
      assert moved == M.Moved(View(), c);
      hide M.Backoff, M.RefreshAt;
      if moved {
        gen := counter.Next();
        futile, invalidateAt := 0, M.ZERO_TIME;
      } else if creds.None? && gone.Some? {
        futile := futile + 1;
        invalidateAt := now + M.Backoff(futile);
      }
    }

    /** When refresh-ahead should begin. */
    method Arm(c: M.Creds, now: Time)
      modifies this`refreshAt
      ensures refreshAt == M.RefreshAt(old(View()), c, now)
    {
      if c.expiresAt.Some? {
        var lead := skew + jitter;
        var ttl := c.expiresAt.value - now;
        if lead > ttl / 2 {
          lead := ttl / 2;
        }
        refreshAt := c.expiresAt.value - lead;
        if creds.Some? && creds.value.expiresAt.Some? && c.expiresAt.value <= creds.value.expiresAt.value {
          refreshAt := now + skew;
        }
      }
    }

    method Fail(now: Time)
      modifies this`fails, this`retryAt
      ensures View() == M.Fail(old(View()), now)
    {
      fails := fails + 1;
      retryAt := now + M.Backoff(fails);
    }

    /** The end of refreshAhead (cached.go:222-240); a result the entry has moved past is discarded. */
    method Refreshed(startEpoch: nat, given: Result<Option<M.Creds>, string>, now: Time, failedAt: Time, counter: Counter)
      requires (this as object) != counter
      modifies this, counter
      ensures refreshing == None && lastUsed == old(lastUsed)
      ensures old(epoch) != startEpoch ==> View() == old(View()) && counter.last == old(counter.last)
      ensures old(epoch) == startEpoch ==>
        View() == if given.Ok? && M.ValidAt(S.Given(given.value), now)
                  then M.Store(old(View()), S.Given(given.value), now, old(counter.last) + 1)
                  else M.Fail(old(View()), failedAt)
    {
      refreshing := None;
      if epoch != startEpoch {
        return;
      }
      var ok := false;
      if given.Ok? {
        ok := Store(given.value, now, counter);
      }
      if !ok {
        Fail(failedAt);
      }
    }

    /** Invalidate (cached.go:330-362). */
    method Invalidate(now: Time)
      modifies this
      ensures View() == M.Drop(old(View()), now) && refreshing == old(refreshing) && lastUsed == old(lastUsed)
    {
      if now < invalidateAt {
        return;
      }
      fails, retryAt := 0, M.ZERO_TIME;
      epoch := epoch + 1;
      if creds.None? {
        futile := futile + 1;
        invalidateAt := now + M.Backoff(futile);
        return;
      }
      gone := creds;
      creds := None;
    }
  }

  class CachedResolver {
    const skew: Time
    var entries: map<S.CacheKey, CacheEntry>
    var lastSweep: Time

    constructor (skew: Time)
      ensures entries == map[] && lastSweep == M.ZERO_TIME && this.skew == skew
    {
      this.skew := skew;
      entries, lastSweep := map[], M.ZERO_TIME;
    }

    /** The entry for k, made if need be; now and then, entries nobody asks for are dropped (cached.go:364-384). */
    method Entry(k: S.CacheKey, now: Time, jitter: Time) returns (e: CacheEntry)
      modifies this, (set q | q in entries :: entries[q])`lastUsed
      ensures var sweeps := now - old(lastSweep) > S.SWEEP_EVERY;
              && lastSweep == (if sweeps then now else old(lastSweep))
              && entries == (map q | q in old(entries)
                && !(sweeps && q != k && now - old(entries[q].lastUsed) > S.IDLE_EVICT) :: old(entries)[q])[k := e]
      ensures if k in old(entries) then e == old(entries)[k]
              else fresh(e) && e.View() == M.NewEntry(skew, jitter) && e.refreshing == None
      ensures e.lastUsed == now
      ensures forall q :: q in old(entries) && old(entries)[q] != e ==> old(entries)[q].lastUsed == old(entries[q].lastUsed)
    {
      var sweeps := now - lastSweep > S.SWEEP_EVERY;
      ghost var was := entries;
      if sweeps {
        lastSweep := now;
        Sweep(k, now);
      }
      if k in entries {
        e := entries[k];
      } else {
        e := new CacheEntry(skew, jitter);
        entries := entries[k := e];
      }
      e.lastUsed := now;
    }

    method Sweep(k: S.CacheKey, now: Time)
      modifies this`entries
      ensures entries == map q | q in old(entries)
        && !(q != k && now - old(entries)[q].lastUsed > S.IDLE_EVICT) :: old(entries)[q]
    {
      ghost var was := entries;
      var todo := entries.Keys;
      while todo != {}
        invariant todo <= was.Keys
        invariant entries == map q | q in was
          && (q in todo || !(q != k && now - was[q].lastUsed > S.IDLE_EVICT)) :: was[q]
        decreases |todo|
      {
        var q :| q in todo;
        todo := todo - {q};
        if q != k && now - entries[q].lastUsed > S.IDLE_EVICT {
          entries := entries - {q};
        }
      }
    }
  }
}
