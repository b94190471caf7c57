/**
The reconciler as a value: the diff, and the steps of one Apply that other goroutines can see.

A definition stands for the text that serverEqual compares and a config for the text that
revisionKey compares, so equality of values is the source's own equality.
*/
module ReconcileModel {
  import opened Common

  type Time = int
  type Definition = string

  datatype Config = Config(servers: map<string, Definition>, nats: string)

  const EMPTY_CONFIG: Config := Config(map[], "")

  function ServersOf(c: Option<Config>): map<string, Definition> {
    if c.Some? then c.value.servers else map[]
  }

  datatype Delta = Delta(added: set<string>, removed: set<string>, changed: set<string>)

  function Diff(prev: Option<Config>, next: Config): Delta {
    var a, b := ServersOf(prev), next.servers;
    Delta(
      set n | n in b && n !in a,
      set n | n in a && n !in b,
      set n | n in b && n in a && a[n] != b[n])
  }

  predicate Empty(d: Delta) { d.added == {} && d.removed == {} && d.changed == {} }

  /** The diff is empty exactly if every server has the definition it had. */
  lemma EmptyIsSame(prev: Option<Config>, next: Config)
    ensures Empty(Diff(prev, next)) <==> ServersOf(prev) == next.servers
  {
    var a, b, d := ServersOf(prev), next.servers, Diff(prev, next);
    if Empty(d) {
      forall n | n in a || n in b
        ensures n in a && n in b && a[n] == b[n]
      {
        assert n !in d.added && n !in d.removed && n !in d.changed;
      }
      assert a == b;
    }
  }

  /** What one Apply still owes the pool: the servers to evict, bounded by since. */
  datatype Eviction = Eviction(servers: set<string>, since: Time)

  datatype Progress =
    | Idle
    | Opened(rev: Config, prev: Option<Config>, windowStart: Time, publish: bool)
    | Binding(rev: Config, prev: Option<Config>, windowStart: Time, publish: bool)
    | Evicting(owed: Eviction)

  datatype Reconciler = Reconciler(cur: Option<Config>, failed: Option<Config>, progress: Progress)

  const INITIAL: Reconciler := Reconciler(None, None, Idle)

  function Revision(next: Option<Config>): Config {
    if next.Some? then next.value else EMPTY_CONFIG
  }

  function Adopt(r: Reconciler, rev: Config): Reconciler {
    r.(cur := Some(rev), failed := None)
  }

  function FailedBefore(r: Reconciler, rev: Config): bool { r.failed == Some(rev) }

  /** Taking mu, the diff, and the sampling of windowStart (reconcile.go:176-211). */
  function Begin(r: Reconciler, next: Option<Config>, now: Time): Reconciler {
    var rev := Revision(next);
    if Empty(Diff(r.cur, rev)) then Adopt(r, rev)
    else r.(progress := Opened(rev, r.cur, now, !FailedBefore(r, rev)))
  }

  /** The store that makes the revision reachable, unless it has just failed (reconcile.go:212-214). */
  function Publish(r: Reconciler): Reconciler
    requires r.progress.Opened?
  {
    var w := r.progress;
    r.(cur := if w.publish then Some(w.rev) else r.cur,
       progress := Binding(w.rev, w.prev, w.windowStart, w.publish))
  }

  /** SetServers failed (reconcile.go:215-254). */
  function Refuse(r: Reconciler): Reconciler
    requires r.progress.Binding?
  {
    var w := r.progress;
    var d := Diff(w.prev, w.rev);
    if !w.publish then r.(failed := Some(w.rev), progress := Idle)
    else Reconciler(w.prev, Some(w.rev), Evicting(Eviction(d.changed + d.added, w.windowStart)))
  }

  /** SetServers succeeded (reconcile.go:256-261); the zero time bounds nothing. */
  function Accept(r: Reconciler): Reconciler
    requires r.progress.Binding?
  {
    var w := r.progress;
    var d := Diff(w.prev, w.rev);
    Adopt(r, w.rev).(progress := Evicting(Eviction(d.removed + d.changed, 0)))
  }

  /** One EvictServer or EvictServerSince call has returned. */
  function Evicted(r: Reconciler, server: string): Reconciler
    requires r.progress.Evicting?
  {
    r.(progress := Evicting(r.progress.owed.(servers := r.progress.owed.servers - {server})))
  }

  function Finish(r: Reconciler): Reconciler { r.(progress := Idle) }
}
