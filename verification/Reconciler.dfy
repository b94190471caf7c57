/** The reconciler and the set of bound services as the objects that hold them. */
module ReconcilerObject {
  import opened Common
  import opened R = ReconcileModel

  /** One uninterrupted Apply: what Begin, Publish and Refuse or Accept do in turn. */
  function Whole(r: R.Reconciler, next: Option<Config>, now: Time, bound: bool): R.Reconciler
    requires r.progress.Idle?
  {
    var b := Begin(r, next, now);
    if b.progress.Idle? then b
    else if bound then Accept(Publish(b))
    else Refuse(Publish(b))
  }

  class Reconciler {
    var cur: Option<Config>
    var failed: Option<Config>

    constructor ()
      ensures cur == None && failed == None
    {
      cur, failed := None, None;
    }

    /** The second loop of diffServers (reconcile.go:414-418). */
    method Removed(a: map<string, Definition>, b: map<string, Definition>) returns (removed: set<string>)
      ensures removed == a.Keys - b.Keys
    {
      removed := {};
      var todo := a.Keys;
      while todo != {}
        invariant todo <= a.Keys
        invariant forall n :: n in removed <==> n in a && n !in todo && n !in b
        decreases |todo|
      {
        var n :| n in todo;
        todo := todo - {n};
        if n !in b {
          removed := removed + {n};
        }
      }
    }

    /** diffServers (reconcile.go:395-424), the names as sets. */
    method DiffServers(prev: Option<Config>, next: Config) returns (d: Delta)
      ensures d == Diff(prev, next)
    {
      var a, b := ServersOf(prev), next.servers;
      var added, changed := {}, {};
      var todo := b.Keys;
      while todo != {}
        invariant todo <= b.Keys
        invariant forall n :: n in added <==> n in b && n !in todo && n !in a
        invariant forall n :: n in changed <==> n in b && n !in todo && n in a && a[n] != b[n]
        decreases |todo|
      {
        var n :| n in todo;
        todo := todo - {n};
        if n !in a {
          added := added + {n};
        } else if a[n] != b[n] {
          changed := changed + {n};
        }
      }
      var removed := Removed(a, b);
      d := Delta(added, removed, changed);
      assert added == Diff(prev, next).added && removed == Diff(prev, next).removed;
      assert changed == Diff(prev, next).changed;
    }

    /** transition (reconcile.go:164-266), given what SetServers answered; the eviction runs after it. */
    method Transition(next: Option<Config>, now: Time, bound: bool) returns (owed: Option<Eviction>, ok: bool)
      modifies this
      ensures var w := Whole(R.Reconciler(old(cur), old(failed), Idle), next, now, bound);
              && cur == w.cur && failed == w.failed
              && owed == (if w.progress.Evicting? then Some(w.progress.owed) else None)
      ensures owed.Some? ==> var a, b := ServersOf(old(cur)), Revision(next).servers;
                && owed.value.since == (if ok then 0 else now)
                && forall n :: n in owed.value.servers <==>
                     if ok then n in a && !(n in b && a[n] == b[n]) else n in b && !(n in a && a[n] == b[n])
      ensures owed.None? <==> ServersOf(old(cur)) == Revision(next).servers || (!ok && old(failed) == Some(Revision(next)))
      ensures !ok ==> cur == old(cur) && failed == Some(Revision(next))
      ensures ok ==> cur == Some(Revision(next)) && failed == None
    {
      var rev := if next.Some? then next.value else EMPTY_CONFIG;
      var prev := cur;
      var d := DiffServers(prev, rev);
      EmptyIsSame(prev, rev);
      if d.added == {} && d.removed == {} && d.changed == {} {
        cur, failed := Some(rev), None;
        return None, true;
      }
      var publish := failed != Some(rev);
      if publish {
        cur := Some(rev);
      }
      if !bound {
        failed := Some(rev);
        if !publish {
          return None, false;
        }
        cur := prev;
        return Some(Eviction(d.changed + d.added, now)), false;
      }
      cur, failed := Some(rev), None;
      return Some(Eviction(d.removed + d.changed, 0)), true;
    }
  }

  /**
  The micro services of one gateway. A name in refused cannot be added, one in stuck cannot be
  stopped; a service that will not stop is kept (server.go:265-346).
  */
  class Services {
    var bound: set<string>

    constructor ()
      ensures bound == {}
    {
      bound := {};
    }

    method Stop(names: seq<string>, stuck: set<string>)
      modifies this
      ensures bound == old(bound) - (Elements(names) - stuck)
    {
      for i := 0 to |names|
        invariant bound == old(bound) - (Elements(names[..i]) - stuck)
      {
        assert Elements(names[..i + 1]) == Elements(names[..i]) + {names[i]};
        if names[i] in bound && names[i] !in stuck {
          bound := bound - {names[i]};
        }
      }
      assert names[..|names|] == names;
    }

    /** The bound services that names leaves out, each once. */
    method Unwanted(names: seq<string>) returns (stale: seq<string>)
      ensures forall n :: n in stale <==> n in bound && n !in names
    {
      stale := [];
      var todo := bound;
      while todo != {}
        invariant todo <= bound
        invariant forall n :: n in stale <==> n in bound && n !in todo && n !in names
        decreases |todo|
      {
        var n :| n in todo;
        todo := todo - {n};
        if n !in names {
          stale := stale + [n];
        }
      }
    }

    /** Adds come first, so a failure can be rolled back to the set that was found. */
    method SetServers(names: seq<string>, refused: set<string>, stuck: set<string>) returns (ok: bool)
      modifies this
      ensures ok <==> forall n :: n in names && n in refused ==> n in old(bound)
      ensures ok ==> bound == Elements(names) + old(bound) * stuck
      ensures !ok ==> old(bound) <= bound <= old(bound) + Elements(names) * stuck
    {
      var added := [];
      for i := 0 to |names|
        invariant bound == old(bound) + Elements(names[..i])
        invariant Elements(added) == Elements(names[..i]) - old(bound)
        invariant forall n :: n in names[..i] && n in refused ==> n in old(bound)
      {
        assert Elements(names[..i + 1]) == Elements(names[..i]) + {names[i]};
        if names[i] !in bound {
          if names[i] in refused {
            Stop(added, stuck);
            return false;
          }
          bound := bound + {names[i]};
          assert Elements(added + [names[i]]) == Elements(added) + {names[i]};
          added := added + [names[i]];
        }
      }
      assert names[..|names|] == names;
      var stale := Unwanted(names);
      Stop(stale, stuck);
      return true;
    }
  }
}
