/** The config source as the objects of dedup.go, file.go and run.go. */
module ConfigSource {
  import opened Common
  import opened ConfigModel

  class ChangeFilter {
    var last: string
    var seen: bool
    var swallowed: bool

    ghost function View(): Filter
      reads this
    {
      Filter(last, seen, swallowed)
    }

    constructor ()
      ensures View() == NEW_FILTER
    {
      last, seen, swallowed := "", false, false;
    }

    method Changed(cfg: Content) returns (emit: bool)
      modifies this
      ensures emit <==> !Suppresses(old(View()), cfg)
      ensures View() == ConfigModel.Changed(old(View()), cfg)
    {
      var hash := if cfg.hashable then cfg.text else "";
      if cfg.hashable && seen && hash == last {
        swallowed := true;
        return false;
      }
      last, seen, swallowed := hash, cfg.hashable, false;
      return true;
    }

    method Retry() returns (refire: bool)
      modifies this
      ensures refire == old(swallowed) && View() == Retried(old(View()))
    {
      seen := false;
      refire, swallowed := swallowed, false;
    }
  }

  /** A channel that holds one trigger: sending to a full one is dropped. */
  class Trigger {
    var full: bool

    constructor ()
      ensures !full
    {
      full := false;
    }
  }

  /** The filters and triggers of every live Watch on one source. */
  class File {
    var filters: set<ChangeFilter>
    var watchers: set<Trigger>

    constructor ()
      ensures filters == {} && watchers == {}
    {
      filters, watchers := {}, {};
    }

    /** What Watch registers before its goroutine starts. */
    method Attach() returns (f: ChangeFilter, w: Trigger)
      modifies this
      ensures fresh(f) && fresh(w) && f.View() == NEW_FILTER && !w.full
      ensures filters == old(filters) + {f} && watchers == old(watchers) + {w}
    {
      f := new ChangeFilter();
      w := new Trigger();
      filters, watchers := filters + {f}, watchers + {w};
    }

    method Release(f: ChangeFilter, w: Trigger)
      modifies this
      ensures filters == old(filters) - {f} && watchers == old(watchers) - {w}
    {
      filters, watchers := filters - {f}, watchers - {w};
    }

    /** Every watcher gets the trigger, not whichever comes first. */
    method Reload()
      modifies watchers
      ensures forall w :: w in watchers ==> w.full
    {
      var todo := watchers;
      while todo != {}
        invariant todo <= watchers && forall w :: w in watchers && w !in todo ==> w.full
        decreases |todo|
      {
        var w :| w in todo;
        todo := todo - {w};
        w.full := true;
      }
    }

    /** filterSet.retry: every live filter is cleared; true if any of them had swallowed a trigger. */
    method RetryFilters() returns (refire: bool)
      modifies filters
      ensures forall f :: f in filters ==> f.View() == Retried(old(f.View()))
      ensures refire <==> exists f :: f in filters && old(f.swallowed)
    {
      refire := false;
      var live := filters;
      while live != {}
        invariant live <= filters
        invariant forall f :: f in filters ==> f.View() == if f in live then old(f.View()) else Retried(old(f.View()))
        invariant refire <==> exists f :: f in filters && f !in live && old(f.swallowed)
        decreases |live|
      {
        var f :| f in live;
        live := live - {f};
        var one := f.Retry();
        if one {
          refire := true;
        }
      }
    }

    /** File.Retry: no Watch's trigger is lost to another's failure. */
    method Retry()
      modifies filters, watchers
      ensures forall f :: f in filters ==> !f.seen && !f.swallowed
      ensures (exists f :: f in filters && old(f.swallowed)) ==> forall w :: w in watchers ==> w.full
      ensures (forall f :: f in filters ==> !old(f.swallowed)) ==> forall w :: w in watchers ==> w.full == old(w.full)
    {
      var refire := RetryFilters();
      if refire {
        Reload();
      }
    }
  }

  /** One update received by Run: an error of the source, or a config and whether applying it succeeded. */
  datatype Received = SourceError | Config(applies: bool)

  predicate Good(u: Received) { u.Config? && u.applies }

  /** Run's loop (run.go:45-85): whether it ended in an error, and after which updates it called Retry. */
  method Run(updates: seq<Received>) returns (fatal: bool, retried: seq<nat>)
    ensures fatal <==> updates != [] && !Good(updates[0])
    ensures !fatal ==> forall i :: i in retried <==> 0 <= i < |updates| && updates[i] == Config(false)
  {
    var serving := false;
    retried := [];
    for i := 0 to |updates|
      invariant serving <==> i > 0
      invariant i > 0 ==> Good(updates[0])
      invariant forall k :: k in retried <==> 0 <= k < i && updates[k] == Config(false)
    {
      match updates[i] {
        case SourceError =>
          if !serving {
            return true, retried;
          }
        case Config(applies) =>
          if !applies {
            if !serving {
              return true, retried;
            }
            retried := retried + [i];
          } else {
            serving := true;
          }
      }
    }
    return false, retried;
  }
}
