/**
Config redelivery: a file source without polling, its change filter and coalescing trigger, and the
loop that applies what it emits (dedup.go, file.go, run.go), as one transition system.
*/
module ConfigModel {
  import opened Common

  /** A parsed config as the text its hash identifies; hashable is false where marshalling it fails. */
  datatype Content = Content(text: string, hashable: bool)

  datatype Filter = Filter(last: string, seen: bool, swallowed: bool)

  const NEW_FILTER: Filter := Filter("", false, false)

  predicate Suppresses(f: Filter, c: Content) { c.hashable && f.seen && c.text == f.last }

  /** changed, given what it answers. */
  function Changed(f: Filter, c: Content): Filter {
    if Suppresses(f, c) then f.(swallowed := true)
    else Filter(if c.hashable then c.text else "", c.hashable, false)
  }

  function Retried(f: Filter): Filter { f.(seen := false, swallowed := false) }

  /** The goroutine behind Watch. */
  datatype Watcher = Idle | Loaded(cfg: Content) | Sending(cfg: Content) | Reporting

  /** Run: receiving, inside apply, about to call Retry, about to fire the lost trigger again, or returned. */
  datatype Consumer = Receiving | Applying(cfg: Content) | Failing(cfg: Content) | Refiring | Stopped

  /**
  refires tells File, whose Retry fires a swallowed trigger again, from a source that only has
  filterSet's Retry. owed counts the refirings due to other Watches on the same source; unread is what
  the latest read found if the filter suppressed it.
  */
  datatype Sys = Sys(
    refires: bool, filter: Filter, trigger: bool, watcher: Watcher, consumer: Consumer, serving: bool,
    applied: Option<Content>, owed: nat, unread: Option<Content>)

  function Start(refires: bool): Sys {
    Sys(refires, NEW_FILTER, true, Idle, Receiving, false, None, 0, None)
  }

  datatype Action =
    | Reload
    | OtherRetry
    | OtherRefire
    | Load(found: Option<Content>)
    | Compare
    | Deliver
    | ApplyEnds(ok: bool)
    | Retry
    | Refire

  /** An action of the operator or of another Watch; all others are this Watch's and Run's own. */
  predicate External(a: Action) { a.Reload? || a.OtherRetry? }

  function Step(s: Sys, a: Action): Option<Sys> {
    match a
    case Reload => Some(s.(trigger := true))
    case OtherRetry =>
      Some(s.(filter := Retried(s.filter), owed := s.owed + if s.refires && s.filter.swallowed then 1 else 0))
    case OtherRefire => if s.owed == 0 then None else Some(s.(trigger := true, owed := s.owed - 1))
    case Load(found) =>
      if !(s.trigger && s.watcher.Idle?) then None
      else
        Some(s.(trigger := false, unread := None, watcher := if found.Some? then Loaded(found.value) else Reporting))
    case Compare =>
      if !s.watcher.Loaded? then None
      else
        var c := s.watcher.cfg;
        var t := s.(filter := Changed(s.filter, c));
        Some(if Suppresses(s.filter, c) then t.(watcher := Idle, unread := Some(c)) else t.(watcher := Sending(c)))
    case Deliver =>
      if !s.consumer.Receiving? then None
      else if s.watcher.Sending? then Some(s.(watcher := Idle, consumer := Applying(s.watcher.cfg)))
      else if s.watcher.Reporting? then
        Some(s.(watcher := Idle, consumer := if s.serving then Receiving else Stopped))
      else None
    case ApplyEnds(ok) =>
      if !s.consumer.Applying? then None
      else if ok then Some(s.(applied := Some(s.consumer.cfg), consumer := Receiving, serving := true))
      else Some(s.(consumer := if s.serving then Failing(s.consumer.cfg) else Stopped))
    case Retry =>
      if !s.consumer.Failing? then None
      else
        Some(s.(filter := Retried(s.filter),
                consumer := if s.refires && s.filter.swallowed then Refiring else Receiving))
    case Refire => if !s.consumer.Refiring? then None else Some(s.(trigger := true, consumer := Receiving))
  }

  function Run(refires: bool, acts: seq<Action>): Option<Sys> {
    if acts == [] then Some(Start(refires))
    else
      var before := Run(refires, acts[..|acts| - 1]);
      if before.None? then None else Step(before.value, acts[|acts| - 1])
  }

  // ---- What the baseline means ----

  predicate Same(a: Content, text: string) { a.hashable && a.text == text }

  /** In flight to Run: on its way, being applied, or failed and not yet reported back. */
  predicate InFlight(s: Sys, text: string) {
    || (s.watcher.Sending? && Same(s.watcher.cfg, text))
    || ((s.consumer.Applying? || s.consumer.Failing?) && Same(s.consumer.cfg, text))
  }

  predicate Adopted(s: Sys, text: string) { s.applied.Some? && Same(s.applied.value, text) }

  /** The watcher can do nothing more and neither can Run: only a new trigger will move them. */
  predicate Quiet(s: Sys) { !s.trigger && s.watcher.Idle? && s.consumer.Receiving? && s.owed == 0 }

  predicate BaselineOk(s: Sys) {
    && (s.filter.seen && s.watcher.Sending? ==> Same(s.watcher.cfg, s.filter.last))
    && (s.filter.seen && !s.watcher.Sending? && !s.consumer.Stopped? ==>
          if s.consumer.Applying? || s.consumer.Failing? then Same(s.consumer.cfg, s.filter.last)
          else Adopted(s, s.filter.last))
    && (s.filter.swallowed ==> s.filter.seen)
    && (s.consumer.Failing? ==> s.serving)
  }

  /** A read that was suppressed is remembered by the filter, or a trigger is on its way to replace it. */
  predicate UnreadOk(s: Sys) {
    && (s.unread.Some? ==> s.watcher.Idle?)
    && (s.unread.Some? && s.refires ==>
      || (s.filter.swallowed && Same(s.unread.value, s.filter.last))
      || s.trigger || s.owed > 0 || s.consumer.Refiring? || s.consumer.Stopped?)
  }

  lemma StepKeepsBaseline(s: Sys, a: Action)
    requires BaselineOk(s) && Step(s, a).Some?
    ensures BaselineOk(Step(s, a).value)
  {
  }

  lemma StepKeepsUnread(s: Sys, a: Action)
    requires BaselineOk(s) && UnreadOk(s) && Step(s, a).Some?
    ensures UnreadOk(Step(s, a).value) && Step(s, a).value.refires == s.refires
  {
  }

  lemma {:induction false} RunInv(refires: bool, acts: seq<Action>)
    requires Run(refires, acts).Some?
    ensures var s := Run(refires, acts).value; s.refires == refires && BaselineOk(s) && UnreadOk(s)
  {
    if acts != [] {
      RunInv(refires, acts[..|acts| - 1]);
      var s := Run(refires, acts[..|acts| - 1]).value;
      StepKeepsBaseline(s, acts[|acts| - 1]);
      StepKeepsUnread(s, acts[|acts| - 1]);
      hide Step, BaselineOk, UnreadOk;
    }
  }

  /** A revision is withheld only while the same content is in flight to Run, or once Run has adopted it. */
  lemma SuppressedOnlyIfDelivered(refires: bool, acts: seq<Action>)
    requires Run(refires, acts).Some? && Run(refires, acts).value.watcher.Loaded?
    ensures var s := Run(refires, acts).value;
            Suppresses(s.filter, s.watcher.cfg) && !s.consumer.Stopped? ==>
              InFlight(s, s.watcher.cfg.text) || Adopted(s, s.watcher.cfg.text)
  {
    RunInv(refires, acts);
    hide Run;
  }

  /** The text that went out last on this Watch, unless it could not be hashed or Retry has forgotten it since. */
  function LastSent(refires: bool, acts: seq<Action>): Option<string> {
    if acts == [] || Run(refires, acts).None? then None
    else
      var front, a := acts[..|acts| - 1], acts[|acts| - 1];
      var s := Run(refires, front).value;
      if a.Retry? || a.OtherRetry? then None
      else if a.Compare? && s.watcher.Loaded? && Run(refires, acts).value.watcher.Sending? then
        if s.watcher.cfg.hashable then Some(s.watcher.cfg.text) else None
      else LastSent(refires, front)
  }

  lemma FilterStep(s: Sys, a: Action)
    requires Step(s, a).Some?
    ensures var t := Step(s, a).value;
            if a.Retry? || a.OtherRetry? then !t.filter.seen
            else if a.Compare? && t.watcher.Sending? then
              s.watcher.Loaded? && t.filter.seen == s.watcher.cfg.hashable && (t.filter.seen ==> t.filter.last == s.watcher.cfg.text)
            else t.filter.seen == s.filter.seen && t.filter.last == s.filter.last
  {
  }

  lemma {:induction false} FilterIsLastSent(refires: bool, acts: seq<Action>)
    requires Run(refires, acts).Some?
    ensures var f := Run(refires, acts).value.filter; LastSent(refires, acts) == if f.seen then Some(f.last) else None
  {
    if acts != [] {
      var front, a := acts[..|acts| - 1], acts[|acts| - 1];
      FilterIsLastSent(refires, front);
      FilterStep(Run(refires, front).value, a);
      hide Step, Suppresses;
    }
  }

  /** A revision is suppressed exactly if it can be hashed and repeats what went out last, with no Retry since; otherwise it goes out. */
  lemma SuppressedExactly(refires: bool, acts: seq<Action>)
    requires Run(refires, acts).Some? && Run(refires, acts).value.watcher.Loaded?
    ensures var s := Run(refires, acts).value; var c := s.watcher.cfg;
            Step(s, Compare).Some? && Step(s, Compare).value.watcher ==
              if c.hashable && LastSent(refires, acts) == Some(c.text) then Idle else Sending(c)
  {
    FilterIsLastSent(refires, acts);
    hide Run, LastSent;
  }

  /** An apply failed, or a read was reported broken, before any apply had succeeded. */
  predicate BadFirst(refires: bool, acts: seq<Action>) {
    acts != [] && Run(refires, acts).Some? &&
    var front, a := acts[..|acts| - 1], acts[|acts| - 1];
    || BadFirst(refires, front)
    || (ApplyEnds(true) !in front
        && (a == ApplyEnds(false) || (a == Deliver && Run(refires, front).value.watcher.Reporting?)))
  }

  lemma ServingStep(s: Sys, a: Action)
    requires Step(s, a).Some? && (s.consumer.Stopped? ==> !s.serving)
    ensures var t := Step(s, a).value;
            && t.serving == (s.serving || a == ApplyEnds(true)) && (t.consumer.Stopped? ==> !t.serving)
            && (t.consumer.Stopped? <==>
                  s.consumer.Stopped? || (!s.serving && (a == ApplyEnds(false) || (a == Deliver && s.watcher.Reporting?))))
            && (a == ApplyEnds(false) && s.serving ==> t.consumer == Failing(s.consumer.cfg))
  {
  }

  /** Run gives up exactly if its first update is bad; later ones it survives, and a failed apply is then reported back. */
  lemma {:induction false} StopsExactly(refires: bool, acts: seq<Action>)
    requires Run(refires, acts).Some?
    ensures var s := Run(refires, acts).value;
            && (s.serving <==> ApplyEnds(true) in acts) && (s.consumer.Stopped? ==> !s.serving)
            && (s.consumer.Stopped? <==> BadFirst(refires, acts))
            && (s.consumer.Applying? && s.serving ==> Step(s, ApplyEnds(false)).value.consumer == Failing(s.consumer.cfg))
  {
    var s := Run(refires, acts).value;
    if acts != [] {
      var front, a := acts[..|acts| - 1], acts[|acts| - 1];
      assert acts == front + [a];
      StopsExactly(refires, front);
      ServingStep(Run(refires, front).value, a);
    }
    if s.consumer.Applying? {
      ServingStep(s, ApplyEnds(false));
    }
    hide Step;
  }

  /** No wake-up is lost: when all is quiet, what the latest suppressed read found is what Run last adopted. */
  lemma NoLostWakeup(acts: seq<Action>)
    requires Run(true, acts).Some? && Quiet(Run(true, acts).value)
    ensures var s := Run(true, acts).value; s.unread.Some? ==> Adopted(s, s.unread.value.text)
  {
    RunInv(true, acts);
    hide Run;
  }

  /**
  Dedup round a source that pushes and is not Retryable has only filterSet's Retry: a revision pushed
  while its own apply was failing is lost. All is quiet, the latest content is "b", and "a" runs.
  */
  lemma DedupAloneLosesAWakeup()
    ensures var a, b := Content("a", true), Content("b", true);
            var acts := [Load(Some(a)), Compare, Deliver, ApplyEnds(true)]
              + [Reload, Load(Some(b)), Compare, Deliver, Reload, Load(Some(b)), Compare, ApplyEnds(false), Retry];
            && Run(false, acts).Some? && Quiet(Run(false, acts).value)
            && Run(false, acts).value.unread == Some(b) && Run(false, acts).value.applied == Some(a)
  {
    var a, b := Content("a", true), Content("b", true);
    var r, s := [], Start(false);
    assert Run(false, r) == Some(s);
    hide Run;
    r, s := Extend(false, r, s, Load(Some(a)));
    r, s := Extend(false, r, s, Compare);
    r, s := Extend(false, r, s, Deliver);
    r, s := Extend(false, r, s, ApplyEnds(true));
    assert r == [Load(Some(a)), Compare, Deliver, ApplyEnds(true)];
    r, s := PushedWhileFailing(r, s, a, b);
  }

  lemma PushedWhileFailing(front: seq<Action>, before: Sys, a: Content, b: Content) returns (r: seq<Action>, s: Sys)
    requires Run(false, front) == Some(before) && a != b && a.hashable && b.hashable
    requires before == Start(false).(filter := Filter(a.text, true, false), trigger := false, serving := true, applied := Some(a))
    ensures r == front + [Reload, Load(Some(b)), Compare, Deliver, Reload, Load(Some(b)), Compare, ApplyEnds(false), Retry]
    ensures Run(false, r) == Some(s) && Quiet(s) && s.unread == Some(b) && s.applied == Some(a)
  {
    r, s := front, before;
    hide Run;
    r, s := Extend(false, r, s, Reload);
    r, s := Extend(false, r, s, Load(Some(b)));
    r, s := Extend(false, r, s, Compare);
    r, s := Extend(false, r, s, Deliver);
    r, s := Extend(false, r, s, Reload);
    r, s := Extend(false, r, s, Load(Some(b)));
    r, s := Extend(false, r, s, Compare);
    r, s := Extend(false, r, s, ApplyEnds(false));
    r, s := Extend(false, r, s, Retry);
  }

  /** A run, one step longer. */
  lemma Extend(refires: bool, acts: seq<Action>, s: Sys, a: Action) returns (more: seq<Action>, t: Sys)
    requires Run(refires, acts) == Some(s) && Step(s, a).Some?
    ensures more == acts + [a] && t == Step(s, a).value && Run(refires, more) == Some(t)
  {
    more, t := acts + [a], Step(s, a).value;
    assert more[..|acts|] == acts;
  }

  /** If all is quiet, the content that the latest suppressed read found is the one applied. */
  predicate KeepsWakeup(refires: bool, acts: seq<Action>) {
    Run(refires, acts).Some? && Quiet(Run(refires, acts).value) && Run(refires, acts).value.unread.Some? ==>
      Adopted(Run(refires, acts).value, Run(refires, acts).value.unread.value.text)
  }

  /** A source keeps every wake-up in every run exactly when its Retry fires a swallowed trigger again. */
  lemma WakeupsKeptByRefiring(refires: bool)
    ensures (forall acts :: KeepsWakeup(refires, acts)) <==> refires
  {
    hide Run;
    if refires {
      forall acts
        ensures KeepsWakeup(refires, acts)
      {
        if Run(refires, acts).Some? && Quiet(Run(refires, acts).value) {
          NoLostWakeup(acts);
        }
      }
    } else {
      var lost := LosingRun();
      assert !KeepsWakeup(refires, lost);
    }
  }

  lemma LosingRun() returns (acts: seq<Action>)
    ensures Run(false, acts).Some? && Quiet(Run(false, acts).value)
    ensures Run(false, acts).value.unread == Some(Content("b", true))
    ensures Run(false, acts).value.applied == Some(Content("a", true))
  {
    DedupAloneLosesAWakeup();
    acts := [Load(Some(Content("a", true))), Compare, Deliver, ApplyEnds(true)]
      + [Reload, Load(Some(Content("b", true))), Compare, Deliver, Reload, Load(Some(Content("b", true))), Compare,
         ApplyEnds(false), Retry];
    hide Run;
  }

  /** Running on from a state. */
  function After(s: Sys, acts: seq<Action>): Option<Sys>
    decreases |acts|
  {
    if acts == [] then Some(s)
    else
      var t := Step(s, acts[0]);
      if t.None? then None else After(t.value, acts[1..])
  }

  // ---- Re-firing stops ----

  /** What is still to happen without any new trigger. */
  function Work(s: Sys): nat {
    s.owed * 13
    + (if s.trigger then 12 else 0)
    + (if s.filter.swallowed then 10 else 0)
    + (match s.watcher case Idle => 0 case Loaded(_) => 11 case Sending(_) => 7 case Reporting => 1)
    + (match s.consumer case Applying(_) => 6 case Failing(_) => 5 case Refiring => 13 case _ => 0)
  }

  lemma WorkFalls(s: Sys, a: Action)
    requires !External(a) && Step(s, a).Some?
    ensures Work(Step(s, a).value) < Work(s)
  {
  }

  /** With no new triggers the source and Run come to rest, however often the apply fails. */
  lemma {:induction false} RefiringEnds(s: Sys, acts: seq<Action>)
    requires After(s, acts).Some? && forall i :: 0 <= i < |acts| ==> !External(acts[i])
    ensures |acts| <= Work(s)
    decreases |acts|
  {
    if acts != [] {
      assert !External(acts[0]);
      WorkFalls(s, acts[0]);
      RefiringEnds(Step(s, acts[0]).value, acts[1..]);
    }
  }
}
