/** What one whole Apply does, from its Begin on: which config is live when, and exactly whom it evicts. */
module GatewayEviction {
  import opened Common
  import opened PoolModel
  import opened GatewaySystem
  import opened GatewayShape
  import opened GatewayAdmission
  import opened GatewayCap
  import opened GatewayConservation
  import opened GatewayFreshness
  import opened GatewayTheorems
  import opened GatewayHistory
  import R = ReconcileModel

  type Servers = map<string, R.Definition>

  /** The revision changes or adds the server. */
  predicate Replaced(prev: Servers, rev: Servers, n: string) { n in rev && !(n in prev && prev[n] == rev[n]) }

  /** The revision changes or removes the server. */
  predicate Withdrawn(prev: Servers, rev: Servers, n: string) { n in prev && !(n in rev && prev[n] == rev[n]) }

  /** Steps after a Begin that are still of its Apply, or of other goroutines. */
  predicate OneApply(mid: seq<Action>) {
    forall i :: 0 <= i < |mid| && mid[i].ByApply? ==> !mid[i].apply.Begin? && !mid[i].apply.FinishApply?
  }

  predicate Did(mid: seq<Action>, a: ApplyAction) { ByApply(a) in mid }

  predicate Refused(mid: seq<Action>) { Did(mid, Refuse) }

  predicate Accepted(mid: seq<Action>) { Did(mid, Accept) }

  // ---- The revision that was refused last ----

  /** The revision that the latest Begin took up. */
  function TakenUp(acts: seq<Action>): R.Config {
    if acts == [] then R.EMPTY_CONFIG
    else
      var a := acts[|acts| - 1];
      if a.ByApply? && a.apply.Begin? then R.Revision(a.apply.next) else TakenUp(acts[..|acts| - 1])
  }

  /** The revision that was refused last, unless one has been adopted since. */
  function LastRefused(cfg: PoolConfig, acts: seq<Action>): Option<R.Config> {
    if acts == [] || Run(cfg, acts).None? then None
    else
      var front, a := acts[..|acts| - 1], acts[|acts| - 1];
      if !a.ByApply? then LastRefused(cfg, front)
      else
        match a.apply
        case Refuse => Some(TakenUp(front))
        case Accept => None
        case Begin(next, _) =>
          if R.ServersOf(Run(cfg, front).value.rec.cur) != R.Revision(next).servers then LastRefused(cfg, front) else None
        case _ => LastRefused(cfg, front)
  }

  // ---- What the reconciler holds at each point of an Apply ----

  /** prev was live at the Begin, which took up rev at time start; published says whether rev may be reached early. */
  datatype Start = Start(prev: Option<R.Config>, rev: R.Config, now: Time, publish: bool)

  ghost predicate Owes(owed: R.Eviction, b: Start, mid: seq<Action>) {
    && owed.since == (if Refused(mid) then b.now else ZERO_TIME)
    && forall n :: n in owed.servers <==>
         !Did(mid, EvictOne(n))
         && if Refused(mid) then Replaced(R.ServersOf(b.prev), b.rev.servers, n)
            else Withdrawn(R.ServersOf(b.prev), b.rev.servers, n)
  }

  ghost predicate NoneEvicted(mid: seq<Action>) { forall n :: !Did(mid, EvictOne(n)) }

  ghost predicate Stage(r: R.Reconciler, b: Start, mid: seq<Action>) {
    match r.progress
    case Idle =>
      && !Accepted(mid)
      && (R.ServersOf(b.prev) != b.rev.servers <==> Refused(mid)) && (Refused(mid) ==> !b.publish)
      && r.cur == (if Refused(mid) then b.prev else Some(b.rev))
    case Opened(rev, prev, windowStart, publish) =>
      && !Refused(mid) && !Accepted(mid) && NoneEvicted(mid) && !Did(mid, Publish) && Start(prev, rev, windowStart, publish) == b && r.cur == prev
      && R.ServersOf(prev) != rev.servers
    case Binding(rev, prev, windowStart, publish) =>
      && !Refused(mid) && !Accepted(mid) && NoneEvicted(mid) && Did(mid, Publish) && Start(prev, rev, windowStart, publish) == b
      && r.cur == (if publish then Some(rev) else prev) && R.ServersOf(prev) != rev.servers
    case Evicting(owed) =>
      && Refused(mid) != Accepted(mid) && Owes(owed, b, mid) && (Refused(mid) ==> b.publish)
      && r.cur == (if Refused(mid) then b.prev else Some(b.rev)) && R.ServersOf(b.prev) != b.rev.servers
  }

  lemma EmptyDiff(prev: Option<R.Config>, rev: R.Config)
    ensures R.Empty(R.Diff(prev, rev)) <==> R.ServersOf(prev) == rev.servers
    ensures forall n :: n in R.Diff(prev, rev).changed + R.Diff(prev, rev).added <==> Replaced(R.ServersOf(prev), rev.servers, n)
    ensures forall n :: n in R.Diff(prev, rev).removed + R.Diff(prev, rev).changed <==> Withdrawn(R.ServersOf(prev), rev.servers, n)
  {
    R.EmptyIsSame(prev, rev);
  }

  /** mid has gone on to more by an action of the Apply. */
  ghost predicate GoesOn(mid: seq<Action>, more: seq<Action>, a: ApplyAction) {
    forall x: ApplyAction :: Did(more, x) <==> Did(mid, x) || x == a
  }

  lemma PublishStage(r: R.Reconciler, b: Start, mid: seq<Action>, more: seq<Action>)
    requires Stage(r, b, mid) && r.progress.Opened? && GoesOn(mid, more, Publish)
    ensures Stage(R.Publish(r), b, more)
  {
  }

  lemma RefuseStage(r: R.Reconciler, b: Start, mid: seq<Action>, more: seq<Action>)
    requires Stage(r, b, mid) && r.progress.Binding? && GoesOn(mid, more, Refuse)
    ensures Stage(R.Refuse(r), b, more)
  {
    EmptyDiff(b.prev, b.rev);
    hide R.Diff, Replaced, Withdrawn;
  }

  lemma AcceptStage(r: R.Reconciler, b: Start, mid: seq<Action>, more: seq<Action>)
    requires Stage(r, b, mid) && r.progress.Binding? && GoesOn(mid, more, Accept)
    ensures Stage(R.Accept(r), b, more)
  {
    EmptyDiff(b.prev, b.rev);
    hide R.Diff, Replaced, Withdrawn;
  }

  lemma EvictStage(r: R.Reconciler, b: Start, mid: seq<Action>, more: seq<Action>, n: string)
    requires Stage(r, b, mid) && r.progress.Evicting? && GoesOn(mid, more, EvictOne(n))
    ensures Stage(R.Evicted(r, n), b, more)
  {
    hide Replaced, Withdrawn;
  }

  lemma StageMoves(s: Sys, b: Start, mid: seq<Action>, a: ApplyAction)
    requires Stage(s.rec, b, mid) && ApplyEnabled(s, a) && !a.Begin? && !a.FinishApply?
    ensures Stage(ApplyMove(s, a).rec, b, mid + [ByApply(a)])
  {
    var more := mid + [ByApply(a)];
    assert GoesOn(mid, more, a);
    hide Stage, GoesOn, Did, R.Publish, R.Refuse, R.Accept, R.Evicted, Evict;
    match a
    case Publish => PublishStage(s.rec, b, mid, more);
    case Refuse => RefuseStage(s.rec, b, mid, more);
    case Accept => AcceptStage(s.rec, b, mid, more);
    case EvictOne(n) => EvictStage(s.rec, b, mid, more, n);
  }

  lemma StageKept(r: R.Reconciler, b: Start, mid: seq<Action>, a: Action)
    requires Stage(r, b, mid) && !a.ByApply?
    ensures Stage(r, b, mid + [a])
  {
    assert forall x: ApplyAction :: Did(mid + [a], x) <==> Did(mid, x);
    hide Replaced, Withdrawn;
  }

  lemma RecKept(s: Sys, cfg: PoolConfig, a: Action)
    requires Enabled(s, cfg, a) && !a.ByApply?
    ensures Step(s, cfg, a).rec == s.rec
  {
    match a
    case ByCaller(c, call) => CallerKeepsRec(s, cfg, c, call);
    case BySpawn(sp, work) => SpawnKeepsRec(s, cfg, sp, work);
    case ByPool(p) => hide PoolModel.Reap, PoolModel.Shutdown;
  }

  lemma CallerKeepsRec(s: Sys, cfg: PoolConfig, c: CallerId, a: CallerAction)
    requires CallerEnabled(s, cfg, c, a)
    ensures CallerMove(s, cfg, c, a).rec == s.rec
  {
    hide Lookup;
  }

  lemma SpawnKeepsRec(s: Sys, cfg: PoolConfig, sp: SpawnId, a: SpawnAction)
    requires SpawnEnabled(s, sp, a)
    ensures SpawnMove(s, cfg, sp, a).rec == s.rec
  {
    hide Install;
  }

  // ---- Runs ----

  predicate TakenUpIs(r: R.Reconciler, rev: R.Config) {
    r.progress.Opened? || r.progress.Binding? ==> r.progress.rev == rev
  }

  lemma FailedMoves(s: Sys, a: ApplyAction, taken: R.Config, refused: Option<R.Config>)
    requires ApplyEnabled(s, a) && s.rec.failed == refused && TakenUpIs(s.rec, taken)
    ensures var r := ApplyMove(s, a).rec;
            && TakenUpIs(r, if a.Begin? then R.Revision(a.next) else taken)
            && r.failed == match a
                           case Refuse => Some(taken)
                           case Accept => None
                           case Begin(next, _) =>
                             if R.ServersOf(s.rec.cur) != R.Revision(next).servers then refused else None
                           case _ => refused
  {
    if a.Begin? {
      EmptyDiff(s.rec.cur, R.Revision(a.next));
    }
    hide R.Diff, R.Empty, Evict;
  }

  lemma {:induction false} FailedIsLastRefused(cfg: PoolConfig, acts: seq<Action>)
    requires Run(cfg, acts).Some?
    ensures var r := Run(cfg, acts).value.rec; r.failed == LastRefused(cfg, acts) && TakenUpIs(r, TakenUp(acts))
  {
    if acts != [] {
      var front, a := acts[..|acts| - 1], acts[|acts| - 1];
      assert front + [a] == acts;
      RunSplit(cfg, front, a);
      FailedIsLastRefused(cfg, front);
      var s := Run(cfg, front).value;
      hide Move, Enabled;
      if a.ByApply? {
        FailedMoves(s, a.apply, TakenUp(front), LastRefused(cfg, front)) by { ApplyMoves(s, cfg, a.apply); }
        ApplyMoves(s, cfg, a.apply);
      } else {
        RecKept(s, cfg, a);
      }
    }
  }

  lemma ApplyMoves(s: Sys, cfg: PoolConfig, a: ApplyAction)
    requires Enabled(s, cfg, ByApply(a))
    ensures ApplyEnabled(s, a)
    ensures Step(s, cfg, ByApply(a)) == ApplyMove(s, a).(clock := Clock(s, ByApply(a)))
  {
  }

  /** The config live at the Begin, the revision, the time, and whether it was not the one just refused. */
  function Begun(cfg: PoolConfig, acts: seq<Action>, next: Option<R.Config>, now: Time): Start
    requires Run(cfg, acts).Some?
  {
    Start(Run(cfg, acts).value.rec.cur, R.Revision(next), now, LastRefused(cfg, acts) != Some(R.Revision(next)))
  }

  lemma BeginStage(s: Sys, next: Option<R.Config>, now: Time)
    requires ApplyEnabled(s, Begin(next, now))
    ensures var rev := R.Revision(next);
            Stage(R.Begin(s.rec, next, now), Start(s.rec.cur, rev, now, s.rec.failed != Some(rev)), [])
  {
    EmptyDiff(s.rec.cur, R.Revision(next));
    hide R.Diff, R.Empty, Owes;
  }

  lemma {:induction false} RunStage(cfg: PoolConfig, acts: seq<Action>, next: Option<R.Config>, now: Time, mid: seq<Action>)
    requires OneApply(mid) && Run(cfg, acts + [ByApply(Begin(next, now))] + mid).Some?
    ensures Run(cfg, acts).Some?
    ensures Stage(Run(cfg, acts + [ByApply(Begin(next, now))] + mid).value.rec, Begun(cfg, acts, next, now), mid)
  {
    var head := acts + [ByApply(Begin(next, now))];
    hide Stage, Move, Enabled;
    if mid == [] {
      assert head + mid == head;
      RunSplit(cfg, acts, ByApply(Begin(next, now)));
      FailedIsLastRefused(cfg, acts);
      ApplyMoves(Run(cfg, acts).value, cfg, Begin(next, now));
      BeginStage(Run(cfg, acts).value, next, now);
    } else {
      var front, a := mid[..|mid| - 1], mid[|mid| - 1];
      assert head + mid == head + front + [a] && front + [a] == mid;
      RunSplit(cfg, head + front, a);
      RunStage(cfg, acts, next, now, front);
      var s := Run(cfg, head + front).value;
      if a.ByApply? {
        ApplyMoves(s, cfg, a.apply);
        StageMoves(s, Begun(cfg, acts, next, now), front, a.apply);
      } else {
        RecKept(s, cfg, a);
        StageKept(s.rec, Begun(cfg, acts, next, now), front, a);
      }
    }
  }

  /**
  Which config is live at any point of an Apply. A revision that differs from the last one is reachable from
  Publish on, unless it is the one refused last, which stays unreachable until it is accepted; a refusal
  brings the config before it back.
  */
  lemma LiveConfig(cfg: PoolConfig, acts: seq<Action>, next: Option<R.Config>, now: Time, mid: seq<Action>)
    requires OneApply(mid) && Run(cfg, acts + [ByApply(Begin(next, now))] + mid).Some?
    ensures Run(cfg, acts).Some?
    ensures var prev, rev := Run(cfg, acts).value.rec.cur, R.Revision(next);
            Run(cfg, acts + [ByApply(Begin(next, now))] + mid).value.rec.cur ==
              if R.ServersOf(prev) == rev.servers || Accepted(mid) then Some(rev)
              else if Refused(mid) || !Did(mid, Publish) || LastRefused(cfg, acts) == Some(rev) then prev
              else Some(rev)
  {
    RunStage(cfg, acts, next, now, mid);
    hide Run, LastRefused, Owes;
  }

  // ---- Whom an Apply evicts ----

  /** What a refusal condemns: only what was read after the revision could be; an adoption condemns everything. */
  predicate Condemned(mid: seq<Action>, now: Time, read: Time) { Accepted(mid) || read > now }

  predicate Unstamped(log: Log, sp: SpawnId) { ReturnedAt(log, sp) == ZERO_TIME }

  lemma EvictedConns(s: Sys, n: string, since: Time, c: ConnId)
    requires EntriesOk(s.pool) && ConnsFresh(s)
    ensures c in Evict(s.pool, n, since).victims <==>
      Placed(s.pool, c) && c in s.pool.table && Row(s.pool, c).key.server == n && Row(s.pool, c).defined > since
    requires OrphansOk(s.pool)
  {
    if Placed(s.pool, c) {
      assert ConnFresh(s, c);
      if Mapped(s.pool, c) {
        assert s.pool.entries[Row(s.pool, c).key] == c;
      }
    }
    hide Allowed;
  }

  lemma MarkedSpawns(s: Sys, n: string, since: Time, sp: SpawnId)
    requires TasksOk(s) && SpawningOk(s) && sp in s.tasks
    ensures SpawnRow(Evict(s.pool, n, since).pool, sp).stale <==>
      || SpawnRow(s.pool, sp).stale
      || (s.tasks[sp].key.server == n && !s.tasks[sp].phase.Ended?
          && (SpawnRow(s.pool, sp).built == ZERO_TIME || SpawnRow(s.pool, sp).built > since))
  {
    assert TaskOk(s, sp);
  }

  lemma EvictOneMoves(s: Sys, cfg: PoolConfig, n: string)
    requires Enabled(s, cfg, ByApply(EvictOne(n)))
    ensures var t := Step(s, cfg, ByApply(EvictOne(n))); var d := Evict(s.pool, n, s.rec.progress.owed.since);
            && s.rec.progress.Evicting? && n in s.rec.progress.owed.servers
            && t.pool == d.pool && t.tasks == s.tasks && t.handed == s.handed + multiset(d.victims)
  {
    hide Evict;
  }

  lemma OwedSince(s: Sys, b: Start, mid: seq<Action>, n: string)
    requires Stage(s.rec, b, mid) && ApplyEnabled(s, EvictOne(n))
    ensures Refused(mid) != Accepted(mid) && s.rec.progress.owed.since == if Refused(mid) then b.now else ZERO_TIME
    ensures if Refused(mid) then Replaced(R.ServersOf(b.prev), b.rev.servers, n)
            else Withdrawn(R.ServersOf(b.prev), b.rev.servers, n)
  {
  }

  /**
  An eviction step of an Apply closes exactly the placed backends of one server that the verdict condemns, and
  marks exactly such spawns: if the revision was refused, the server is one it changed or added, and what
  was read before the Apply began is spared; if it was adopted, one it changed or removed, and nothing is.
  */
  lemma EvictsExactly(cfg: PoolConfig, acts: seq<Action>, next: Option<R.Config>, now: Time, mid: seq<Action>, n: string)
    requires Filled(cfg) && OneApply(mid)
    requires Run(cfg, acts + [ByApply(Begin(next, now))] + mid + [ByApply(EvictOne(n))]).Some?
    ensures Run(cfg, acts).Some? && Run(cfg, acts + [ByApply(Begin(next, now))] + mid).Some?
    ensures Refused(mid) != Accepted(mid)
    ensures var prev, rev := R.ServersOf(Run(cfg, acts).value.rec.cur), R.Revision(next).servers;
            if Refused(mid) then Replaced(prev, rev, n) else Withdrawn(prev, rev, n)
    ensures var so := acts + [ByApply(Begin(next, now))] + mid;
            var s, t, log := Run(cfg, so).value, Run(cfg, so + [ByApply(EvictOne(n))]).value, History(cfg, so);
            && (forall c :: c in s.origin ==>
                  (t.handed[c] > s.handed[c] <==>
                    && Placed(s.pool, c) && Row(s.pool, c).key.server == n
                    && Condemned(mid, now, ReturnedAt(log, s.origin[c].spawn))))
            && (forall sp :: sp in s.tasks ==>
                  (SpawnRow(t.pool, sp).stale <==>
                    || SpawnRow(s.pool, sp).stale
                    || (s.tasks[sp].key.server == n && !s.tasks[sp].phase.Ended?
                        && (Unstamped(log, sp) || Condemned(mid, now, ReturnedAt(log, sp))))))
  {
    var so := acts + [ByApply(Begin(next, now))] + mid;
    RunSplit(cfg, so, ByApply(EvictOne(n)));
    RunStage(cfg, acts, next, now, mid);
    RunInv(cfg, so);
    RunTold(cfg, so);
    var s, log := Run(cfg, so).value, History(cfg, so);
    var b := Begun(cfg, acts, next, now);
    ApplyMoves(s, cfg, EvictOne(n));
    OwedSince(s, b, mid, n);
    EvictOneMoves(s, cfg, n);
    assert now > ZERO_TIME by { BeginLater(cfg, acts, next, now, mid); }
    EvictedAll(s, cfg, log, n, mid, now) by { hide Run, History, Begun, Enabled, Step, Told, Inv; assert Told(s, cfg, log); assert Inv(s, cfg); }
    hide Run, History, Begun, Enabled, Step, Told, Inv, Stage, Evict;
  }

  lemma {:induction false} BeginLater(cfg: PoolConfig, acts: seq<Action>, next: Option<R.Config>, now: Time, mid: seq<Action>)
    requires Filled(cfg) && Run(cfg, acts + [ByApply(Begin(next, now))] + mid).Some?
    ensures now > ZERO_TIME
  {
    var head := acts + [ByApply(Begin(next, now))];
    if mid == [] {
      assert head + mid == head;
      RunSplit(cfg, acts, ByApply(Begin(next, now)));
      RunInv(cfg, acts);
      hide Run, Shape, Tallies, CapOk, Conserved;
    } else {
      assert (head + mid)[..|head + mid| - 1] == head + mid[..|mid| - 1];
      BeginLater(cfg, acts, next, now, mid[..|mid| - 1]);
    }
  }

  lemma EvictedAll(s: Sys, cfg: PoolConfig, log: Log, n: string, mid: seq<Action>, now: Time)
    requires Inv(s, cfg) && Told(s, cfg, log) && now > ZERO_TIME && Refused(mid) != Accepted(mid)
    ensures var since := if Refused(mid) then now else ZERO_TIME;
            && (forall c :: c in s.origin ==>
                  (c in Evict(s.pool, n, since).victims <==>
                    && Placed(s.pool, c) && Row(s.pool, c).key.server == n
                    && Condemned(mid, now, ReturnedAt(log, s.origin[c].spawn))))
            && (forall sp :: sp in s.tasks ==>
                  (SpawnRow(Evict(s.pool, n, since).pool, sp).stale <==>
                    || SpawnRow(s.pool, sp).stale
                    || (s.tasks[sp].key.server == n && !s.tasks[sp].phase.Ended?
                        && (Unstamped(log, sp) || Condemned(mid, now, ReturnedAt(log, sp))))))
  {
    var since := if Refused(mid) then now else ZERO_TIME;
    forall c | c in s.origin
      ensures c in Evict(s.pool, n, since).victims <==>
                && Placed(s.pool, c) && Row(s.pool, c).key.server == n
                && Condemned(mid, now, ReturnedAt(log, s.origin[c].spawn))
    {
      CondemnedConn(s, cfg, log, n, mid, now, c);
    }
    forall sp | sp in s.tasks
      ensures SpawnRow(Evict(s.pool, n, since).pool, sp).stale <==>
                || SpawnRow(s.pool, sp).stale
                || (s.tasks[sp].key.server == n && !s.tasks[sp].phase.Ended?
                    && (Unstamped(log, sp) || Condemned(mid, now, ReturnedAt(log, sp))))
    {
      CondemnedSpawn(s, cfg, log, n, mid, now, sp);
    }
    hide Evict, Inv, Told, Condemned, Placed, SpawnRow;
  }

  lemma CondemnedConn(s: Sys, cfg: PoolConfig, log: Log, n: string, mid: seq<Action>, now: Time, c: ConnId)
    requires Inv(s, cfg) && Told(s, cfg, log) && now > ZERO_TIME && Refused(mid) != Accepted(mid)
    ensures c in Evict(s.pool, n, if Refused(mid) then now else ZERO_TIME).victims <==>
      && Placed(s.pool, c) && c in s.origin && Row(s.pool, c).key.server == n
      && Condemned(mid, now, ReturnedAt(log, s.origin[c].spawn))
  {
    EvictedConns(s, n, if Refused(mid) then now else ZERO_TIME, c);
    if Placed(s.pool, c) {
      assert ConnFresh(s, c);
      assert c in s.pool.table;
      assert RowTold(s, cfg, log, c);
    }
    hide Evict, Tallies, CapOk, Conserved, Allowed, TasksOk, SpawningOk, CallersOk, Deadline, Did;
  }

  lemma CondemnedSpawn(s: Sys, cfg: PoolConfig, log: Log, n: string, mid: seq<Action>, now: Time, sp: SpawnId)
    requires Inv(s, cfg) && Told(s, cfg, log) && now > ZERO_TIME && Refused(mid) != Accepted(mid) && sp in s.tasks
    ensures SpawnRow(Evict(s.pool, n, if Refused(mid) then now else ZERO_TIME).pool, sp).stale <==>
      || SpawnRow(s.pool, sp).stale
      || (s.tasks[sp].key.server == n && !s.tasks[sp].phase.Ended?
          && (Unstamped(log, sp) || Condemned(mid, now, ReturnedAt(log, sp))))
  {
    MarkedSpawns(s, n, if Refused(mid) then now else ZERO_TIME, sp);
    assert StampOk(s, sp);
    hide Evict, Tallies, CapOk, Conserved, Allowed, EntriesOk, OrphansOk, CallersOk, Deadline, Did;
  }

  /** No other step of an Apply closes a backend or marks a spawn. */
  lemma OnlyEvictionsClose(s: Sys, cfg: PoolConfig, a: ApplyAction)
    requires Enabled(s, cfg, ByApply(a)) && !a.EvictOne?
    ensures var t := Step(s, cfg, ByApply(a)); t.handed == s.handed && t.pool == s.pool
  {
  }

  /** An Apply finishes only when it has evicted every server that its verdict condemns. */
  lemma FinishesEvicted(cfg: PoolConfig, acts: seq<Action>, next: Option<R.Config>, now: Time, mid: seq<Action>)
    requires Filled(cfg) && OneApply(mid)
    requires Run(cfg, acts + [ByApply(Begin(next, now))] + mid + [ByApply(FinishApply)]).Some?
    ensures Run(cfg, acts).Some? && Refused(mid) != Accepted(mid)
    ensures var prev, rev := R.ServersOf(Run(cfg, acts).value.rec.cur), R.Revision(next).servers;
            forall n :: Did(mid, EvictOne(n)) <== (if Refused(mid) then Replaced(prev, rev, n) else Withdrawn(prev, rev, n))
  {
    var so := acts + [ByApply(Begin(next, now))] + mid;
    RunSplit(cfg, so, ByApply(FinishApply));
    RunStage(cfg, acts, next, now, mid);
    ApplyMoves(Run(cfg, so).value, cfg, FinishApply);
    hide Run, Enabled, Step, Replaced, Withdrawn, LastRefused;
  }

  lemma {:induction false} RunPrefix(cfg: PoolConfig, front: seq<Action>, rest: seq<Action>)
    requires Run(cfg, front + rest).Some?
    ensures Run(cfg, front).Some?
    decreases |rest|
  {
    if rest == [] {
      assert front + rest == front;
    } else {
      assert (front + rest)[..|front + rest| - 1] == front + rest[..|rest| - 1];
      RunPrefix(cfg, front, rest[..|rest| - 1]);
    }
  }

  lemma OneVerdict(cfg: PoolConfig, acts: seq<Action>, next: Option<R.Config>, now: Time, mid: seq<Action>)
    requires OneApply(mid) && Run(cfg, acts + [ByApply(Begin(next, now))] + mid).Some?
    ensures !(Refused(mid) && Accepted(mid))
  {
    RunStage(cfg, acts, next, now, mid);
    hide Run, Begun, Owes, NoneEvicted;
  }

  /** An Apply that ends refused never closes a backend, nor marks a spawn, whose definition was read before it began. */
  lemma RefusalSparesOlder(cfg: PoolConfig, acts: seq<Action>, next: Option<R.Config>, now: Time, mid: seq<Action>, i: nat)
    requires Filled(cfg) && OneApply(mid) && Run(cfg, acts + [ByApply(Begin(next, now))] + mid).Some?
    requires Refused(mid) && i < |mid| && mid[i].ByApply?
    ensures var so := acts + [ByApply(Begin(next, now))] + mid[..i];
            && Run(cfg, so).Some? && Run(cfg, so + [mid[i]]).Some?
            && var s, t, log := Run(cfg, so).value, Run(cfg, so + [mid[i]]).value, History(cfg, so);
               && (forall c :: c in s.origin && ReturnedAt(log, s.origin[c].spawn) <= now ==> t.handed[c] <= s.handed[c])
               && (forall sp :: sp in s.tasks && ZERO_TIME < ReturnedAt(log, sp) <= now ==>
                     SpawnRow(t.pool, sp).stale == SpawnRow(s.pool, sp).stale)
  {
    var so := acts + [ByApply(Begin(next, now))] + mid[..i];
    StepsOf(cfg, acts + [ByApply(Begin(next, now))], mid, i);
    RunSplit(cfg, so, mid[i]);
    assert !Accepted(mid[..i]) by { OneVerdict(cfg, acts, next, now, mid); }
    hide Run, History, Step, Enabled, Placed, Row, SpawnRow, ReturnedAt, Replaced, Withdrawn, Did;
    if mid[i].apply.EvictOne? {
      EvictsExactly(cfg, acts, next, now, mid[..i], mid[i].apply.server);
    } else {
      OnlyEvictionsClose(Run(cfg, so).value, cfg, mid[i].apply);
    }
  }

  lemma StepsOf(cfg: PoolConfig, head: seq<Action>, mid: seq<Action>, i: nat)
    requires i < |mid| && Run(cfg, head + mid).Some?
    ensures Run(cfg, head + mid[..i] + [mid[i]]).Some?
  {
    hide Run;
    assert mid[..i] + [mid[i]] + mid[i + 1..] == mid;
    assert head + mid[..i] + [mid[i]] + mid[i + 1..] == head + mid;
    RunPrefix(cfg, head + mid[..i] + [mid[i]], mid[i + 1..]);
  }
}
