/**
The pool, the reconciler and every goroutine that drives them, as one transition system.

Each action is one section that holds p.mu (or r.mu's visible stores), one channel operation,
or one event outside the pool: a factory reading the live config, Connect returning, a
connection dying. Actions may interleave in any order that Enabled allows.
*/
module GatewaySystem {
  import opened Common
  import opened PoolModel
  import R = ReconcileModel

  type CallerId = int

  const GET_MAX_ATTEMPTS: nat := 3

  /** Where one Get, and the call it was made for, has got to. */
  datatype Caller =
    | Trying(key: Key, attempt: nat)
    | Awaiting(key: Key, attempt: nat, spawn: SpawnId)
    | Queueing(key: Key, attempt: nat, conn: ConnId)
    | Slotted(key: Key, attempt: nat, conn: ConnId)
    | HandingBack(key: Key, attempt: nat, conn: ConnId)
    | Calling(key: Key, conn: ConnId)
    | Freed(key: Key, conn: ConnId)
    | Done

  datatype SpawnResult = Landed(conn: ConnId) | Retire | Error

  /** Where one runSpawn goroutine has got to. */
  datatype Phase =
    | Starting
    | Read(def: R.Definition)
    | Connecting(def: R.Definition)
    | Opened(conn: ConnId)
    | Failing
    | Returning(result: SpawnResult)
    | Ended(result: SpawnResult)

  datatype Task = Task(key: Key, phase: Phase)

  /** Which spawn opened a connection, and the definition its factory had read. */
  datatype Origin = Origin(spawn: SpawnId, def: R.Definition)

  datatype Sys = Sys(
    pool: Pool, rec: R.Reconciler, clock: Time, dead: set<ConnId>, tasks: map<SpawnId, Task>,
    origin: map<ConnId, Origin>, callers: map<CallerId, Caller>, handed: multiset<ConnId>)

  const START: Sys := Sys(EMPTY, R.INITIAL, ZERO_TIME, {}, map[], map[], map[], multiset{})

  /** One step of a Get or of the call it admitted (pool.go:245-363). */
  datatype CallerAction =
    | Arrive(key: Key)
    | LookUp(now: Time, newSpawn: SpawnId)
    | Wake(now: Time)
    | GiveUp
    | TakeSlot
    | Recheck(now: Time)
    | HandBack
    | FreeSlot
    | Finish(now: Time)

  /** One step of runSpawn (pool.go:381-494). */
  datatype SpawnAction =
    | FactoryReads
    | FactoryFails
    | FactoryReturns(now: Time)
    | ConnectReturns(newConn: ConnId)
    | ConnectFails(now: Time)
    | GiveBackReservation
    | Land(now: Time, expiry: Option<Time>)
    | End

  /** A connection dying, the reaper, and Shutdown (pool.go:603-747). */
  datatype PoolAction = Die(conn: ConnId) | Reap(now: Time) | Shutdown

  /** One step of Reconciler.Apply (reconcile.go:132-266). */
  datatype ApplyAction =
    | Begin(next: Option<R.Config>, now: Time)
    | Publish
    | Refuse
    | Accept
    | EvictOne(server: string)
    | FinishApply

  datatype Action =
    | ByCaller(caller: CallerId, call: CallerAction)
    | BySpawn(spawn: SpawnId, work: SpawnAction)
    | ByPool(pool: PoolAction)
    | ByApply(apply: ApplyAction)

  function SetCaller(s: Sys, c: CallerId, ph: Caller): Sys { s.(callers := s.callers[c := ph]) }

  function SetPhase(s: Sys, sp: SpawnId, ph: Phase): Sys
    requires sp in s.tasks
  {
    s.(tasks := s.tasks[sp := s.tasks[sp].(phase := ph)])
  }

  /** The pool a section left behind, with what it handed to Close. */
  function Take(s: Sys, d: Dropped): Sys { s.(pool := d.pool, handed := s.handed + multiset(d.victims)) }

  // ---- Callers ----

  function Retry(key: Key, attempt: nat): Caller {
    if attempt < GET_MAX_ATTEMPTS then Trying(key, attempt + 1) else Done
  }

  function StartStep(s: Sys, key: Key, sp: SpawnId): Sys {
    s.(pool := StartSpawn(s.pool, key, sp), tasks := s.tasks[sp := Task(key, Starting)])
  }

  /** What the caller, and the new spawn if there is one, do next. */
  function Settle(s: Sys, c: CallerId, me: Caller, outcome: Outcome): Sys
    requires me.Trying?
  {
    match outcome
    case Refused(_) => SetCaller(s, c, Done)
    case Attached(sp) => SetCaller(s, c, Awaiting(me.key, me.attempt, sp))
    case Started(sp) =>
      SetCaller(s.(tasks := s.tasks[sp := Task(me.key, Starting)]), c, Awaiting(me.key, me.attempt, sp))
    case Queued(conn) => SetCaller(s, c, Queueing(me.key, me.attempt, conn))
  }

  function LookUpStep(s: Sys, cfg: PoolConfig, c: CallerId, me: Caller, now: Time, sp: SpawnId): Sys
    requires me.Trying?
  {
    var l := Lookup(s.pool, cfg, me.key, now, s.dead, sp);
    Settle(Take(s, Dropped(l.pool, l.victims)), c, me, l.outcome)
  }

  predicate Wakeable(s: Sys, me: Caller) {
    me.Awaiting? && me.spawn in s.tasks && s.tasks[me.spawn].phase.Ended?
  }

  function WakeStep(s: Sys, c: CallerId, me: Caller, now: Time): Sys
    requires Wakeable(s, me)
  {
    match s.tasks[me.spawn].phase.result
    case Error => SetCaller(s, c, Done)
    case Retire => SetCaller(s, c, Retry(me.key, me.attempt))
    case Landed(conn) =>
      match Attach(s.pool, me.key, conn, now)
      case None => SetCaller(s, c, Retry(me.key, me.attempt))
      case Some(p) => SetCaller(s.(pool := p), c, Queueing(me.key, me.attempt, conn))
  }

  function RecheckStep(s: Sys, c: CallerId, me: Caller, now: Time): Sys
    requires me.Slotted?
  {
    SetCaller(
      s.(pool := Admit(s.pool, me.key, me.conn, now, s.dead)), c,
      if Admissible(s.pool, me.key, me.conn, now, s.dead) then Calling(me.key, me.conn)
      else HandingBack(me.key, me.attempt, me.conn))
  }

  /** Arrive makes a caller; any other action needs one in the right phase. */
  predicate CallerEnabled(s: Sys, cfg: PoolConfig, c: CallerId, a: CallerAction) {
    if a.Arrive? then c !in s.callers
    else
      && c in s.callers
      && var me := s.callers[c];
         match a
         case LookUp(now, sp) => me.Trying? && now > s.clock && sp !in s.tasks
         case Wake(now) => Wakeable(s, me) && now > s.clock
         case GiveUp => me.Awaiting? || me.Queueing?
         case TakeSlot => me.Queueing? && Row(s.pool, me.conn).slots < cfg.maxConcurrent
         case Recheck(now) => me.Slotted? && now > s.clock
         case HandBack => me.HandingBack?
         case FreeSlot => me.Calling?
         case Finish(now) => me.Freed? && now > s.clock
  }

  function CallerMove(s: Sys, cfg: PoolConfig, c: CallerId, a: CallerAction): Sys
    requires CallerEnabled(s, cfg, c, a)
  {
    if a.Arrive? then SetCaller(s, c, Trying(a.key, 1))
    else
      var me := s.callers[c];
      match a
      case LookUp(now, sp) => LookUpStep(s, cfg, c, me, now, sp)
      case Wake(now) => WakeStep(s, c, me, now)
      case GiveUp => SetCaller(if me.Queueing? then s.(pool := LeaveQueue(s.pool, me.conn)) else s, c, Done)
      case TakeSlot => SetCaller(s.(pool := MoveSlots(s.pool, me.conn, 1)), c, Slotted(me.key, me.attempt, me.conn))
      case Recheck(now) => RecheckStep(s, c, me, now)
      case HandBack => SetCaller(s.(pool := MoveSlots(s.pool, me.conn, -1)), c, Retry(me.key, me.attempt))
      case FreeSlot => SetCaller(s.(pool := MoveSlots(s.pool, me.conn, -1)), c, Freed(me.key, me.conn))
      case Finish(now) => SetCaller(s.(pool := FinishCall(s.pool, me.conn, now)), c, Done)
  }

  // ---- Spawns ----

  predicate SpawnEnabled(s: Sys, sp: SpawnId, a: SpawnAction) {
    && sp in s.tasks
    && var ph := s.tasks[sp].phase;
       match a
       case FactoryReads => ph.Starting? && s.tasks[sp].key.server in R.ServersOf(s.rec.cur)
       case FactoryFails => ph.Starting? || ph.Read?
       case FactoryReturns(now) => ph.Read? && now > s.clock
       case ConnectReturns(c) => ph.Connecting? && c !in s.origin
       case ConnectFails(now) => ph.Connecting? && now > s.clock
       case GiveBackReservation => ph.Failing?
       case Land(now, _) => ph.Opened? && now > s.clock
       case End => ph.Returning?
  }

  function LandStep(s: Sys, cfg: PoolConfig, sp: SpawnId, now: Time, expiry: Option<Time>): Sys
    requires sp in s.tasks && s.tasks[sp].phase.Opened?
  {
    var ph := s.tasks[sp].phase;
    var i := Install(s.pool, cfg, sp, ph.conn, now, expiry, s.dead);
    var t := Take(s, Dropped(i.pool, i.victims));
    match i.landing
    case Installed(c) => SetPhase(t, sp, Returning(Landed(c)))
    case Adopted(c) => SetPhase(t, sp, Returning(Landed(c)))
    case Retired => SetPhase(t, sp, Returning(Retire))
    case ShutDown => SetPhase(t, sp, Returning(Error))
  }

  function EndStep(s: Sys, sp: SpawnId): Sys
    requires sp in s.tasks && s.tasks[sp].phase.Returning?
  {
    SetPhase(s.(pool := EndSpawn(s.pool, sp)), sp, Ended(s.tasks[sp].phase.result))
  }

  function ConnectStep(s: Sys, sp: SpawnId, c: ConnId): Sys
    requires sp in s.tasks && s.tasks[sp].phase.Connecting?
  {
    SetPhase(s, sp, Opened(c)).(origin := s.origin[c := Origin(sp, s.tasks[sp].phase.def)])
  }

  function SpawnMove(s: Sys, cfg: PoolConfig, sp: SpawnId, a: SpawnAction): Sys
    requires SpawnEnabled(s, sp, a)
  {
    var task := s.tasks[sp];
    match a
    case FactoryReads => SetPhase(s, sp, Read(s.rec.cur.value.servers[task.key.server]))
    case FactoryFails => SetPhase(s, sp, Failing)
    case FactoryReturns(now) => SetPhase(s.(pool := Stamp(s.pool, sp, now)), sp, Connecting(task.phase.def))
    case ConnectReturns(c) => ConnectStep(s, sp, c)
    case ConnectFails(now) => SetPhase(s.(pool := RecordFailure(s.pool, cfg, task.key, now)), sp, Failing)
    case GiveBackReservation => SetPhase(s.(pool := ReleasePending(s.pool, task.key.tenant)), sp, Returning(Error))
    case Land(now, expiry) => LandStep(s, cfg, sp, now, expiry)
    case End => EndStep(s, sp)
  }

  // ---- The pool's own goroutine, Shutdown, and death ----

  predicate PoolEnabled(s: Sys, a: PoolAction) { a.Die? ==> a.conn in s.origin }

  function PoolMove(s: Sys, cfg: PoolConfig, a: PoolAction): Sys
  {
    match a
    case Die(c) => s.(dead := s.dead + {c})
    case Reap(now) => Take(s, PoolModel.Reap(s.pool, cfg, now, s.dead))
    case Shutdown => Take(s, PoolModel.Shutdown(s.pool))
  }

  // ---- Apply ----

  predicate ApplyEnabled(s: Sys, a: ApplyAction) {
    var pr := s.rec.progress;
    match a
    case Begin(_, now) => pr.Idle? && now > s.clock
    case Publish => pr.Opened?
    case Refuse => pr.Binding?
    case Accept => pr.Binding?
    case EvictOne(n) => pr.Evicting? && n in pr.owed.servers
    case FinishApply => pr.Evicting? && pr.owed.servers == {}
  }

  function ApplyMove(s: Sys, a: ApplyAction): Sys
    requires ApplyEnabled(s, a)
  {
    match a
    case Begin(next, now) => s.(rec := R.Begin(s.rec, next, now))
    case Publish => s.(rec := R.Publish(s.rec))
    case Refuse => s.(rec := R.Refuse(s.rec))
    case Accept => s.(rec := R.Accept(s.rec))
    case EvictOne(n) => Take(s, Evict(s.pool, n, s.rec.progress.owed.since)).(rec := R.Evicted(s.rec, n))
    case FinishApply => s.(rec := R.Finish(s.rec))
  }

  // ---- Runs ----

  /** When an action samples the clock it reads a later time than any before it. */
  function Clock(s: Sys, a: Action): Time {
    match a
    case ByCaller(_, LookUp(now, _)) => now
    case ByCaller(_, Wake(now)) => now
    case ByCaller(_, Recheck(now)) => now
    case ByCaller(_, Finish(now)) => now
    case BySpawn(_, FactoryReturns(now)) => now
    case BySpawn(_, ConnectFails(now)) => now
    case BySpawn(_, Land(now, _)) => now
    case ByApply(Begin(_, now)) => now
    case _ => s.clock
  }

  predicate Enabled(s: Sys, cfg: PoolConfig, a: Action) {
    match a
    case ByCaller(c, call) => CallerEnabled(s, cfg, c, call)
    case BySpawn(sp, work) => SpawnEnabled(s, sp, work)
    case ByPool(p) => PoolEnabled(s, p)
    case ByApply(ap) => ApplyEnabled(s, ap)
  }

  function Move(s: Sys, cfg: PoolConfig, a: Action): Sys
    requires Enabled(s, cfg, a)
  {
    match a
    case ByCaller(c, call) => CallerMove(s, cfg, c, call)
    case BySpawn(sp, work) => SpawnMove(s, cfg, sp, work)
    case ByPool(p) => PoolMove(s, cfg, p)
    case ByApply(ap) => ApplyMove(s, ap)
  }

  function Step(s: Sys, cfg: PoolConfig, a: Action): Sys
    requires Enabled(s, cfg, a)
  {
    Move(s, cfg, a).(clock := Clock(s, a))
  }

  /** The state after a run, if every action of it was enabled. */
  function Run(cfg: PoolConfig, acts: seq<Action>): Option<Sys> {
    if acts == [] then Some(START)
    else
      var before := Run(cfg, acts[..|acts| - 1]);
      var a := acts[|acts| - 1];
      if before.Some? && Enabled(before.value, cfg, a) then Some(Step(before.value, cfg, a)) else None
  }
}
