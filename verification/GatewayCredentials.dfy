/**
The pool and the credential caches as one system: requests keyed by a resolve (proxy.go:121-163), backends
built with the result of another (gateway.go:787-854), and rotations in between.
*/
module GatewayCredentials {
  import opened Common
  import opened PoolModel
  import opened GatewaySystem
  import opened GatewayShape
  import A = GatewayAdmission
  import Cap = GatewayCap
  import C = CredSystem
  import CT = CredTheorems
  import CM = CredModel

  const UNATTRIBUTED: string := "_"

  /** Whom a key's credentials are resolved for: a server that is not per user has the one placeholder. */
  function Identity(k: Key): C.CacheKey {
    C.CacheKey(k.tenant, if k.credSet == "" then UNATTRIBUTED else k.credSet, k.server)
  }

  /** The pool key of a request, from the result of its own resolve. */
  function Mint(v: C.Served): Key {
    Key(v.key.server, v.key.tenant, if v.key.user == UNATTRIBUTED then "" else v.key.user, v.gen)
  }

  /** asked is the result each caller's key was minted from, built what each backend was given, if anything. */
  datatype World = World(gate: Sys, cred: C.Sys, asked: map<CallerId, nat>, built: map<SpawnId, Option<CM.Material>>)

  const OPENING: World := World(START, C.START, map[], map[])

  /** own and result are indexes of what resolves were served; no result where the definition has no resolver. */
  datatype WorldAction =
    | Gate(act: Action)
    | Cred(cred: C.Action)
    | Request(caller: CallerId, own: nat)
    | PlainRequest(caller: CallerId, server: string, tenant: string)
    | Build(spawn: SpawnId, result: Option<nat>, now: Time)

  /** Arriving and building are steps of both systems. */
  predicate Shared(a: Action) { (a.ByCaller? && a.call.Arrive?) || (a.BySpawn? && a.work.FactoryReturns?) }

  function GateStep(w: World, cfg: PoolConfig, a: Action): Option<World> {
    if Enabled(w.gate, cfg, a) then Some(w.(gate := Step(w.gate, cfg, a))) else None
  }

  /** A result resolved while spawning is used only if it is for the key, and of the key's generation. */
  function BuildStep(w: World, cfg: PoolConfig, sp: SpawnId, result: Option<nat>, now: Time): Option<World> {
    var a := BySpawn(sp, FactoryReturns(now));
    if !Enabled(w.gate, cfg, a) then None
    else
      var t := w.(gate := Step(w.gate, cfg, a));
      if result.None? then Some(t.(built := w.built[sp := None]))
      else if result.value >= |w.cred.served| then None
      else
        var v, k := w.cred.served[result.value], w.gate.tasks[sp].key;
        if v.key != Identity(k) || v.gen != k.credVersion then None
        else Some(t.(built := w.built[sp := Some(v.creds.material)]))
  }

  function WorldStep(w: World, cfg: PoolConfig, a: WorldAction): Option<World> {
    match a
    case Gate(act) => if Shared(act) then None else GateStep(w, cfg, act)
    case Cred(act) =>
      var t := C.Step(w.cred, act);
      if t.Some? then Some(w.(cred := t.value)) else None
    case Request(c, i) =>
      if i >= |w.cred.served| then None
      else
        var t := GateStep(w, cfg, ByCaller(c, Arrive(Mint(w.cred.served[i]))));
        if t.Some? then Some(t.value.(asked := w.asked[c := i])) else None
    case PlainRequest(c, server, tenant) => GateStep(w, cfg, ByCaller(c, Arrive(Key(server, tenant, "", 0))))
    case Build(sp, result, now) => BuildStep(w, cfg, sp, result, now)
  }

  function WorldRun(cfg: PoolConfig, acts: seq<WorldAction>): Option<World> {
    if acts == [] then Some(OPENING)
    else
      var before := WorldRun(cfg, acts[..|acts| - 1]);
      if before.None? then None else WorldStep(before.value, cfg, acts[|acts| - 1])
  }

  // ---- The caches only add ----

  /** g was issued for this identity and material. */
  predicate IssuedFor(s: C.Sys, g: int, who: C.CacheKey, m: CM.Material) {
    && g in s.issued && s.issued[g].material == m
    && s.issued[g].slot in s.slots && s.slots[s.issued[g].slot].key == who
  }

  predicate Extends(s: C.Sys, t: C.Sys) {
    && s.served <= t.served
    && (forall e :: e in s.slots ==> e in t.slots && t.slots[e].key == s.slots[e].key)
    && (forall g :: g in s.issued ==> g in t.issued && t.issued[g] == s.issued[g])
  }

  lemma AbsorbExtends(s: C.Sys, e: C.SlotId, answer: C.Answer, now: Time, failedAt: Time)
    requires e in s.slots && forall g :: g in s.issued ==> g <= s.gens
    ensures Extends(s, C.Absorb(s, e, answer, now, failedAt))
  {
    hide CM.Apply, CM.Moved;
    match answer
    case Gives(given) =>
    case Fails =>
    case Cancelled =>
  }

  lemma ServeExtends(s: C.Sys, c: C.CallerId, e: C.SlotId, now: Time)
    requires e in s.slots && s.slots[e].entry.creds.Some?
    ensures Extends(s, C.Serve(s, c, e, now))
  {
  }

  lemma ResolvedExtends(s: C.Sys, c: C.CallerId, answer: C.Answer)
    requires C.ResolvedStep(s, c, answer).Some? && forall g :: g in s.issued ==> g <= s.gens
    ensures Extends(s, C.ResolvedStep(s, c, answer).value)
  {
    hide C.Absorb, C.Serve;
    var e, since := s.callers[c].slot, s.callers[c].since;
    var u := C.Release(s, c, e);
    AbsorbExtends(u, e, answer, since, since);
    if answer.Gives? && CM.ValidAt(C.Given(answer.creds), since) {
      CT.StoreServes(u, e, answer, since, since);
      ServeExtends(C.Absorb(u, e, answer, since, since), c, e, since);
    }
  }

  lemma RefreshedExtends(s: C.Sys, rid: C.RefreshId, answer: C.Answer, now: Time, failedAt: Time)
    requires C.RefreshedStep(s, rid, answer, now, failedAt).Some? && forall g :: g in s.issued ==> g <= s.gens
    ensures Extends(s, C.RefreshedStep(s, rid, answer, now, failedAt).value)
  {
    hide C.Absorb;
    var r := s.refreshes[rid];
    var u := C.SetSlot(s, r.slot, s.slots[r.slot].(refresh := None)).(
      refreshes := s.refreshes[rid := r.(running := false)], clock := failedAt);
    AbsorbExtends(u, r.slot, answer, now, failedAt);
  }

  lemma EnterExtends(s: C.Sys, c: C.CallerId, now: Time, rid: C.RefreshId)
    requires C.EnterStep(s, c, now, rid).Some?
    ensures Extends(s, C.EnterStep(s, c, now, rid).value)
  {
  }

  lemma FindExtends(s: C.Sys, c: C.CallerId, now: Time, newSlot: C.SlotId, jitter: Time)
    requires C.FindStep(s, c, now, newSlot, jitter).Some?
    ensures Extends(s, C.FindStep(s, c, now, newSlot, jitter).value)
  {
  }

  lemma InvalidateExtends(s: C.Sys, c: C.CallerId, now: Time)
    requires C.InvalidateStep(s, c, now).Some?
    ensures Extends(s, C.InvalidateStep(s, c, now).value)
  {
    hide CM.Apply;
  }

  lemma CredExtends(s: C.Sys, a: C.Action)
    requires C.Step(s, a).Some? && forall g :: g in s.issued ==> g <= s.gens
    ensures Extends(s, C.Step(s, a).value)
  {
    hide C.FindStep, C.EnterStep, C.ResolvedStep, C.RefreshedStep, C.InvalidateStep;
    match a
    case Find(c, now, newSlot, jitter) => FindExtends(s, c, now, newSlot, jitter);
    case Enter(c, now, rid) => EnterExtends(s, c, now, rid);
    case Resolved(c, answer) => ResolvedExtends(s, c, answer);
    case Refreshed(rid, answer, now, failedAt) => RefreshedExtends(s, rid, answer, now, failedAt);
    case Invalidate(c, now) => InvalidateExtends(s, c, now);
    case _ =>
  }

  lemma IssuedStays(s: C.Sys, t: C.Sys, g: int, who: C.CacheKey, m: CM.Material)
    requires Extends(s, t) && IssuedFor(s, g, who, m)
    ensures IssuedFor(t, g, who, m)
  {
  }

  // ---- Keys stay as they are ----

  /** The spawn's factory has returned. */
  predicate Made(ph: Phase) { ph.Connecting? || ph.Opened? }

  predicate RowKeysStay(s: Sys, t: Sys) {
    forall c :: c in t.pool.table ==> c in s.pool.table && t.pool.table[c].key == s.pool.table[c].key
  }

  predicate TaskKeysStay(s: Sys, t: Sys) {
    forall sp :: sp in s.tasks ==> sp in t.tasks && t.tasks[sp].key == s.tasks[sp].key
  }

  predicate TasksStay(s: Sys, t: Sys) {
    TaskKeysStay(s, t) && forall sp :: sp in t.tasks && Made(t.tasks[sp].phase) ==> sp in s.tasks && Made(s.tasks[sp].phase)
  }

  predicate CallerKeysStay(s: Sys, t: Sys) {
    s.callers.Keys <= t.callers.Keys && forall c :: c in t.callers && !t.callers[c].Done? ==>
      c in s.callers && !s.callers[c].Done? && t.callers[c].key == s.callers[c].key
  }

  predicate Stays(s: Sys, t: Sys) {
    RowKeysStay(s, t) && TasksStay(s, t) && CallerKeysStay(s, t) && t.origin == s.origin
  }

  lemma LookUpRows(s: Sys, cfg: PoolConfig, c: CallerId, me: Caller, now: Time, sp: SpawnId)
    requires EntriesOk(s.pool) && me.Trying?
    ensures RowKeysStay(s, LookUpStep(s, cfg, c, me, now, sp))
  {
    hide Lookup, EntriesOk, RowKeysStay;
    A.LookupTable(s.pool, cfg, me.key, now, s.dead, sp);
    var l := Lookup(s.pool, cfg, me.key, now, s.dead, sp);
    if l.outcome.Queued? {
      QueueRows(s, LookUpStep(s, cfg, c, me, now, sp), l.outcome.conn, now);
    } else {
      SameRows(s, LookUpStep(s, cfg, c, me, now, sp));
    }
  }

  lemma QueueRows(s: Sys, t: Sys, c: ConnId, now: Time)
    requires c in s.pool.table && t.pool.table == QueueOn(s.pool, c, now).table
    ensures RowKeysStay(s, t)
  {
  }

  lemma SameRows(s: Sys, t: Sys)
    requires t.pool.table == s.pool.table
    ensures RowKeysStay(s, t)
  {
  }

  lemma LookUpTasks(s: Sys, cfg: PoolConfig, c: CallerId, me: Caller, now: Time, sp: SpawnId)
    requires me.Trying? && sp !in s.tasks
    ensures var t := LookUpStep(s, cfg, c, me, now, sp); TasksStay(s, t) && t.origin == s.origin
  {
    hide LookUpStep, DropUnusable, RetireSuperseded, Decide, QueueOn;
    LookUpBecomes(s, cfg, c, me, now, sp);
  }

  lemma LookUpCallers(s: Sys, cfg: PoolConfig, c: CallerId, me: Caller, now: Time, sp: SpawnId)
    requires me.Trying? && c in s.callers && s.callers[c] == me
    ensures CallerKeysStay(s, LookUpStep(s, cfg, c, me, now, sp))
  {
    hide Lookup;
  }

  lemma LookUpStays(s: Sys, cfg: PoolConfig, c: CallerId, me: Caller, now: Time, sp: SpawnId)
    requires EntriesOk(s.pool) && me.Trying? && c in s.callers && s.callers[c] == me && sp !in s.tasks
    ensures Stays(s, LookUpStep(s, cfg, c, me, now, sp))
  {
    hide LookUpStep, EntriesOk, RowKeysStay, TasksStay, CallerKeysStay;
    LookUpRows(s, cfg, c, me, now, sp);
    LookUpTasks(s, cfg, c, me, now, sp);
    LookUpCallers(s, cfg, c, me, now, sp);
  }

  lemma CallerStays(s: Sys, cfg: PoolConfig, c: CallerId, a: CallerAction)
    requires Shape(s) && CallerEnabled(s, cfg, c, a) && !a.Arrive?
    ensures Stays(s, CallerMove(s, cfg, c, a))
  {
    PoolOfShape(s);
    if a.LookUp? {
      hide CallerMove, Shape, Stays;
      LookUpIs(s, cfg, c, a);
      LookUpStays(s, cfg, c, s.callers[c], a.now, a.newSpawn);
    } else {
      assert CallerOk(s, s.callers[c]);
      hide Shape, CallerMove;
      Cap.CallerRows(s, cfg, c, a);
      CallerKeeps(s, cfg, c, a);
    }
  }

  lemma LookUpIs(s: Sys, cfg: PoolConfig, c: CallerId, a: CallerAction)
    requires CallerEnabled(s, cfg, c, a) && a.LookUp?
    ensures CallerMove(s, cfg, c, a) == LookUpStep(s, cfg, c, s.callers[c], a.now, a.newSpawn)
  {
    hide LookUpStep;
  }

  lemma CallerKeeps(s: Sys, cfg: PoolConfig, c: CallerId, a: CallerAction)
    requires CallerEnabled(s, cfg, c, a) && !a.Arrive? && !a.LookUp?
    ensures var t := CallerMove(s, cfg, c, a); CallerKeysStay(s, t) && t.origin == s.origin && t.tasks == s.tasks
  {
    hide LookUpStep;
  }

  lemma SpawnStays(s: Sys, cfg: PoolConfig, sp: SpawnId, a: SpawnAction)
    requires SpawnEnabled(s, sp, a) && !a.FactoryReturns? && !a.ConnectReturns? && !a.Land?
    ensures Stays(s, SpawnMove(s, cfg, sp, a))
  {
  }

  lemma PoolStays(s: Sys, cfg: PoolConfig, a: PoolAction)
    ensures Stays(s, PoolMove(s, cfg, a))
  {
  }

  lemma ApplyStays(s: Sys, a: ApplyAction)
    requires ApplyEnabled(s, a)
    ensures Stays(s, ApplyMove(s, a))
  {
  }

  // ---- What every step keeps ----

  /** The backend was built for the key it is filed under, with nothing or with that key's generation. */
  predicate BackendOk(w: World, c: ConnId) {
    && c in w.gate.origin && w.gate.origin[c].spawn in w.gate.tasks && w.gate.origin[c].spawn in w.built
    && (c in w.gate.pool.table ==> w.gate.tasks[w.gate.origin[c].spawn].key == w.gate.pool.table[c].key)
  }

  predicate BuiltOk(w: World, sp: SpawnId)
    requires sp in w.built
  {
    && sp in w.gate.tasks
    && (w.built[sp].Some? ==>
          var k := w.gate.tasks[sp].key; IssuedFor(w.cred, k.credVersion, Identity(k), w.built[sp].value))
  }

  predicate AskedOk(w: World, c: CallerId)
    requires c in w.asked
  {
    && w.asked[c] < |w.cred.served|
    && (c in w.gate.callers && !w.gate.callers[c].Done? ==> w.gate.callers[c].key == Mint(w.cred.served[w.asked[c]]))
  }

  ghost predicate WorldOk(w: World) {
    && Shape(w.gate) && CT.Generations(w.cred) && w.cred.gens >= 0
    && (forall c :: c in w.gate.origin || c in w.gate.pool.table ==> BackendOk(w, c))
    && (forall sp :: sp in w.gate.tasks && Made(w.gate.tasks[sp].phase) ==> sp in w.built)
    && (forall sp :: sp in w.built ==> BuiltOk(w, sp))
    && (forall c :: c in w.asked ==> c in w.gate.callers && AskedOk(w, c))
  }

  /** The gate moved, and every backend is still one that its spawn was built for. */
  lemma MovesOk(w: World, t: Sys)
    requires WorldOk(w) && Shape(t) && TaskKeysStay(w.gate, t) && CallerKeysStay(w.gate, t)
    requires forall sp :: sp in t.tasks && Made(t.tasks[sp].phase) ==> sp in w.built
    requires forall c :: c in t.origin || c in t.pool.table ==> BackendOk(w.(gate := t), c)
    ensures WorldOk(w.(gate := t))
  {
    hide Shape, CT.Generations, IssuedFor, Mint, BackendOk;
    var u := w.(gate := t);
    forall sp | sp in u.built
      ensures BuiltOk(u, sp)
    {
      assert BuiltOk(w, sp);
    }
    forall c | c in u.asked
      ensures AskedOk(u, c)
    {
      assert AskedOk(w, c);
    }
  }

  lemma StaysOk(w: World, t: Sys)
    requires WorldOk(w) && Stays(w.gate, t) && Shape(t)
    ensures WorldOk(w.(gate := t))
  {
    hide Shape, CT.Generations, BuiltOk, AskedOk;
    forall c | c in t.origin || c in t.pool.table
      ensures BackendOk(w.(gate := t), c)
    {
      assert BackendOk(w, c);
    }
    hide WorldOk, BackendOk;
    assert forall sp :: sp in w.gate.tasks && Made(w.gate.tasks[sp].phase) ==> sp in w.built by { MadeIsBuilt(w); }
    MovesOk(w, t);
  }

  lemma MadeIsBuilt(w: World)
    requires WorldOk(w)
    ensures forall sp :: sp in w.gate.tasks && Made(w.gate.tasks[sp].phase) ==> sp in w.built
  {
  }

  lemma ConnectOk(w: World, cfg: PoolConfig, sp: SpawnId, conn: ConnId)
    requires WorldOk(w) && SpawnEnabled(w.gate, sp, ConnectReturns(conn))
    ensures WorldOk(w.(gate := ConnectStep(w.gate, sp, conn)))
  {
    hide Shape, CT.Generations, BuiltOk, AskedOk;
    var t := ConnectStep(w.gate, sp, conn);
    ConnectKeepsShape(w.gate, sp, conn);
    ConnsOfShape(w.gate);
    forall c | c in t.origin || c in t.pool.table
      ensures BackendOk(w.(gate := t), c)
    {
      assert c != conn ==> BackendOk(w, c);
    }
    MadeIsBuilt(w);
    hide WorldOk, BackendOk;
    MovesOk(w, t);
  }

  lemma ConnsOfShape(s: Sys)
    requires Shape(s)
    ensures s.pool.table.Keys <= s.origin.Keys
  {
  }

  lemma TaskOfShape(s: Sys, sp: SpawnId)
    requires Shape(s) && sp in s.tasks
    ensures TaskOk(s, sp)
  {
  }

  lemma LandBackend(w: World, cfg: PoolConfig, sp: SpawnId, now: Time, expiry: Option<Time>, c: ConnId)
    requires SpawnEnabled(w.gate, sp, Land(now, expiry)) && TaskOk(w.gate, sp)
    requires c in w.gate.origin ==> BackendOk(w, c)
    requires c in w.gate.pool.table ==> BackendOk(w, c)
    requires var t := LandStep(w.gate, cfg, sp, now, expiry); c in t.origin || c in t.pool.table
    ensures BackendOk(w.(gate := LandStep(w.gate, cfg, sp, now, expiry)), c)
  {
    LandMoves(w.gate, cfg, sp, now, expiry);
    hide LandStep, TaskOk;
  }

  /** The new row has the key of the spawn that opened its connection. */
  lemma LandOk(w: World, cfg: PoolConfig, sp: SpawnId, now: Time, expiry: Option<Time>)
    requires WorldOk(w) && SpawnEnabled(w.gate, sp, Land(now, expiry))
    ensures WorldOk(w.(gate := LandStep(w.gate, cfg, sp, now, expiry)))
  {
    hide Shape, CT.Generations, BuiltOk, AskedOk, LandStep, TaskOk, BackendOk;
    var t := LandStep(w.gate, cfg, sp, now, expiry);
    LandKeepsShape(w.gate, cfg, sp, now, expiry);
    TaskOfShape(w.gate, sp);
    LandMoves(w.gate, cfg, sp, now, expiry);
    forall c | c in t.origin || c in t.pool.table
      ensures BackendOk(w.(gate := t), c)
    {
      LandBackend(w, cfg, sp, now, expiry, c);
    }
    MadeIsBuilt(w);
    hide WorldOk;
    MovesOk(w, t);
  }

  lemma LandMoves(s: Sys, cfg: PoolConfig, sp: SpawnId, now: Time, expiry: Option<Time>)
    requires SpawnEnabled(s, sp, Land(now, expiry)) && TaskOk(s, sp)
    ensures var t := LandStep(s, cfg, sp, now, expiry); var conn := s.tasks[sp].phase.conn;
            && conn in s.origin && s.origin[conn].spawn == sp && t.origin == s.origin && t.callers == s.callers
            && t.tasks.Keys == s.tasks.Keys && !Made(t.tasks[sp].phase)
            && (forall q :: q in s.tasks ==> t.tasks[q].key == s.tasks[q].key && (q != sp ==> t.tasks[q] == s.tasks[q]))
            && (forall c :: c in t.pool.table ==>
                  if c == conn then t.pool.table[c].key == s.tasks[sp].key
                  else c in s.pool.table && t.pool.table[c] == s.pool.table[c])
  {
    var conn := s.tasks[sp].phase.conn;
    assert conn in s.origin && s.origin[conn].spawn == sp && conn !in s.pool.table && SpawnRow(s.pool, sp).key == s.tasks[sp].key;
    hide TaskOk, LandStep, SpawnRow;
    LandSettles(s, cfg, sp, now, expiry);
    InstallTable(s.pool, cfg, sp, conn, now, expiry, s.dead);
    hide Install;
  }

  lemma LandSettles(s: Sys, cfg: PoolConfig, sp: SpawnId, now: Time, expiry: Option<Time>)
    requires sp in s.tasks && s.tasks[sp].phase.Opened?
    ensures var t := LandStep(s, cfg, sp, now, expiry);
            && t.pool == Install(s.pool, cfg, sp, s.tasks[sp].phase.conn, now, expiry, s.dead).pool
            && t.origin == s.origin && t.callers == s.callers && t.tasks.Keys == s.tasks.Keys && !Made(t.tasks[sp].phase)
            && (forall q :: q in s.tasks ==> t.tasks[q].key == s.tasks[q].key && (q != sp ==> t.tasks[q] == s.tasks[q]))
  {
    hide Install;
  }

  lemma InstallTable(p: Pool, cfg: PoolConfig, sp: SpawnId, conn: ConnId, now: Time, expiry: Option<Time>, dead: set<ConnId>)
    requires conn !in p.table
    ensures forall c :: c in Install(p, cfg, sp, conn, now, expiry, dead).pool.table ==>
              if c == conn then Install(p, cfg, sp, conn, now, expiry, dead).pool.table[c].key == SpawnRow(p, sp).key
              else c in p.table && Install(p, cfg, sp, conn, now, expiry, dead).pool.table[c] == p.table[c]
  {
    hide Deadline;
  }

  lemma GateOk(w: World, cfg: PoolConfig, a: Action)
    requires WorldOk(w) && Enabled(w.gate, cfg, a) && !Shared(a)
    ensures WorldOk(w.(gate := Step(w.gate, cfg, a)))
  {
    hide Shape, CT.Generations, Stays, CallerMove, SpawnMove, PoolMove, ApplyMove, CallerEnabled, SpawnEnabled,
      PoolEnabled, ApplyEnabled, BackendOk, BuiltOk, AskedOk, Clock;
    assert Shape(w.gate);
    ShapeStep(w.gate, cfg, a);
    if a.BySpawn? && (a.work.ConnectReturns? || a.work.Land?) {
      SpawnMoveOk(w, cfg, a.spawn, a.work);
      var u := w.(gate := SpawnMove(w.gate, cfg, a.spawn, a.work));
      ClockStays(u.gate, Step(w.gate, cfg, a));
      StaysOk(u, Step(w.gate, cfg, a));
    } else {
      var t := Move(w.gate, cfg, a);
      match a {
        case ByCaller(c, call) => CallerStays(w.gate, cfg, c, call);
        case BySpawn(sp, work) => SpawnStays(w.gate, cfg, sp, work);
        case ByPool(p) => PoolStays(w.gate, cfg, p);
        case ByApply(ap) => ApplyStays(w.gate, ap);
      }
      ClockStays(t, Step(w.gate, cfg, a));
      StaysTwice(w.gate, t, Step(w.gate, cfg, a));
      StaysOk(w, Step(w.gate, cfg, a));
    }
  }

  lemma SpawnMoveOk(w: World, cfg: PoolConfig, sp: SpawnId, a: SpawnAction)
    requires WorldOk(w) && SpawnEnabled(w.gate, sp, a) && (a.ConnectReturns? || a.Land?)
    ensures WorldOk(w.(gate := SpawnMove(w.gate, cfg, sp, a)))
  {
    hide WorldOk, ConnectStep, LandStep;
    match a
    case ConnectReturns(conn) => ConnectOk(w, cfg, sp, conn);
    case Land(now, expiry) => LandOk(w, cfg, sp, now, expiry);
  }

  lemma ClockStays(s: Sys, t: Sys)
    requires t == s.(clock := t.clock)
    ensures Stays(s, t)
  {
  }

  lemma StaysTwice(s: Sys, t: Sys, u: Sys)
    requires Stays(s, t) && Stays(t, u)
    ensures Stays(s, u)
  {
  }

  lemma CredOk(w: World, a: C.Action)
    requires WorldOk(w) && C.Step(w.cred, a).Some?
    ensures WorldOk(w.(cred := C.Step(w.cred, a).value))
  {
    var t := C.Step(w.cred, a).value;
    var u := w.(cred := t);
    CT.GenerationsStep(w.cred, a);
    CredExtends(w.cred, a);
    hide C.Step, Shape, CT.Generations, Mint, IssuedFor, Identity;
    forall c | c in u.gate.origin || c in u.gate.pool.table
      ensures BackendOk(u, c)
    {
      assert BackendOk(w, c);
    }
    forall sp | sp in u.built
      ensures BuiltOk(u, sp)
    {
      assert BuiltOk(w, sp);
      if w.built[sp].Some? {
        var k := w.gate.tasks[sp].key;
        IssuedStays(w.cred, t, k.credVersion, Identity(k), w.built[sp].value);
      }
    }
    forall c | c in u.asked
      ensures AskedOk(u, c)
    {
      assert AskedOk(w, c);
    }
  }

  lemma ArriveOk(w: World, cfg: PoolConfig, c: CallerId, key: Key)
    requires WorldOk(w) && Enabled(w.gate, cfg, ByCaller(c, Arrive(key)))
    ensures var t := Step(w.gate, cfg, ByCaller(c, Arrive(key)));
            WorldOk(w.(gate := t)) && t.callers == w.gate.callers[c := Trying(key, 1)] && c !in w.asked
  {
    ShapeStep(w.gate, cfg, ByCaller(c, Arrive(key)));
    var t := Step(w.gate, cfg, ByCaller(c, Arrive(key)));
    var u := w.(gate := t);
    hide Shape, CT.Generations, Mint, IssuedFor;
    forall d | d in t.origin || d in t.pool.table
      ensures BackendOk(u, d)
    {
      assert BackendOk(w, d);
    }
    forall sp | sp in u.built
      ensures BuiltOk(u, sp)
    {
      assert BuiltOk(w, sp);
    }
    forall d | d in u.asked
      ensures AskedOk(u, d)
    {
      assert AskedOk(w, d);
    }
  }

  lemma RequestOk(w: World, cfg: PoolConfig, c: CallerId, i: nat)
    requires WorldOk(w) && WorldStep(w, cfg, Request(c, i)).Some?
    ensures WorldOk(WorldStep(w, cfg, Request(c, i)).value)
  {
    var key := Mint(w.cred.served[i]);
    ArriveOk(w, cfg, c, key);
    var u := w.(gate := Step(w.gate, cfg, ByCaller(c, Arrive(key))));
    var t := u.(asked := u.asked[c := i]);
    hide Shape, CT.Generations, Mint, IssuedFor, Step, Enabled;
    AskOk(u, c, i);
  }

  lemma AskOk(w: World, c: CallerId, i: nat)
    requires WorldOk(w) && i < |w.cred.served| && c in w.gate.callers && w.gate.callers[c] == Trying(Mint(w.cred.served[i]), 1)
    ensures WorldOk(w.(asked := w.asked[c := i]))
  {
    var t := w.(asked := w.asked[c := i]);
    hide Shape, CT.Generations, Mint, IssuedFor;
    forall d | d in t.gate.origin || d in t.gate.pool.table
      ensures BackendOk(t, d)
    {
      assert BackendOk(w, d);
    }
    forall sp | sp in t.built
      ensures BuiltOk(t, sp)
    {
      assert BuiltOk(w, sp);
    }
    forall d | d in t.asked
      ensures AskedOk(t, d)
    {
      assert d != c ==> AskedOk(w, d);
    }
  }

  /** What was served of a generation is what it was issued for. */
  lemma ServedIsIssued(s: C.Sys, i: nat)
    requires CT.Generations(s) && i < |s.served|
    ensures IssuedFor(s, s.served[i].gen, s.served[i].key, s.served[i].creds.material)
  {
    assert CT.ServedOk(s, s.served[i]);
  }

  lemma GiveOk(w: World, sp: SpawnId, given: Option<CM.Material>)
    requires WorldOk(w) && sp in w.gate.tasks && w.gate.tasks[sp].phase.Read?
    requires given.Some? ==> var k := w.gate.tasks[sp].key; IssuedFor(w.cred, k.credVersion, Identity(k), given.value)
    ensures WorldOk(w.(built := w.built[sp := given]))
  {
    hide Shape, CT.Generations, Mint, IssuedFor, Identity;
    var t := w.(built := w.built[sp := given]);
    forall c | c in t.gate.origin || c in t.gate.pool.table
      ensures BackendOk(t, c)
    {
      assert BackendOk(w, c);
    }
    forall sq | sq in t.built
      ensures BuiltOk(t, sq)
    {
      assert sq != sp ==> BuiltOk(w, sq);
    }
    forall c | c in t.asked
      ensures AskedOk(t, c)
    {
      assert AskedOk(w, c);
    }
  }

  lemma ReturnOk(w: World, cfg: PoolConfig, sp: SpawnId, now: Time)
    requires WorldOk(w) && Enabled(w.gate, cfg, BySpawn(sp, FactoryReturns(now))) && sp in w.built
    ensures WorldOk(w.(gate := Step(w.gate, cfg, BySpawn(sp, FactoryReturns(now)))))
  {
    hide Shape, CT.Generations, BuiltOk, AskedOk;
    ShapeStep(w.gate, cfg, BySpawn(sp, FactoryReturns(now)));
    var t := Step(w.gate, cfg, BySpawn(sp, FactoryReturns(now)));
    forall c | c in t.origin || c in t.pool.table
      ensures BackendOk(w.(gate := t), c)
    {
      assert BackendOk(w, c);
    }
    MadeIsBuilt(w);
    hide WorldOk, BackendOk;
    MovesOk(w, t);
  }

  lemma BuildOk(w: World, cfg: PoolConfig, sp: SpawnId, result: Option<nat>, now: Time)
    requires WorldOk(w) && BuildStep(w, cfg, sp, result, now).Some?
    ensures WorldOk(BuildStep(w, cfg, sp, result, now).value)
  {
    assert CT.Generations(w.cred);
    hide WorldOk, CT.Generations, IssuedFor, Identity, Step;
    var t := BuildStep(w, cfg, sp, result, now).value;
    if result.Some? {
      ServedIsIssued(w.cred, result.value);
    }
    GiveOk(w, sp, t.built[sp]);
    ReturnOk(w.(built := t.built), cfg, sp, now);
  }

  lemma WorldStepOk(w: World, cfg: PoolConfig, a: WorldAction)
    requires WorldOk(w) && WorldStep(w, cfg, a).Some?
    ensures WorldOk(WorldStep(w, cfg, a).value)
  {
    hide WorldOk, Step, Enabled, BuildStep, Shared, C.Step, Mint;
    match a
    case Gate(act) => GateOk(w, cfg, act);
    case Cred(act) => CredOk(w, act);
    case Request(c, i) => RequestOk(w, cfg, c, i);
    case PlainRequest(c, server, tenant) => ArriveOk(w, cfg, c, Key(server, tenant, "", 0));
    case Build(sp, result, now) => BuildOk(w, cfg, sp, result, now);
  }

  lemma {:induction false} WorldRunOk(cfg: PoolConfig, acts: seq<WorldAction>)
    requires WorldRun(cfg, acts).Some?
    ensures WorldOk(WorldRun(cfg, acts).value)
  {
    if acts != [] {
      WorldRunOk(cfg, acts[..|acts| - 1]);
      WorldStepOk(WorldRun(cfg, acts[..|acts| - 1]).value, cfg, acts[|acts| - 1]);
      hide WorldOk, WorldStep;
    }
  }

  // ---- Theorems ----

  /** Built with nothing, or with exactly what every result of the key's generation carries, for the key's own identity. */
  predicate HoldsItsGeneration(w: World, c: ConnId)
    requires c in w.gate.pool.table && c in w.gate.origin && w.gate.origin[c].spawn in w.built
  {
    var k, given := w.gate.pool.table[c].key, w.built[w.gate.origin[c].spawn];
    given.Some? ==> forall i :: 0 <= i < |w.cred.served| && w.cred.served[i].gen == k.credVersion ==>
      w.cred.served[i].creds.material == given.value && w.cred.served[i].key == Identity(k)
  }

  /** Every entry the pool ever filed under a generation was built with that generation's material, or with none. */
  lemma PoolKeyMaterial(cfg: PoolConfig, acts: seq<WorldAction>, c: ConnId)
    requires WorldRun(cfg, acts).Some? && c in WorldRun(cfg, acts).value.gate.pool.table
    ensures var w := WorldRun(cfg, acts).value;
            c in w.gate.origin && w.gate.origin[c].spawn in w.built && HoldsItsGeneration(w, c)
  {
    WorldRunOk(cfg, acts);
    var w := WorldRun(cfg, acts).value;
    assert BackendOk(w, c);
    var sp := w.gate.origin[c].spawn;
    assert BuiltOk(w, sp);
    hide WorldRun, Shape, Mint, Identity;
    forall i | 0 <= i < |w.cred.served|
      ensures IssuedFor(w.cred, w.cred.served[i].gen, w.cred.served[i].key, w.cred.served[i].creds.material)
    {
      ServedIsIssued(w.cred, i);
    }
    hide CT.Generations;
  }

  /** A call runs on a backend that holds what the caller's own resolve returned, or that was given nothing. */
  lemma CallerGetsItsOwn(cfg: PoolConfig, acts: seq<WorldAction>, c: CallerId)
    requires WorldRun(cfg, acts).Some?
    requires var w := WorldRun(cfg, acts).value; c in w.asked && c in w.gate.callers && w.gate.callers[c].Calling?
    ensures var w := WorldRun(cfg, acts).value; var conn := w.gate.callers[c].conn;
            && w.asked[c] < |w.cred.served| && conn in w.gate.origin && w.gate.origin[conn].spawn in w.built
            && var given := w.built[w.gate.origin[conn].spawn];
               given.Some? ==> given.value == w.cred.served[w.asked[c]].creds.material
  {
    WorldRunOk(cfg, acts);
    var w := WorldRun(cfg, acts).value;
    var conn := w.gate.callers[c].conn;
    assert AskedOk(w, c);
    assert conn in w.gate.pool.table && w.gate.pool.table[conn].key == w.gate.callers[c].key by {
      assert CallerOk(w.gate, w.gate.callers[c]);
    }
    hide WorldRun, Shape, WorldOk, Identity;
    PoolKeyMaterial(cfg, acts, conn);
    assert HoldsItsGeneration(w, conn);
  }
}
