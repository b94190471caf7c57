/**
One entry of the credential cache (cached.go) as a value: what the sections that hold its mutex do to
it, how long each backoff is, and how far apart forced refetches are.
*/
module CredModel {
  import opened Common

  type Time = int

  const ZERO_TIME: Time := 0
  const BACKOFF_BASE: Time := 1_000_000_000
  const BACKOFF_CAP: Time := 30_000_000_000

  // ---- failBackoff ----

  function Pow2(n: nat): nat { if n == 0 then 1 else 2 * Pow2(n - 1) }

  /** A 64-bit two's complement integer. */
  function Wrap64(x: int): int { (x + 0x8000_0000_0000_0000) % 0x1_0000_0000_0000_0000 - 0x8000_0000_0000_0000 }

  function ShiftLeft64(x: int, n: nat): int { if n >= 64 then 0 else Wrap64(x * Pow2(n)) }

  function Backoff(fails: nat): Time
    requires fails >= 1
  {
    var d := ShiftLeft64(BACKOFF_BASE, fails - 1);
    if d > BACKOFF_CAP || d <= 0 then BACKOFF_CAP else d
  }

  lemma {:induction false} Pow2Grows(m: nat, n: nat)
    requires m <= n
    ensures 1 <= Pow2(m) <= Pow2(n)
  {
    if m < n {
      Pow2Grows(m, n - 1);
    } else if m > 0 {
      Pow2Grows(m - 1, m - 1);
    }
  }

  lemma Pow2Values()
    ensures Pow2(33) == 0x2_0000_0000 && Pow2(34) == 0x4_0000_0000
  {
    assert Pow2(11) == 0x800;
    assert Pow2(22) == 0x40_0000;
    assert Pow2(33) == 0x2_0000_0000;
  }

  /** From the 35th failure on the shifted base is a multiple of 2^43: it wraps to nothing between zero and the cap. */
  lemma {:induction false} HighShift(k: nat) returns (y: nat)
    requires k >= 34
    ensures BACKOFF_BASE * Pow2(k) == 0x800_0000_0000 * y
  {
    if k == 34 {
      Pow2Values();
      y := 1953125;
    } else {
      var half := HighShift(k - 1);
      y := 2 * half;
    }
  }

  lemma WrapsToCap(y: nat)
    ensures var d := Wrap64(0x800_0000_0000 * y); d <= 0 || d > BACKOFF_CAP
  {
  }

  /** Overflow included, the wait doubles from one second and stops at thirty. */
  lemma BackoffExact(n: nat)
    requires n >= 1
    ensures Backoff(n) == if 1_000_000_000 * Pow2(n - 1) < 30_000_000_000 then 1_000_000_000 * Pow2(n - 1) else 30_000_000_000
  {
    var k := n - 1;
    Pow2Values();
    if k <= 33 {
      Pow2Grows(k, 33);
    } else {
      Pow2Grows(34, k);
      var y := HighShift(k);
      WrapsToCap(y);
      hide Wrap64, Pow2;
    }
  }

  lemma BackoffMonotone(m: nat, n: nat)
    requires 1 <= m <= n
    ensures 1_000_000_000 <= Backoff(m) <= Backoff(n) <= 30_000_000_000
  {
    BackoffExact(m);
    BackoffExact(n);
    Pow2Grows(m - 1, n - 1);
    hide Backoff, Pow2;
  }

  // ---- An entry ----

  /** The injectable headers and environment, as one value. */
  type Material = string

  datatype Creds = Creds(material: Material, expiresAt: Option<Time>)

  /** The material of credentials that were not given. */
  const NOTHING: Creds := Creds("", None)

  datatype Entry = Entry(
    skew: Time, jitter: Time,
    creds: Option<Creds>, gone: Option<Creds>, gen: int, epoch: nat, refreshAt: Time,
    fails: nat, retryAt: Time, futile: nat, invalidateAt: Time)

  function NewEntry(skew: Time, jitter: Time): Entry {
    Entry(skew, jitter, None, None, 0, 0, ZERO_TIME, 0, ZERO_TIME, 0, ZERO_TIME)
  }

  predicate ValidAt(c: Creds, now: Time) { c.expiresAt.None? || now < c.expiresAt.value }

  predicate Servable(e: Entry, now: Time) { e.creds.Some? && ValidAt(e.creds.value, now) }

  /** What the entry last held, an invalidated copy included. */
  function Held(e: Entry): Option<Creds> { if e.creds.Some? then e.creds else e.gone }

  predicate Moved(e: Entry, c: Creds) { Held(e).None? || Held(e).value.material != c.material }

  /** The next store answers an Invalidate that dropped something. */
  predicate Forced(e: Entry) { e.creds.None? && e.gone.Some? }

  function RefreshAt(e: Entry, c: Creds, now: Time): Time {
    if c.expiresAt.None? then e.refreshAt
    else
      var expiry := c.expiresAt.value;
      if e.creds.Some? && e.creds.value.expiresAt.Some? && expiry <= e.creds.value.expiresAt.value then now + e.skew
      else
        var lead := e.skew + e.jitter;
        expiry - (if lead > (expiry - now) / 2 then (expiry - now) / 2 else lead)
  }

  /** store, once the credentials have been found unexpired; gen is the process-wide counter's next value. */
  function Store(e: Entry, c: Creds, now: Time, gen: int): Entry {
    var moved := Moved(e, c);
    var futile := if moved then 0 else if Forced(e) then e.futile + 1 else e.futile;
    e.(creds := Some(c), gone := None, gen := if moved then gen else e.gen, epoch := e.epoch + 1,
       refreshAt := RefreshAt(e, c, now), fails := 0, retryAt := ZERO_TIME, futile := futile,
       invalidateAt := if moved then ZERO_TIME else if Forced(e) then now + Backoff(futile) else e.invalidateAt)
  }

  function Fail(e: Entry, now: Time): Entry {
    e.(fails := e.fails + 1, retryAt := now + Backoff(e.fails + 1))
  }

  /** Invalidate. */
  function Drop(e: Entry, now: Time): Entry {
    if now < e.invalidateAt then e
    else if e.creds.None? then
      e.(fails := 0, retryAt := ZERO_TIME, futile := e.futile + 1, invalidateAt := now + Backoff(e.futile + 1),
         epoch := e.epoch + 1)
    else e.(gone := e.creds, creds := None, fails := 0, retryAt := ZERO_TIME, epoch := e.epoch + 1)
  }

  /**
  When refresh-ahead begins after a store: the lead time before the expiry, or halfway through what is left of
  the credentials' life if that is later - unless their expiry did not advance, and then a fixed time from
  now rather than a fraction of a life that keeps shrinking.
  */
  lemma RefreshAheadBounds(e: Entry, c: Creds, now: Time, gen: int)
    requires e.skew >= 0 && e.jitter >= 0 && c.expiresAt.Some? && ValidAt(c, now)
    ensures var at := Store(e, c, now, gen).refreshAt; var expiry := c.expiresAt.value;
            if e.creds.Some? && e.creds.value.expiresAt.Some? && expiry <= e.creds.value.expiresAt.value then at - now == e.skew
            else
              && 2 * (at - now) >= expiry - now && at <= expiry && expiry - at <= e.skew + e.jitter
              && (expiry - at == e.skew + e.jitter || 2 * (at - now) <= expiry - now + 1)
  {
  }

  /** An Invalidate acts exactly once the window has passed: what the spacing of refetches rests on, and all of it. */
  lemma InvalidateActs(e: Entry, now: Time)
    ensures Drop(e, now) != e <==> now >= e.invalidateAt
    ensures Drop(e, now) != e ==> Drop(e, now).creds.None? && Held(Drop(e, now)) == Held(e)
  {
    assert Drop(e, now) != e ==> Drop(e, now).epoch == e.epoch + 1;
  }

  // ---- The history of an entry ----

  /** One section that holds the entry's mutex, and the time it goes by. */
  datatype Op =
    | Stored(creds: Creds, now: Time, gen: int)
    | Failed(now: Time)
    | Dropped(now: Time)

  function Apply(e: Entry, op: Op): Entry {
    match op
    case Stored(c, now, gen) => Store(e, c, now, gen)
    case Failed(now) => Fail(e, now)
    case Dropped(now) => Drop(e, now)
  }

  function Replay(e: Entry, ops: seq<Op>): Entry {
    if ops == [] then e else Apply(Replay(e, ops[..|ops| - 1]), ops[|ops| - 1])
  }

  predicate AllFail(ops: seq<Op>) { forall i :: 0 <= i < |ops| ==> ops[i].Failed? }

  /** The negative cache: the n-th failure in a row is retried no sooner than the n-th backoff after it. */
  lemma {:induction false} FailuresBackOff(e: Entry, ops: seq<Op>)
    requires AllFail(ops) && ops != [] && e.fails == 0
    ensures var f := Replay(e, ops); f.fails == |ops| && f.retryAt == ops[|ops| - 1].now + Backoff(|ops|)
  {
    if |ops| > 1 {
      FailuresBackOff(e, ops[..|ops| - 1]);
    } else {
      assert Replay(e, ops[..0]) == e;
    }
    hide Backoff;
  }

  ghost predicate Ordered(ops: seq<Op>) {
    forall i, j :: 0 <= i < j < |ops| ==> ops[i].now < ops[j].now
  }

  function Before(e: Entry, ops: seq<Op>, i: nat): Entry
    requires i <= |ops|
  {
    Replay(e, ops[..i])
  }

  predicate Refetches(e: Entry, ops: seq<Op>, i: nat)
    requires i < |ops|
  {
    ops[i].Stored? && Forced(Before(e, ops, i))
  }

  predicate Moves(e: Entry, ops: seq<Op>, i: nat)
    requires i < |ops|
  {
    ops[i].Stored? && Moved(Before(e, ops, i), ops[i].creds)
  }

  lemma BeforeNext(e: Entry, ops: seq<Op>, i: nat)
    requires i < |ops|
    ensures Before(e, ops, i + 1) == Apply(Before(e, ops, i), ops[i])
  {
    assert ops[..i + 1][..i] == ops[..i];
  }

  /** The material of the latest store, whatever was dropped or failed since. */
  function LatestMaterial(ops: seq<Op>): Option<Material> {
    if ops == [] then None
    else if ops[|ops| - 1].Stored? then Some(ops[|ops| - 1].creds.material)
    else LatestMaterial(ops[..|ops| - 1])
  }

  lemma {:induction false} HeldIsLatest(e: Entry, ops: seq<Op>)
    requires Held(e).None?
    ensures var h := Held(Replay(e, ops)); LatestMaterial(ops) == if h.Some? then Some(h.value.material) else None
  {
    if ops != [] {
      HeldIsLatest(e, ops[..|ops| - 1]);
    }
    hide Backoff;
  }

  /** A store draws a new generation exactly if the material is not that of the store before it, Invalidates between included. */
  lemma GenerationMoves(e: Entry, ops: seq<Op>, i: nat)
    requires Held(e).None? && i < |ops| && ops[i].Stored?
    ensures Before(e, ops, i + 1).gen ==
      if LatestMaterial(ops[..i]) == Some(ops[i].creds.material) then Before(e, ops, i).gen else ops[i].gen
  {
    HeldIsLatest(e, ops[..i]);
    BeforeNext(e, ops, i);
    hide Replay, Backoff, RefreshAt;
  }

  /**
  After a refetch that came back with the same material, and until a store moves the material, the
  window it bought stands, and whatever was dropped since was dropped after that window.
  */
  lemma {:induction false} WindowStands(e: Entry, ops: seq<Op>, i: nat, j: nat)
    requires i < j <= |ops| && Ordered(ops)
    requires Refetches(e, ops, i) && !Moves(e, ops, i)
    requires forall m :: i < m < j ==> !Moves(e, ops, m)
    ensures var after := Before(e, ops, i + 1);
            after.futile >= 1 &&
            var opens := ops[i].now + Backoff(after.futile);
            && Before(e, ops, j).invalidateAt >= opens
            && (Forced(Before(e, ops, j)) ==> opens <= ops[j - 1].now)
    decreases j
  {
    BeforeNext(e, ops, j - 1);
    if j > i + 1 {
      WindowStands(e, ops, i, j - 1);
      assert !Moves(e, ops, j - 1);
      var b := Before(e, ops, j - 1);
      assert ops[j - 2].now < ops[j - 1].now;
      BackoffMonotone(b.futile + 1, b.futile + 1);
    }
    hide Backoff, Replay, Ordered;
  }

  /** Refetches that return unchanged material keep their distance, provided no store between moved it. */
  lemma RefetchesSpaced(e: Entry, ops: seq<Op>, i: nat, j: nat)
    requires i < j < |ops| && Ordered(ops)
    requires Refetches(e, ops, i) && !Moves(e, ops, i) && Refetches(e, ops, j)
    requires forall m :: i < m < j ==> !Moves(e, ops, m)
    ensures var futile := Before(e, ops, i + 1).futile;
            futile >= 1 && ops[j].now - ops[i].now > Backoff(futile)
  {
    WindowStands(e, ops, i, j);
    assert ops[j - 1].now < ops[j].now;
    hide Backoff, Replay;
  }
}
