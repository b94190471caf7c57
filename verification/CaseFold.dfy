/**
Keys that only case tells apart (params.go). Unicode's simple folding is a parameter: a permutation
of the scalars in which every orbit is finite.
*/
module CaseFold {
  import opened Common
  import opened Utf8

  const CAPITAL_I: Rune := 0x49
  const DOTTED_CAPITAL_I: Rune := 0x130
  const DOTLESS_SMALL_I: Rune := 0x131

  /** period(r) is a number of steps, not necessarily the least, that lead from r back to r. */
  datatype Folding = Folding(next: Rune -> Rune, period: Rune -> nat)

  function Step(fold: Folding, n: nat, r: Rune): Rune {
    if n == 0 then r else fold.next(Step(fold, n - 1, r))
  }

  ghost predicate FoldingOk(fold: Folding) {
    && (forall r :: Scalar(r) ==> Scalar(fold.next(r)))
    && (forall r :: Scalar(r) ==> fold.period(r) > 0 && Step(fold, fold.period(r), r) == r)
    && FoldOf(fold, CAPITAL_I) == CAPITAL_I
  }

  /** The least of r and its first n successors. */
  function LeastOf(fold: Folding, n: nat, r: Rune): Rune {
    if n == 0 then r
    else if Step(fold, n, r) < LeastOf(fold, n - 1, r) then Step(fold, n, r)
    else LeastOf(fold, n - 1, r)
  }

  function FoldOf(fold: Folding, r: Rune): Rune { LeastOf(fold, fold.period(r), r) }

  /** The dotted and dotless I, which case mapping joins to I and folding does not. */
  function Mapped(r: Rune): Rune {
    if r == DOTTED_CAPITAL_I || r == DOTLESS_SMALL_I then CAPITAL_I else r
  }

  function FoldRune(fold: Folding, r: Rune): Rune {
    if Mapped(r) != r then CAPITAL_I else FoldOf(fold, r)
  }

  ghost predicate SameOrbit(fold: Folding, a: Rune, b: Rune) { exists n: nat :: Step(fold, n, a) == b }

  // ---- Orbits ----

  lemma {:induction false} StepAdds(fold: Folding, m: nat, n: nat, r: Rune)
    ensures Step(fold, m + n, r) == Step(fold, m, Step(fold, n, r))
  {
    if m > 0 {
      StepAdds(fold, m - 1, n, r);
    }
  }

  lemma {:induction false} StepScalar(fold: Folding, n: nat, r: Rune)
    requires FoldingOk(fold) && Scalar(r)
    ensures Scalar(Step(fold, n, r))
  {
    if n > 0 {
      StepScalar(fold, n - 1, r);
    }
  }

  lemma {:induction false} LeastBounds(fold: Folding, n: nat, r: Rune)
    ensures forall k: nat :: k <= n ==> LeastOf(fold, n, r) <= Step(fold, k, r)
    ensures exists k: nat :: k <= n && LeastOf(fold, n, r) == Step(fold, k, r)
  {
    if n == 0 {
      assert Step(fold, 0, r) == r;
    } else {
      LeastBounds(fold, n - 1, r);
      var k: nat :| k <= n - 1 && LeastOf(fold, n - 1, r) == Step(fold, k, r);
    }
  }

  /** Once p steps come back to r, every later rune was among the first p. */
  lemma {:induction false} StepWraps(fold: Folding, p: nat, n: nat, r: Rune) returns (k: nat)
    requires p > 0 && Step(fold, p, r) == r
    ensures k < p && Step(fold, k, r) == Step(fold, n, r)
    decreases n
  {
    if n < p {
      k := n;
    } else {
      StepAdds(fold, n - p, p, r);
      k := StepWraps(fold, p, n - p, r);
    }
  }

  /** The least of one full turn is the least of the whole orbit. */
  lemma LeastIsLeast(fold: Folding, p: nat, n: nat, r: Rune)
    requires p > 0 && Step(fold, p, r) == r
    ensures LeastOf(fold, p - 1, r) <= Step(fold, n, r)
    ensures LeastOf(fold, p, r) == LeastOf(fold, p - 1, r)
  {
    LeastBounds(fold, p - 1, r);
    var k := StepWraps(fold, p, n, r);
    assert LeastOf(fold, p - 1, r) <= Step(fold, 0, r);
  }

  /** Any two full turns have the same least rune. */
  lemma TurnsAgree(fold: Folding, p: nat, q: nat, r: Rune)
    requires p > 0 && Step(fold, p, r) == r && q > 0 && Step(fold, q, r) == r
    ensures LeastOf(fold, p - 1, r) == LeastOf(fold, q, r)
  {
    LeastBounds(fold, p - 1, r);
    LeastBounds(fold, q, r);
    var i: nat :| i <= p - 1 && LeastOf(fold, p - 1, r) == Step(fold, i, r);
    var j: nat :| j <= q && LeastOf(fold, q, r) == Step(fold, j, r);
    LeastIsLeast(fold, p, j, r);
    LeastIsLeast(fold, q, i, r);
  }

  lemma FoldReached(fold: Folding, r: Rune) returns (k: nat)
    ensures Step(fold, k, r) == FoldOf(fold, r)
  {
    LeastBounds(fold, fold.period(r), r);
    k :| k <= fold.period(r) && FoldOf(fold, r) == Step(fold, k, r);
  }

  lemma OrbitReturns(fold: Folding, n: nat, a: Rune) returns (m: nat)
    requires FoldingOk(fold) && Scalar(a)
    ensures Step(fold, m, Step(fold, n, a)) == a
  {
    var k := StepWraps(fold, fold.period(a), n, a);
    m := fold.period(a) - k;
    StepAdds(fold, m, k, a);
  }

  lemma OrbitShares(fold: Folding, n: nat, a: Rune)
    requires FoldingOk(fold) && Scalar(a)
    ensures FoldOf(fold, Step(fold, n, a)) <= FoldOf(fold, a)
  {
    var b := Step(fold, n, a);
    var back := OrbitReturns(fold, n, a);
    var k := FoldReached(fold, a);
    StepAdds(fold, k, back, b);
    StepScalar(fold, n, a);
    LeastIsLeast(fold, fold.period(b), k + back, b);
  }

  /** Two runes fold alike exactly when folding, after the I family is joined, can turn one into the other. */
  lemma FoldRuneMeans(fold: Folding, a: Rune, b: Rune)
    requires FoldingOk(fold) && Scalar(a) && Scalar(b)
    ensures FoldRune(fold, a) == FoldRune(fold, b) <==> SameOrbit(fold, Mapped(a), Mapped(b))
  {
    var x, y := Mapped(a), Mapped(b);
    assert FoldRune(fold, a) == FoldOf(fold, x) && FoldRune(fold, b) == FoldOf(fold, y);
    if FoldOf(fold, x) == FoldOf(fold, y) {
      var i := FoldReached(fold, x);
      var j := FoldReached(fold, y);
      var back := OrbitReturns(fold, j, y);
      StepAdds(fold, back, i, x);
      assert Step(fold, back + i, x) == y;
    }
    if n: nat :| Step(fold, n, x) == y {
      OrbitShares(fold, n, x);
      var back := OrbitReturns(fold, n, x);
      OrbitShares(fold, back, y);
    }
  }

  lemma FoldRuneScalar(fold: Folding, r: Rune)
    requires FoldingOk(fold) && Scalar(r)
    ensures Scalar(FoldRune(fold, r))
  {
    var k := FoldReached(fold, r);
    StepScalar(fold, k, r);
  }

  /** foldRune: the walk round the orbit stops where it began. */
  method ComputeFoldRune(fold: Folding, r: Rune) returns (lowest: Rune)
    requires FoldingOk(fold) && Scalar(r)
    ensures lowest == FoldRune(fold, r)
  {
    if r == DOTTED_CAPITAL_I || r == DOTLESS_SMALL_I {
      return CAPITAL_I;
    }
    lowest := r;
    var f := fold.next(r);
    ghost var n: nat := 1;
    assert Step(fold, 0, r) == r;
    while f != r
      invariant 0 < n <= fold.period(r) && f == Step(fold, n, r) && lowest == LeastOf(fold, n - 1, r)
      decreases fold.period(r) - n
    {
      if f < lowest {
        lowest := f;
      }
      f := fold.next(f);
      n := n + 1;
    }
    TurnsAgree(fold, n, fold.period(r), r);
  }

  // ---- Keys ----

  function FoldAll(fold: Folding, rs: seq<Rune>): seq<Rune> {
    if rs == [] then [] else [FoldRune(fold, rs[0])] + FoldAll(fold, rs[1..])
  }

  function FoldKey(fold: Folding, s: Bytes): Bytes { Encode(FoldAll(fold, Runes(s))) }

  /** EqualFoldKey, as a relation. */
  predicate EqualFold(fold: Folding, a: Bytes, b: Bytes) { FoldAll(fold, Runes(a)) == FoldAll(fold, Runes(b)) }

  lemma {:induction false} FoldAllScalar(fold: Folding, rs: seq<Rune>)
    requires FoldingOk(fold) && forall r :: r in rs ==> Scalar(r)
    ensures forall r :: r in FoldAll(fold, rs) ==> Scalar(r)
  {
    if rs != [] {
      assert rs[0] in rs;
      FoldRuneScalar(fold, rs[0]);
      FoldAllScalar(fold, rs[1..]);
    }
  }

  /** The one-pass canonical key and the pairwise comparison agree. */
  lemma FoldKeyAgrees(fold: Folding, a: Bytes, b: Bytes)
    requires FoldingOk(fold)
    ensures FoldKey(fold, a) == FoldKey(fold, b) <==> EqualFold(fold, a, b)
  {
    FoldAllScalar(fold, Runes(a));
    FoldAllScalar(fold, Runes(b));
    RunesOfEncode(FoldAll(fold, Runes(a)));
    RunesOfEncode(FoldAll(fold, Runes(b)));
  }

  lemma {:induction false} FoldAllNth(fold: Folding, rs: seq<Rune>)
    ensures |FoldAll(fold, rs)| == |rs|
    ensures forall i :: 0 <= i < |rs| ==> FoldAll(fold, rs)[i] == FoldRune(fold, rs[i])
  {
    if rs != [] {
      FoldAllNth(fold, rs[1..]);
    }
  }

  /** Keys are equal under folding exactly when they have as many runes and each pair is related. */
  lemma EqualFoldMeans(fold: Folding, a: Bytes, b: Bytes)
    requires FoldingOk(fold)
    ensures EqualFold(fold, a, b) <==>
      && |Runes(a)| == |Runes(b)|
      && forall i :: 0 <= i < |Runes(a)| ==> SameOrbit(fold, Mapped(Runes(a)[i]), Mapped(Runes(b)[i]))
  {
    var x, y := Runes(a), Runes(b);
    FoldAllNth(fold, x);
    FoldAllNth(fold, y);
    if |x| == |y| {
      forall i | 0 <= i < |x|
        ensures FoldAll(fold, x)[i] == FoldAll(fold, y)[i] <==> SameOrbit(fold, Mapped(x[i]), Mapped(y[i]))
      {
        assert x[i] in x && y[i] in y;
        FoldRuneMeans(fold, x[i], y[i]);
      }
    }
    hide FoldingOk, Runes, FoldAll, SameOrbit, FoldRune;
  }

  /** EqualFoldKey: the first string drives, the second is consumed beside it. */
  method EqualFoldKey(fold: Folding, a: Bytes, b: Bytes) returns (equal: bool)
    requires FoldingOk(fold)
    ensures equal <==> EqualFold(fold, a, b)
  {
    var x, y := a, b;
    while x != []
      invariant EqualFold(fold, a, b) <==> EqualFold(fold, x, y)
      decreases |x|
    {
      if y == [] {
        return false;
      }
      var dx, dy := DecodeRune(x), DecodeRune(y);
      var fx := ComputeFoldRune(fold, dx.rune);
      var fy := ComputeFoldRune(fold, dy.rune);
      EqualFoldStep(fold, x, y);
      if fx != fy {
        return false;
      }
      x, y := x[dx.size..], y[dy.size..];
    }
    return y == [];
  }

  lemma EqualFoldStep(fold: Folding, x: Bytes, y: Bytes)
    requires x != [] && y != []
    ensures EqualFold(fold, x, y) <==>
      && FoldRune(fold, DecodeRune(x).rune) == FoldRune(fold, DecodeRune(y).rune)
      && EqualFold(fold, x[DecodeRune(x).size..], y[DecodeRune(y).size..])
  {
    var tx, ty := Runes(x[DecodeRune(x).size..]), Runes(y[DecodeRune(y).size..]);
    assert Runes(x)[1..] == tx && Runes(y)[1..] == ty;
    var fx, fy := FoldAll(fold, Runes(x)), FoldAll(fold, Runes(y));
    assert fx[1..] == FoldAll(fold, tx) && fy[1..] == FoldAll(fold, ty);
    assert fx == [fx[0]] + fx[1..] && fy == [fy[0]] + fy[1..];
  }

  method ComputeFoldKey(fold: Folding, s: Bytes) returns (key: Bytes)
    requires FoldingOk(fold)
    ensures key == FoldKey(fold, s)
  {
    key := [];
    var rest := s;
    while rest != []
      invariant FoldKey(fold, s) == key + FoldKey(fold, rest)
      decreases |rest|
    {
      var d := DecodeRune(rest);
      var f := ComputeFoldRune(fold, d.rune);
      FoldKeyStep(fold, rest);
      key := key + EncodeRune(f);
      rest := rest[d.size..];
    }
  }

  lemma FoldKeyStep(fold: Folding, s: Bytes)
    requires s != []
    ensures FoldKey(fold, s) == EncodeRune(FoldRune(fold, DecodeRune(s).rune)) + FoldKey(fold, s[DecodeRune(s).size..])
  {
  }
}
