/** Datatypes and counting lemmas shared by the models. */
module Common {
  datatype Option<+T> = None | Some(value: T)

  datatype Result<+T, +E> = Ok(value: T) | Err(error: E)

  /** The keys of m whose value satisfies p. */
  function Matching<K, V>(m: map<K, V>, p: V -> bool): set<K> {
    set k | k in m && p(m[k])
  }

  function Count<K, V>(m: map<K, V>, p: V -> bool): nat {
    |Matching(m, p)|
  }

  function Weight(b: bool): nat { if b then 1 else 0 }

  lemma RemoveCard<T>(s: set<T>, x: T)
    ensures |s| == |s - {x}| + Weight(x in s)
  {
    if x in s {
      assert s == (s - {x}) + {x};
    } else {
      assert s == s - {x};
    }
  }

  lemma MatchingUpdate<K, V>(m: map<K, V>, k: K, v: V, p: V -> bool)
    ensures Matching(m[k := v], p) - {k} == Matching(m, p) - {k}
    ensures k in Matching(m[k := v], p) <==> p(v)
    ensures k in Matching(m, p) <==> k in m && p(m[k])
  {
  }

  /** Writing one key moves a count by what the key's old and new values contribute. */
  lemma CountUpdate<K, V>(m: map<K, V>, k: K, v: V, p: V -> bool)
    ensures Count(m[k := v], p) == Count(m, p) - Weight(k in m && p(m[k])) + Weight(p(v))
  {
    hide Matching;
    MatchingUpdate(m, k, v, p);
    RemoveCard(Matching(m, p), k);
    RemoveCard(Matching(m[k := v], p), k);
  }

  lemma {:induction false} SubsetCard<T>(a: set<T>, b: set<T>)
    requires a <= b
    ensures |a| <= |b|
    decreases |a|
  {
    if a != {} {
      var x :| x in a;
      SubsetCard(a - {x}, b - {x});
    }
  }

  lemma SomeElement<T>(s: set<T>) returns (x: T)
    requires s != {}
    ensures x in s
  {
    x :| x in s;
  }

  /** No element occurs twice. */
  ghost predicate Distinct<T>(s: seq<T>) {
    forall i, j :: 0 <= i < j < |s| ==> s[i] != s[j]
  }

  lemma DistinctAppend<T>(s: seq<T>, x: T)
    requires Distinct(s) && x !in s
    ensures Distinct(s + [x])
  {
  }

  lemma DistinctJoin<T>(s: seq<T>, t: seq<T>)
    requires Distinct(s) && Distinct(t) && Elements(s) !! Elements(t)
    ensures Distinct(s + t) && Elements(s + t) == Elements(s) + Elements(t)
  {
    forall i, j | 0 <= i < j < |s + t|
      ensures (s + t)[i] != (s + t)[j]
    {
      if i < |s| <= j {
        assert s[i] in Elements(s) && t[j - |s|] in Elements(t);
      }
    }
  }

  function Elements<T>(s: seq<T>): set<T> {
    set x | x in s
  }

  /** The elements of s that satisfy p, in order. */
  function Filter<T(!new)>(s: seq<T>, p: T -> bool): (r: seq<T>)
    ensures forall x :: x in r <==> x in s && p(x)
    ensures |r| <= |s|
  {
    if s == [] then []
    else
      var front := Filter(s[..|s| - 1], p);
      if p(s[|s| - 1]) then front + [s[|s| - 1]] else front
  }

  lemma {:induction false} FilterDistinct<T(!new)>(s: seq<T>, p: T -> bool)
    requires Distinct(s)
    ensures Distinct(Filter(s, p))
  {
    if s != [] {
      FilterDistinct(s[..|s| - 1], p);
    }
  }

  lemma {:induction false} FilterSame<T(!new)>(s: seq<T>, p: T -> bool, q: T -> bool)
    requires forall x :: x in s ==> p(x) == q(x)
    ensures Filter(s, p) == Filter(s, q)
  {
    if s != [] {
      FilterSame(s[..|s| - 1], p, q);
    }
  }

  /** A number's decimal digits. */
  function Decimal(n: nat): (s: string)
    ensures s != [] && forall c :: c in s ==> '0' <= c <= '9'
  {
    if n < 10 then ['0' + n as char] else Decimal(n / 10) + ['0' + (n % 10) as char]
  }
}
