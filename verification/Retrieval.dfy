/** Cosine similarity and the in-Python branch of semantic search (retrieval_service). */
module Retrieval {
  import opened Sequences
  import opened RealMath
  import opened Embedding
  import Text

  lemma NonZeroProduct(x: real, y: real)
    requires x != 0.0 && y != 0.0
    ensures x * y != 0.0
  {}

  /** An inner product over the two norms, with the guard for zero vectors. */
  function Quotient(dot: real, na: real, nb: real): real {
    if na == 0.0 || nb == 0.0 then 0.0
    else
      NonZeroProduct(na, nb);
      dot / (na * nb)
  }

  function Cosine(sqrt: real -> real, a: seq<real>, b: seq<real>): real {
    Quotient(Dot(a, b), sqrt(SumOfSquares(a)), sqrt(SumOfSquares(b)))
  }

  lemma QuotientBound(d: real, sa: real, sb: real, na: real, nb: real)
    requires na >= 0.0 && nb >= 0.0 && na * na == sa && nb * nb == sb
    requires d * d <= sa * sb
    ensures -1.0 <= Quotient(d, na, nb) <= 1.0
  {
    if na != 0.0 && nb != 0.0 {
      var p := na * nb;
      SignOfTimes(na, nb);
      assert p * p == sa * sb;
      SquareOrder(d, p);
      QuotientOrder(1.0, d, p);
      QuotientOrder(-1.0, d, p);
    }
  }

  /** Similarities lie in [-1, 1], for lists of any two lengths. */
  lemma CosineBound(sqrt: real -> real, a: seq<real>, b: seq<real>)
    requires IsSqrt(sqrt)
    ensures -1.0 <= Cosine(sqrt, a, b) <= 1.0
  {
    hide Quotient, Dot, SumOfSquares;
    var d, sa, sb := Dot(a, b), SumOfSquares(a), SumOfSquares(b);
    CauchySchwarz(a, b, d, sa, sb);
    QuotientBound(d, sa, sb, sqrt(sa), sqrt(sb));
  }

  lemma QuotientSymmetric(d: real, na: real, nb: real)
    ensures Quotient(d, na, nb) == Quotient(d, nb, na)
  {}

  lemma CosineSymmetric(sqrt: real -> real, a: seq<real>, b: seq<real>)
    ensures Cosine(sqrt, a, b) == Cosine(sqrt, b, a)
  {
    DotSymmetric(a, b);
    QuotientSymmetric(Dot(a, b), sqrt(SumOfSquares(a)), sqrt(SumOfSquares(b)));
  }

  lemma QuotientScale(k: real, d: real, na: real, nb: real, kd: real, kna: real)
    requires k > 0.0 && na >= 0.0 && nb >= 0.0 && kd == k * d && kna == k * na
    ensures Quotient(kd, kna, nb) == Quotient(d, na, nb)
  {
    if na != 0.0 && nb != 0.0 {
      NonZeroProduct(k, na);
      NonZeroProduct(na, nb);
      NonZeroProduct(k, na * nb);
      assert kna * nb == k * (na * nb);
      CancelFactor(k, d, na * nb);
    }
  }

  /** Only the direction of a vector matters. */
  lemma CosineScale(sqrt: real -> real, k: real, a: seq<real>, b: seq<real>)
    requires IsSqrt(sqrt) && k > 0.0
    ensures Cosine(sqrt, Scale(k, a), b) == Cosine(sqrt, a, b)
  {
    hide Quotient, Dot, SumOfSquares, Scale;
    var d, s, t := Dot(a, b), SumOfSquares(a), SumOfSquares(Scale(k, a));
    DotScale(k, a, b, d);
    SquaresScale(k, a, s);
    SqrtScale(sqrt, k, s, t);
    QuotientScale(k, d, sqrt(s), sqrt(SumOfSquares(b)), Dot(Scale(k, a), b), sqrt(t));
  }

  lemma QuotientSelf(s: real, n: real)
    requires n >= 0.0 && n * n == s
    ensures Quotient(s, n, n) == if s == 0.0 then 0.0 else 1.0
  {
    if n == 0.0 {
      assert s == 0.0;
    } else {
      NonZeroProduct(n, n);
      SignOfTimes(n, n);
      assert Times(n, n) == s;
      QuotientOrder(1.0, s, n * n);
    }
  }

  lemma CosineSelf(sqrt: real -> real, a: seq<real>)
    requires IsSqrt(sqrt)
    ensures Cosine(sqrt, a, a) == if forall i | 0 <= i < |a| :: a[i] == 0.0 then 0.0 else 1.0
  {
    DotSelf(a);
    QuotientSelf(SumOfSquares(a), sqrt(SumOfSquares(a)));
  }

  /** Two vectors that are not zero: the score times both norms is the inner product. */
  lemma CosineTimesNorms(sqrt: real -> real, a: seq<real>, b: seq<real>)
    requires IsSqrt(sqrt) && (exists i | 0 <= i < |a| :: a[i] != 0.0) && (exists i | 0 <= i < |b| :: b[i] != 0.0)
    ensures Cosine(sqrt, a, b) * (sqrt(SumOfSquares(a)) * sqrt(SumOfSquares(b))) == Dot(a, b)
  {
    hide Dot, SumOfSquares;
    var na, nb := sqrt(SumOfSquares(a)), sqrt(SumOfSquares(b));
    assert na * na == SumOfSquares(a) && nb * nb == SumOfSquares(b);
    NonZeroProduct(na, nb);
    TimesQuotient(Dot(a, b), na * nb);
  }

  /** Texts with equal token multisets are maximally similar. */
  lemma SameTokensCosineOne(e: Embedder, s: string, t: string)
    requires e.dim > 0 && IsSqrt(e.sqrt) && multiset(Text.Tokens(s)) == multiset(Text.Tokens(t))
    ensures Cosine(e.sqrt, e.Embed(s), e.Embed(t)) == 1.0
  {
    SameTokensSameEmbedding(e, s, t);
    UnitLength(e, e.Raw(Text.Tokens(s)));
    CosineSelf(e.sqrt, e.Embed(s));
  }

  // ----- ranking

  datatype Scored<T> = Scored(item: T, score: real)

  ghost predicate Descending<T>(s: seq<Scored<T>>) {
    forall i, j | 0 <= i < j < |s| :: s[i].score >= s[j].score
  }

  /** Insert after every element with at least the same score. */
  function Insert<T>(s: seq<Scored<T>>, x: Scored<T>): seq<Scored<T>> {
    if s == [] || s[|s| - 1].score >= x.score then s + [x]
    else Insert(s[..|s| - 1], x) + [s[|s| - 1]]
  }

  /** `sort(key=score, reverse=True)`: descending, equal scores in their original order. */
  function SortDescending<T>(s: seq<Scored<T>>): seq<Scored<T>> {
    if s == [] then [] else Insert(SortDescending(s[..|s| - 1]), s[|s| - 1])
  }

  function HasScore<T>(v: real): Scored<T> -> bool { (x: Scored<T>) => x.score == v }

  function AtLeast<T>(v: real): Scored<T> -> bool { (x: Scored<T>) => x.score >= v }

  lemma {:induction false} InsertDescending<T>(s: seq<Scored<T>>, x: Scored<T>)
    requires Descending(s)
    ensures Descending(Insert(s, x))
    ensures multiset(Insert(s, x)) == multiset(s) + multiset{x}
  {
    if s != [] && s[|s| - 1].score < x.score {
      var init, last := s[..|s| - 1], s[|s| - 1];
      assert s == init + [last];
      InsertDescending(init, x);
      var r := Insert(init, x);
      forall i | 0 <= i < |r| ensures r[i].score >= last.score {
        assert r[i] in multiset(r);
        if r[i] != x {
          assert r[i] in multiset(init);
          assert r[i] in init;
        }
      }
    }
  }

  lemma {:induction false} InsertStable<T>(s: seq<Scored<T>>, x: Scored<T>, v: real)
    requires Descending(s)
    ensures Filter(Insert(s, x), HasScore(v)) == Filter(s + [x], HasScore(v))
  {
    FilterAppend(s, x, HasScore(v));
    if s != [] && s[|s| - 1].score < x.score {
      var init, last := s[..|s| - 1], s[|s| - 1];
      assert s == init + [last];
      InsertStable(init, x, v);
      FilterAppend(init, x, HasScore(v));
      FilterAppend(init, last, HasScore(v));
      FilterAppend(Insert(init, x), last, HasScore(v));
    }
  }

  lemma SortedTrivially<T>()
    ensures Descending<T>([])
  {}

  lemma {:induction false} SortIsDescending<T>(s: seq<Scored<T>>)
    ensures Descending(SortDescending(s)) && multiset(SortDescending(s)) == multiset(s)
  {
    hide Descending, Insert;
    if s == [] {
      SortedTrivially<T>();
    }
    if s != [] {
      SortIsDescending(s[..|s| - 1]);
      InsertDescending(SortDescending(s[..|s| - 1]), s[|s| - 1]);
      assert s == s[..|s| - 1] + [s[|s| - 1]];
    }
  }

  /** The sort keeps the original order within each score. */
  lemma {:induction false} SortIsStable<T>(s: seq<Scored<T>>, v: real)
    ensures Filter(SortDescending(s), HasScore(v)) == Filter(s, HasScore(v))
  {
    if s != [] {
      var init, x := s[..|s| - 1], s[|s| - 1];
      SortIsStable(init, v);
      SortIsDescending(init);
      InsertStable(SortDescending(init), x, v);
      FilterAppend(SortDescending(init), x, HasScore(v));
      assert s == init + [x];
      FilterAppend(init, x, HasScore(v));
    }
  }

  ghost predicate SameAtEachScore<T>(a: seq<Scored<T>>, b: seq<Scored<T>>) {
    forall v: real :: Filter(a, HasScore(v)) == Filter(b, HasScore(v))
  }

  lemma SharedLast<T>(a: seq<Scored<T>>, b: seq<Scored<T>>)
    requires Descending(a) && Descending(b) && a != [] && SameAtEachScore(a, b)
    ensures b != [] && a[|a| - 1] == b[|b| - 1]
  {
    hide Filter, Descending;
    var x := a[|a| - 1];
    assert x in Filter(a, HasScore(x.score));
    assert x in Filter(b, HasScore(x.score));
    var y := b[|b| - 1];
    assert y in Filter(b, HasScore(y.score));
    assert y in Filter(a, HasScore(y.score));
    LastIsLowest(a, y);
    LastIsLowest(b, x);
    LastSelected(a, HasScore(x.score));
    LastSelected(b, HasScore(x.score));
  }

  lemma LastIsLowest<T>(s: seq<Scored<T>>, x: Scored<T>)
    requires Descending(s) && x in s
    ensures s[|s| - 1].score <= x.score
  {}

  lemma LastSelected<T>(s: seq<Scored<T>>, p: Scored<T> -> bool)
    requires s != [] && p(s[|s| - 1])
    ensures var f := Filter(s, p); f != [] && f[|f| - 1] == s[|s| - 1]
  {}

  lemma SameWithoutLast<T>(a: seq<Scored<T>>, b: seq<Scored<T>>, x: Scored<T>)
    requires SameAtEachScore(a + [x], b + [x])
    ensures SameAtEachScore(a, b)
  {
    forall v: real ensures Filter(a, HasScore(v)) == Filter(b, HasScore(v)) {
      FilterAppend(a, x, HasScore(v));
      FilterAppend(b, x, HasScore(v));
      var fa, fb := Filter(a + [x], HasScore(v)), Filter(b + [x], HasScore(v));
      assert fa == fb;
      assert Filter(a, HasScore(v)) == fa[..|Filter(a, HasScore(v))|];
      assert Filter(b, HasScore(v)) == fb[..|Filter(b, HasScore(v))|];
    }
  }

  /** A descending list is determined by what it holds at each score, so the two lemmas above pin the sort down. */
  lemma {:induction false} DescendingUnique<T>(a: seq<Scored<T>>, b: seq<Scored<T>>)
    requires Descending(a) && Descending(b) && SameAtEachScore(a, b)
    ensures a == b
    decreases |a|
  {
    if a != [] {
      SharedLast(a, b);
      var a', b', x := a[..|a| - 1], b[..|b| - 1], a[|a| - 1];
      assert a == a' + [x] && b == b' + [x];
      SameWithoutLast(a', b', x);
      DescendingUnique(a', b');
    } else if b != [] {
      SharedLast(b, a);
    }
  }

  /** The slice `s[:k]`, which counts from the end for a negative k. */
  function Take<T>(s: seq<T>, k: int): seq<T> {
    if k >= 0 then (if k <= |s| then s[..k] else s)
    else if |s| + k >= 0 then s[..|s| + k] else []
  }

  /** Rank, cut to the top k, then drop what is below the threshold. */
  function Rank<T>(scored: seq<Scored<T>>, threshold: real, topK: int): seq<Scored<T>> {
    Filter(Take(SortDescending(scored), topK), AtLeast(threshold))
  }

  lemma {:induction false} DescendingCut<T>(s: seq<Scored<T>>, threshold: real) returns (m: nat)
    requires Descending(s)
    ensures m <= |s| && Filter(s, AtLeast(threshold)) == s[..m]
    ensures forall i | 0 <= i < |s| :: s[i].score >= threshold <==> i < m
  {
    hide Filter;
    if s == [] {
      m := 0;
      FilterAll(s, AtLeast(threshold));
    } else if s[|s| - 1].score >= threshold {
      m := |s|;
      FilterAll(s, AtLeast(threshold));
      assert s[..m] == s;
    } else {
      var init, x := s[..|s| - 1], s[|s| - 1];
      m := DescendingCut(init, threshold);
      FilterAppend(init, x, AtLeast(threshold));
      assert s == init + [x];
    }
  }

  function Clamp(k: int, n: nat): (c: nat)
    ensures c <= n
  {
    if k >= 0 then (if k <= n then k else n) else if n + k >= 0 then n + k else 0
  }

  lemma TakeIsPrefix<T>(s: seq<T>, k: int)
    ensures Take(s, k) == s[..Clamp(k, |s|)]
  {}

  function Min(a: nat, b: nat): nat { if a <= b then a else b }

  lemma CutOfPrefix<T>(s: seq<Scored<T>>, threshold: real, k: nat, m: nat)
    requires Descending(s) && k <= |s| && m <= |s|
    requires forall i | 0 <= i < |s| :: s[i].score >= threshold <==> i < m
    ensures Filter(s[..k], AtLeast(threshold)) == s[..Min(k, m)]
  {
    var cut := s[..k];
    var m' := DescendingCut(cut, threshold);
    assert forall i | 0 <= i < k :: cut[i] == s[i];
    var low, high := Min(m', Min(k, m)), Min(k, m);
    assert low < k ==> cut[low] == s[low];
    assert high < k ==> cut[high] == s[high];
  }

  /** The result is a prefix of the ranking: as long as the cut allows, and as the threshold allows. */
  lemma RankShape<T>(scored: seq<Scored<T>>, threshold: real, topK: int) returns (m: nat)
    ensures var s := SortDescending(scored);
            && |s| == |scored| && Descending(s) && m <= |s|
            && (forall i | 0 <= i < |s| :: s[i].score >= threshold <==> i < m)
            && Filter(s, AtLeast(threshold)) == s[..m]
            && Rank(scored, threshold, topK) == s[..Min(Clamp(topK, |s|), m)]
  {
    var s := SortDescending(scored);
    SortIsDescending(scored);
    assert |s| == |multiset(s)| == |multiset(scored)| == |scored|;
    m := DescendingCut(s, threshold);
    TakeIsPrefix(s, topK);
    CutOfPrefix(s, threshold, Clamp(topK, |s|), m);
  }

  lemma PrefixesEqual<T>(s: seq<T>, i: nat, j: nat)
    requires i <= |s| && j <= |s|
    ensures s[..i] == s[..j] <==> i == j
  {
    assert |s[..i]| == i && |s[..j]| == j;
  }

  /**
   * Cutting to the top k before applying the threshold gives the simple specification, threshold first,
   * exactly when k is not negative, or no row, or every row, passes, or the cut already drops every row.
   */
  lemma RankRefinesFilter<T>(scored: seq<Scored<T>>, threshold: real, topK: int)
    ensures var passing := Filter(SortDescending(scored), AtLeast(threshold));
            Rank(scored, threshold, topK) == Take(passing, topK)
            <==> topK >= 0 || passing == [] || |passing| == |scored| || |scored| + topK <= 0
  {
    hide Filter, Take, Rank, SortDescending;
    var s := SortDescending(scored);
    var m := RankShape(scored, threshold, topK);
    TakeIsPrefix(s[..m], topK);
    assert s[..m][..Clamp(topK, m)] == s[..Clamp(topK, m)];
    PrefixesEqual(s, Min(Clamp(topK, |s|), m), Clamp(topK, m));
    assert |s[..m]| == m;
  }

  /** Raising the threshold or lowering top k only shortens the result. */
  lemma RankPrefix<T>(scored: seq<Scored<T>>, low: real, high: real, k: nat, k': nat)
    requires low <= high && k <= k'
    ensures Rank(scored, high, k) <= Rank(scored, low, k')
  {
    hide Filter, Take, Rank, SortDescending;
    var s := SortDescending(scored);
    var mh := RankShape(scored, high, k);
    var ml := RankShape(scored, low, k');
    assert ml < |s| ==> s[ml].score < low;
    var i, j := Min(Clamp(k, |s|), mh), Min(Clamp(k', |s|), ml);
    assert s[..j][..i] == s[..i];
  }

  /** Nothing relevant is missed: what is left out is below the threshold, or k returned rows score at least as high. */
  lemma RankOmits<T>(scored: seq<Scored<T>>, threshold: real, k: nat, x: Scored<T>)
    requires x in scored
    ensures var hits := Rank(scored, threshold, k);
            || x in hits
            || x.score < threshold
            || (|hits| == k && forall h | h in hits :: h.score >= x.score)
  {
    hide Filter, Take, Rank, SortDescending;
    var s := SortDescending(scored);
    SortIsDescending(scored);
    assert x in multiset(scored);
    assert x in multiset(s);
    var i :| 0 <= i < |s| && s[i] == x;
    var m := RankShape(scored, threshold, k);
    var e := Min(Clamp(k, |s|), m);
    assert i < e ==> s[..e][i] == x;
  }

  /** The hits are rows that were scored, all at or above the threshold, in descending order, at most k of them. */
  lemma RankSound<T>(scored: seq<Scored<T>>, threshold: real, topK: int)
    ensures var hits := Rank(scored, threshold, topK);
            && Descending(hits)
            && (forall h | h in hits :: h in scored && h.score >= threshold)
            && (topK >= 0 ==> |hits| <= topK)
  {
    hide Filter, Take, Rank, SortDescending;
    var s := SortDescending(scored);
    SortIsDescending(scored);
    var m := RankShape(scored, threshold, topK);
    var hits := Rank(scored, threshold, topK);
    forall h | h in hits ensures h in scored && h.score >= threshold {
      assert h in s;
      assert h in multiset(s);
      assert h in multiset(scored);
    }
  }
}
