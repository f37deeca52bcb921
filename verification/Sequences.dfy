/** Sub-lists selected by a predicate, in order: the shape of every `where` clause and comprehension in the services. */
module Sequences {

  function Filter<T>(s: seq<T>, p: T -> bool): (r: seq<T>)
    ensures |r| <= |s|
    ensures forall x | x in r :: x in s && p(x)
    ensures forall x | x in s && p(x) :: x in r
  {
    if s == [] then []
    else
      var r := Filter(s[..|s| - 1], p);
      if p(s[|s| - 1]) then r + [s[|s| - 1]] else r
  }

  lemma FilterAppend<T>(s: seq<T>, x: T, p: T -> bool)
    ensures Filter(s + [x], p) == Filter(s, p) + (if p(x) then [x] else [])
  {
    assert (s + [x])[..|s|] == s;
  }

  lemma {:induction false} FilterConcat<T>(a: seq<T>, b: seq<T>, p: T -> bool)
    ensures Filter(a + b, p) == Filter(a, p) + Filter(b, p)
  {
    if b == [] {
      assert a + b == a;
    } else {
      var init, x := b[..|b| - 1], b[|b| - 1];
      assert a + b == (a + init) + [x] && b == init + [x];
      FilterConcat(a, init, p);
      FilterAppend(a + init, x, p);
      FilterAppend(init, x, p);
    }
  }

  lemma FilterNone<T>(s: seq<T>, p: T -> bool)
    requires forall x | x in s :: !p(x)
    ensures Filter(s, p) == []
  {
    if Filter(s, p) != [] {
      assert Filter(s, p)[0] in Filter(s, p);
    }
  }

  lemma {:induction false} FilterAll<T>(s: seq<T>, p: T -> bool)
    requires forall x | x in s :: p(x)
    ensures Filter(s, p) == s
  {
    if s != [] {
      FilterAll(s[..|s| - 1], p);
    }
  }

  /** Replacing an unselected row by an unselected row selects the same rows. */
  lemma {:induction false} FilterUpdate<T>(s: seq<T>, i: nat, x: T, p: T -> bool)
    requires i < |s| && !p(s[i]) && !p(x)
    ensures Filter(s[i := x], p) == Filter(s, p)
  {
    var u, a, b := s[i := x], s[..i], s[i + 1..];
    assert u == (a + [x]) + b && s == (a + [s[i]]) + b;
    FilterConcat(a + [x], b, p);
    FilterConcat(a + [s[i]], b, p);
    FilterAppend(a, x, p);
    FilterAppend(a, s[i], p);
  }

  /** Selecting twice is selecting once by the narrower predicate. */
  lemma {:induction false} FilterNarrow<T>(s: seq<T>, wide: T -> bool, narrow: T -> bool)
    requires forall x | x in s && narrow(x) :: wide(x)
    ensures Filter(Filter(s, wide), narrow) == Filter(s, narrow)
  {
    if s != [] {
      var init, x := s[..|s| - 1], s[|s| - 1];
      FilterNarrow(init, wide, narrow);
      FilterAppend(Filter(init, wide), x, narrow);
    }
  }

  /** Predicates that agree on the rows select the same rows. */
  lemma {:induction false} FilterSame<T>(s: seq<T>, p: T -> bool, q: T -> bool)
    requires forall x | x in s :: p(x) == q(x)
    ensures Filter(s, p) == Filter(s, q)
  {
    if s != [] {
      FilterSame(s[..|s| - 1], p, q);
    }
  }

  /** Two disjoint selections that cover a third have together as many rows. */
  lemma {:induction false} FilterSplit<T>(s: seq<T>, whole: T -> bool, left: T -> bool, right: T -> bool)
    requires forall x | x in s :: whole(x) == (left(x) || right(x)) && !(left(x) && right(x))
    ensures |Filter(s, whole)| == |Filter(s, left)| + |Filter(s, right)|
  {
    if s != [] {
      FilterSplit(s[..|s| - 1], whole, left, right);
    }
  }

  lemma {:induction false} FilterFewer<T>(s: seq<T>, p: T -> bool, q: T -> bool)
    requires forall x | x in s && p(x) :: q(x)
    ensures |Filter(s, p)| <= |Filter(s, q)|
  {
    if s != [] {
      FilterFewer(s[..|s| - 1], p, q);
    }
  }

  /** The positions at which a predicate holds. */
  function Where<T>(s: seq<T>, p: T -> bool): set<nat> {
    set i: nat | i < |s| && p(s[i])
  }

  lemma WhereSnoc<T>(s: seq<T>, x: T, p: T -> bool)
    ensures |Where(s + [x], p)| == |Where(s, p)| + if p(x) then 1 else 0
  {
    assert forall i | 0 <= i < |s| :: (s + [x])[i] == s[i];
    assert Where(s + [x], p) == Where(s, p) + if p(x) then {|s|} else {};
  }

  /** A selection has one row for each position at which the predicate holds. */
  lemma {:induction false} FilterCounts<T>(s: seq<T>, p: T -> bool)
    ensures |Filter(s, p)| == |Where(s, p)|
  {
    if s == [] {
      assert Where(s, p) == {};
    } else {
      hide Where;
      var init, x := s[..|s| - 1], s[|s| - 1];
      assert s == init + [x];
      FilterCounts(init, p);
      FilterAppend(init, x, p);
      WhereSnoc(init, x, p);
    }
  }

  /** Replacing one row changes the number of selected rows by that row alone. */
  lemma FilterReplace<T>(s: seq<T>, i: nat, x: T, p: T -> bool)
    requires i < |s|
    ensures |Filter(s[i := x], p)| == |Filter(s, p)| - (if p(s[i]) then 1 else 0) + (if p(x) then 1 else 0)
  {
    hide Filter;
    var a, b := s[..i], s[i + 1..];
    assert s[i := x] == (a + [x]) + b && s == (a + [s[i]]) + b;
    FilterConcat(a + [x], b, p);
    FilterConcat(a + [s[i]], b, p);
    FilterAppend(a, x, p);
    FilterAppend(a, s[i], p);
  }
}
