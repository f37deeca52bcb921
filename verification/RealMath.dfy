/** Real arithmetic: inner products of lists, square roots as a hypothesis, and rounding to a decimal grid. */
module RealMath {

  /** Sum of products over the common prefix, as `zip(..., strict=False)` truncates. */
  function Dot(a: seq<real>, b: seq<real>): real {
    if a == [] || b == [] then 0.0 else a[0] * b[0] + Dot(a[1..], b[1..])
  }

  function Times(x: real, y: real): real { x * y }

  function Square(x: real): (r: real)
    ensures r >= 0.0
    ensures r == 0.0 <==> x == 0.0
  {
    SignOfTimes(x, x);
    Times(x, x)
  }

  function SumOfSquares(a: seq<real>): (r: real)
    ensures r >= 0.0
    ensures r == 0.0 <==> forall i | 0 <= i < |a| :: a[i] == 0.0
  {
    if a == [] then 0.0
    else
      assert forall i | 1 <= i < |a| :: a[i] == a[1..][i - 1];
      Square(a[0]) + SumOfSquares(a[1..])
  }

  function Scale(k: real, a: seq<real>): (r: seq<real>)
    ensures |r| == |a|
  {
    seq(|a|, i requires 0 <= i < |a| => k * a[i])
  }

  /** The non-negative square root of every non-negative real. */
  ghost predicate IsSqrt(sqrt: real -> real) {
    forall x: real | x >= 0.0 :: sqrt(x) >= 0.0 && sqrt(x) * sqrt(x) == x
  }

  // ----- order facts about products

  lemma SignOfTimes(x: real, y: real)
    ensures x > 0.0 && y > 0.0 ==> Times(x, y) > 0.0
    ensures x < 0.0 && y < 0.0 ==> Times(x, y) > 0.0
    ensures x == 0.0 || y == 0.0 ==> Times(x, y) == 0.0
  {}

  lemma SquareStrict(p: real, q: real)
    requires 0.0 <= p < q
    ensures p * p < q * q
  {
    SignOfTimes(q - p, q + p);
    assert (q - p) * (q + p) == q * q - p * p;
  }

  lemma SquareOrder(q: real, p: real)
    requires p >= 0.0 && q * q <= p * p
    ensures q <= p && -q <= p
  {
    if q > p {
      SquareStrict(p, q);
    }
    if -q > p {
      SquareStrict(p, -q);
    }
  }

  /** A quotient bound is a product bound. */
  lemma QuotientOrder(x: real, y: real, unit: real)
    requires unit > 0.0
    ensures x <= y / unit <==> x * unit <= y
    ensures x >= y / unit <==> x * unit >= y
  {
    var q := y / unit;
    assert q * unit == y;
    if x < q {
      assert (q - x) * unit > 0.0;
    } else if x > q {
      assert (x - q) * unit > 0.0;
    }
  }

  lemma SquareUnique(p: real, q: real)
    requires p >= 0.0 && q >= 0.0 && p * p == q * q
    ensures p == q
  {
    SquareOrder(p, q);
    SquareOrder(q, p);
  }

  lemma MulMono(a: real, b: real, c: real)
    requires a <= b && c >= 0.0
    ensures a * c <= b * c
  {}

  /** One step of Cauchy-Schwarz: the mixed term is bounded by the mean of the crossed squares. */
  lemma CrossTerm(d: real, s: real, t: real, x: real, y: real)
    requires s >= 0.0 && t >= 0.0 && d * d <= s * t
    ensures 2.0 * d * x * y <= s * y * y + t * x * x
  {
    var u, v := s * (y * y), t * (x * x);
    assert x * x >= 0.0 && y * y >= 0.0;
    assert u >= 0.0 && v >= 0.0;
    var q, p := 2.0 * d * (x * y), u + v;
    assert (u - v) * (u - v) >= 0.0;
    assert p * p >= 4.0 * (u * v) by {
      assert p * p == (u - v) * (u - v) + 4.0 * (u * v);
    }
    var m := (x * y) * (x * y);
    assert m >= 0.0;
    MulMono(d * d, s * t, m);
    assert u * v == (s * t) * m;
    assert q * q == 4.0 * ((d * d) * m);
    SquareOrder(q, p);
    assert q == 2.0 * d * x * y;
    assert p == s * y * y + t * x * x;
  }

  lemma DotStep(a: seq<real>, b: seq<real>)
    requires a != [] && b != []
    ensures Dot(a, b) == a[0] * b[0] + Dot(a[1..], b[1..])
    ensures SumOfSquares(a) == Square(a[0]) + SumOfSquares(a[1..])
    ensures SumOfSquares(b) == Square(b[0]) + SumOfSquares(b[1..])
  {}

  lemma DotEmpty(a: seq<real>, b: seq<real>)
    requires a == [] || b == []
    ensures Dot(a, b) == 0.0
  {}

  /** Cauchy-Schwarz over lists of any two lengths. */
  lemma {:induction false} CauchySchwarz(a: seq<real>, b: seq<real>, dot: real, sa: real, sb: real)
    requires dot == Dot(a, b) && sa == SumOfSquares(a) && sb == SumOfSquares(b)
    ensures dot * dot <= sa * sb
  {
    hide Dot, SumOfSquares, Square;
    if a == [] || b == [] {
      DotEmpty(a, b);
      SignOfTimes(sa, sb);
    } else {
      var d, s, t := Dot(a[1..], b[1..]), SumOfSquares(a[1..]), SumOfSquares(b[1..]);
      DotStep(a, b);
      CauchySchwarz(a[1..], b[1..], d, s, t);
      CrossTerm(d, s, t, a[0], b[0]);
      SquareOfSum(a[0], b[0], d, s, t, dot, sa, sb);
    }
  }

  lemma SquareOfSum(x: real, y: real, d: real, s: real, t: real, dot: real, sa: real, sb: real)
    requires dot == x * y + d && sa == Square(x) + s && sb == Square(y) + t
    requires d * d <= s * t
    requires 2.0 * d * x * y <= s * y * y + t * x * x
    ensures dot * dot <= sa * sb
  {
    calc {
      (x * y + d) * (x * y + d);
      (x * y) * (x * y) + 2.0 * d * x * y + d * d;
    <=
      (x * y) * (x * y) + (s * y * y + t * x * x) + s * t;
    == { assert (x * y) * (x * y) == (x * x) * (y * y); }
      (x * x) * (y * y) + (x * x) * t + s * (y * y) + s * t;
      (x * x + s) * (y * y + t);
    }
  }

  lemma {:induction false} DotSymmetric(a: seq<real>, b: seq<real>)
    ensures Dot(a, b) == Dot(b, a)
  {
    if a != [] && b != [] {
      DotSymmetric(a[1..], b[1..]);
    }
  }

  lemma {:induction false} DotSelf(a: seq<real>)
    ensures Dot(a, a) == SumOfSquares(a)
  {
    if a != [] {
      DotSelf(a[1..]);
    }
  }

  lemma ScaleTail(k: real, a: seq<real>)
    requires a != []
    ensures Scale(k, a)[0] == k * a[0]
    ensures Scale(k, a)[1..] == Scale(k, a[1..])
  {
    forall i | 0 <= i < |a| - 1 ensures Scale(k, a)[1..][i] == Scale(k, a[1..])[i] {
      assert a[1..][i] == a[i + 1];
    }
  }

  lemma {:induction false} DotScale(k: real, a: seq<real>, b: seq<real>, dot: real)
    requires dot == Dot(a, b)
    ensures Dot(Scale(k, a), b) == k * dot
  {
    if a != [] && b != [] {
      ScaleTail(k, a);
      var d := Dot(a[1..], b[1..]);
      DotScale(k, a[1..], b[1..], d);
      ScaledTerm(k, a[0], b[0], d, dot, Scale(k, a)[0], Dot(Scale(k, a[1..]), b[1..]));
    }
  }

  lemma ScaledTerm(k: real, x: real, y: real, d: real, dot: real, head: real, rest: real)
    requires dot == x * y + d && head == k * x && rest == k * d
    ensures head * y + rest == k * dot
  {}

  lemma ScaledSquare(k: real, x: real, s: real, total: real, head: real, rest: real)
    requires total == Square(x) + s && head == k * x && rest == (k * k) * s
    ensures Square(head) + rest == (k * k) * total
  {
    assert head * head == (k * k) * (x * x);
  }

  lemma {:induction false} SquaresScale(k: real, a: seq<real>, total: real)
    requires total == SumOfSquares(a)
    ensures SumOfSquares(Scale(k, a)) == (k * k) * total
  {
    if a != [] {
      ScaleTail(k, a);
      var s := SumOfSquares(a[1..]);
      SquaresScale(k, a[1..], s);
      ScaledSquare(k, a[0], s, total, Scale(k, a)[0], SumOfSquares(Scale(k, a[1..])));
    }
  }

  lemma RootOfScaled(k: real, s: real, t: real, r: real, q: real)
    requires k >= 0.0 && r >= 0.0 && q >= 0.0
    requires r * r == s && q * q == t && t == (k * k) * s
    ensures q == k * r
  {
    assert (k * r) * (k * r) == (k * k) * (r * r);
    SignOfTimes(k, r);
    assert Times(k, r) >= 0.0;
    SquareUnique(q, k * r);
  }

  lemma SqrtScale(sqrt: real -> real, k: real, s: real, t: real)
    requires IsSqrt(sqrt) && k >= 0.0 && s >= 0.0 && t >= 0.0 && t == (k * k) * s
    ensures sqrt(t) == k * sqrt(s)
  {
    RootOfScaled(k, s, t, sqrt(s), sqrt(t));
  }

  // ----- rounding

  /** Nearest integer, ties to the even one. */
  function NearestEven(x: real): (n: int)
    ensures -0.5 <= x - n as real <= 0.5
  {
    var n := x.Floor;
    var d := x - n as real;
    if d < 0.5 || (d == 0.5 && n % 2 == 0) then n else n + 1
  }

  /** `round(x, k)` on exact reals, where unit is 10^k. */
  function RoundTo(x: real, unit: real): real
    requires unit > 0.0
  {
    NearestEven(x * unit) as real / unit
  }

  predicate OnGrid(x: real, unit: real) {
    (x * unit).Floor as real == x * unit
  }

  lemma NearestMono(x: real, y: real)
    requires x <= y
    ensures NearestEven(x) <= NearestEven(y)
  {}

  lemma RoundMono(x: real, y: real, unit: real)
    requires unit > 0.0 && x <= y
    ensures RoundTo(x, unit) <= RoundTo(y, unit)
  {
    MulMono(x, y, unit);
    NearestMono(x * unit, y * unit);
    QuotientOrder(RoundTo(x, unit), NearestEven(x * unit) as real, unit);
    QuotientOrder(RoundTo(x, unit), NearestEven(y * unit) as real, unit);
  }

  lemma RoundFixesGrid(x: real, unit: real)
    requires unit > 0.0 && OnGrid(x, unit)
    ensures RoundTo(x, unit) == x
  {
    assert NearestEven(x * unit) as real == x * unit;
    assert (x * unit) / unit == x;
  }

  lemma RoundError(x: real, unit: real)
    requires unit > 0.0
    ensures -0.5 / unit <= x - RoundTo(x, unit) <= 0.5 / unit
  {
    var r := RoundTo(x, unit);
    assert r * unit == NearestEven(x * unit) as real;
    assert (x - r) * unit == x * unit - r * unit;
    QuotientOrder(x - r, 0.5, unit);
    QuotientOrder(x - r, -0.5, unit);
  }

  /** A value half way between two integers goes to the even one. */
  lemma TiesToEven(n: int)
    ensures NearestEven(n as real + 0.5) == if n % 2 == 0 then n else n + 1
  {}

  // ----- sums read from the other end

  /** The inner product adds one product for each further pair, and nothing for what one list has beyond the other. */
  lemma {:induction false} DotSnoc(a: seq<real>, b: seq<real>, x: real, y: real, more: seq<real>)
    requires |a| == |b|
    ensures Dot(a + [x], b + [y]) == Dot(a, b) + Times(x, y)
    ensures Dot(a + more, b) == Dot(a, b) && Dot(a, b + more) == Dot(a, b)
    ensures Dot([], []) == 0.0
  {
    if a == [] {
      assert a + [x] == [x] && b + [y] == [y] && [x][1..] == [];
    } else {
      hide Times;
      assert (a + [x])[1..] == a[1..] + [x] && (b + [y])[1..] == b[1..] + [y];
      assert (a + more)[1..] == a[1..] + more && (b + more)[1..] == b[1..] + more;
      DotSnoc(a[1..], b[1..], x, y, more);
    }
  }
}
