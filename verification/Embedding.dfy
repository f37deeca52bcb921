/** The offline embedder: signed, hashed bag of words, scaled to unit length (providers/mock.py). */
module Embedding {
  import opened Sequences
  import opened Text
  import opened RealMath

  /** hash stands for the first eight bytes of SHA-256 as an integer; sqrt for math.sqrt. */
  datatype Embedder = Embedder(dim: nat, hash: string -> nat, sqrt: real -> real) {
    function Index(tok: string): (i: nat)
      requires dim > 0
      ensures i < dim
    {
      hash(tok) % dim
    }

    function Sign(tok: string): real {
      if (hash(tok) / 256) % 2 == 1 then 1.0 else -1.0
    }

    function Weight(tok: string, j: nat): real
      requires dim > 0
    {
      if Index(tok) == j then Sign(tok) else 0.0
    }

    /** Component j of the bag of words: the signed count of the tokens hashed to j. */
    function Coord(toks: seq<string>, j: nat): real
      requires dim > 0
    {
      if toks == [] then 0.0 else Coord(toks[..|toks| - 1], j) + Weight(toks[|toks| - 1], j)
    }

    function Raw(toks: seq<string>): (v: seq<real>)
      requires dim > 0
      ensures |v| == dim
    {
      seq(dim, j requires 0 <= j < dim => Coord(toks, j))
    }

    function Normalise(raw: seq<real>): (v: seq<real>)
      requires |raw| == dim > 0
      ensures |v| == dim
    {
      var norm := sqrt(SumOfSquares(raw));
      if norm == 0.0 then raw[0 := 1.0] else seq(dim, j requires 0 <= j < dim => raw[j] / norm)
    }

    function Embed(text: string): (v: seq<real>)
      requires dim > 0
      ensures |v| == dim
    {
      Normalise(Raw(Tokens(text)))
    }
  }

  method EmbedOne(e: Embedder, text: string) returns (result: seq<real>)
    requires e.dim > 0
    ensures result == e.Embed(text)
  {
    var vec := new real[e.dim](_ => 0.0);
    var tokens := Tokens(text);
    for i := 0 to |tokens|
      invariant forall j | 0 <= j < e.dim :: vec[j] == e.Coord(tokens[..i], j)
    {
      var idx := e.Index(tokens[i]);
      assert tokens[..i + 1][..i] == tokens[..i];
      vec[idx] := vec[idx] + e.Sign(tokens[i]);
    }
    assert tokens[..|tokens|] == tokens;
    assert vec[..] == e.Raw(tokens);
    var norm := e.sqrt(SumOfSquares(vec[..]));
    if norm == 0.0 {
      vec[0] := 1.0;
      return vec[..];
    }
    return seq(e.dim, j requires 0 <= j < e.dim reads vec => vec[j] / norm);
  }

  // ----- the bag of words

  /** Concatenated token lists add up component by component. */
  lemma {:induction false} CoordConcat(e: Embedder, a: seq<string>, b: seq<string>, j: nat)
    requires e.dim > 0
    ensures e.Coord(a + b, j) == e.Coord(a, j) + e.Coord(b, j)
  {
    if b == [] {
      assert a + b == a;
    } else {
      assert (a + b)[..|a + b| - 1] == a + b[..|b| - 1];
      CoordConcat(e, a, b[..|b| - 1], j);
    }
  }

  lemma CoordMiddle(e: Embedder, l: seq<string>, x: string, r: seq<string>, j: nat)
    requires e.dim > 0
    ensures e.Coord(l + [x] + r, j) == e.Coord(l + r, j) + e.Weight(x, j)
  {
    CoordConcat(e, l + [x], r, j);
    CoordConcat(e, l, r, j);
    assert (l + [x])[..|l|] == l;
  }

  lemma Removal(a: seq<string>, b: seq<string>) returns (l: seq<string>, r: seq<string>)
    requires a != [] && multiset(a) == multiset(b)
    ensures b == l + [a[|a| - 1]] + r
    ensures multiset(a[..|a| - 1]) == multiset(l + r)
  {
    var x := a[|a| - 1];
    assert a == a[..|a| - 1] + [x];
    assert x in multiset(b);
    var i :| 0 <= i < |b| && b[i] == x;
    l, r := b[..i], b[i + 1..];
    assert b == l + [x] + r;
    assert multiset(a[..|a| - 1]) == multiset(a) - multiset{x};
    assert multiset(l + r) == multiset(b) - multiset{x};
  }

  /** Only the multiset of tokens matters. */
  lemma {:induction false} CoordPermutation(e: Embedder, a: seq<string>, b: seq<string>, j: nat)
    requires e.dim > 0 && multiset(a) == multiset(b)
    ensures e.Coord(a, j) == e.Coord(b, j)
    decreases |a|
  {
    if a == [] {
      assert |multiset(b)| == 0;
    } else {
      var l, r := Removal(a, b);
      CoordPermutation(e, a[..|a| - 1], l + r, j);
      CoordMiddle(e, l, a[|a| - 1], r, j);
    }
  }

  function Repeat(m: nat, toks: seq<string>): seq<string> {
    if m == 0 then [] else Repeat(m - 1, toks) + toks
  }

  lemma {:induction false} CoordRepeat(e: Embedder, m: nat, toks: seq<string>, j: nat, c: real)
    requires e.dim > 0 && c == e.Coord(toks, j)
    ensures e.Coord(Repeat(m, toks), j) == m as real * c
  {
    hide Embedder.Coord;
    if m == 0 {
      CoordOfNothing(e, j);
    } else {
      CoordRepeat(e, m - 1, toks, j, c);
      CoordConcat(e, Repeat(m - 1, toks), toks, j);
      OneMore(m as real, c);
    }
  }

  lemma CoordOfNothing(e: Embedder, j: nat)
    requires e.dim > 0
    ensures e.Coord([], j) == 0.0
  {}

  lemma OneMore(m: real, c: real)
    ensures (m - 1.0) * c + c == m * c
  {}

  lemma RawOfRepeat(e: Embedder, m: nat, toks: seq<string>)
    requires e.dim > 0
    ensures e.Raw(Repeat(m, toks)) == Scale(m as real, e.Raw(toks))
  {
    forall j | 0 <= j < e.dim ensures e.Raw(Repeat(m, toks))[j] == Scale(m as real, e.Raw(toks))[j] {
      CoordRepeat(e, m, toks, j, e.Coord(toks, j));
    }
  }

  // ----- the vector

  lemma DivideByFactor(x: real, norm: real, inverse: real)
    requires norm != 0.0 && inverse == 1.0 / norm
    ensures x / norm == inverse * x
  {}

  lemma NormaliseIsScale(e: Embedder, raw: seq<real>, norm: real, inverse: real)
    requires |raw| == e.dim > 0 && norm == e.sqrt(SumOfSquares(raw))
    requires norm != 0.0 && inverse == 1.0 / norm
    ensures e.Normalise(raw) == Scale(inverse, raw)
  {
    hide SumOfSquares;
    forall j | 0 <= j < e.dim ensures e.Normalise(raw)[j] == Scale(inverse, raw)[j] {
      DivideByFactor(raw[j], norm, inverse);
    }
  }

  lemma InverseSquare(norm: real, s: real, inverse: real)
    requires norm != 0.0 && norm * norm == s && inverse == 1.0 / norm
    ensures (inverse * inverse) * s == 1.0
  {
    assert inverse * norm == 1.0;
    assert (inverse * inverse) * (norm * norm) == (inverse * norm) * (inverse * norm);
  }

  lemma FirstUnit(v: seq<real>)
    requires v != [] && v[0] == 1.0 && forall i | 1 <= i < |v| :: v[i] == 0.0
    ensures SumOfSquares(v) == 1.0
  {
    assert SumOfSquares(v[1..]) == 0.0;
    assert Square(v[0]) == 1.0;
  }

  /** Every embedding has unit length, also when all counts cancel. */
  lemma UnitLength(e: Embedder, raw: seq<real>)
    requires |raw| == e.dim > 0 && IsSqrt(e.sqrt)
    ensures SumOfSquares(e.Normalise(raw)) == 1.0
  {
    var s := SumOfSquares(raw);
    var norm := e.sqrt(s);
    assert norm * norm == s;
    if norm == 0.0 {
      FirstUnit(raw[0 := 1.0]);
    } else {
      var inverse := 1.0 / norm;
      NormaliseIsScale(e, raw, norm, inverse);
      SquaresScale(inverse, raw, s);
      InverseSquare(norm, s, inverse);
    }
  }

  lemma ScaledRatio(k: real, x: real, norm: real, kx: real, knorm: real)
    requires k > 0.0 && norm != 0.0 && kx == k * x && knorm == k * norm
    ensures knorm != 0.0 && kx / knorm == x / norm
  {
    SignOfTimes(k, norm);
    SignOfTimes(k, -norm);
    assert k * -norm == -(k * norm);
    CancelFactor(k, x, norm);
  }

  lemma ScaledZero(k: real, raw: seq<real>)
    requires forall i | 0 <= i < |raw| :: raw[i] == 0.0
    ensures Scale(k, raw) == raw
  {
    forall i | 0 <= i < |raw| ensures Scale(k, raw)[i] == raw[i] {
      assert k * 0.0 == 0.0;
    }
  }

  /** Scaling the counts by a positive factor leaves the embedding unchanged. */
  lemma NormaliseScaled(e: Embedder, k: real, raw: seq<real>)
    requires |raw| == e.dim > 0 && IsSqrt(e.sqrt) && k > 0.0
    ensures e.Normalise(Scale(k, raw)) == e.Normalise(raw)
  {
    hide SumOfSquares;
    var scaled := Scale(k, raw);
    var s, t := SumOfSquares(raw), SumOfSquares(scaled);
    var norm := e.sqrt(s);
    assert norm * norm == s;
    SquaresScale(k, raw, s);
    SqrtScale(e.sqrt, k, s, t);
    if norm == 0.0 {
      ScaledZero(k, raw);
    } else {
      assert e.sqrt(t) != 0.0 by { ScaledRatio(k, norm, norm, k * norm, e.sqrt(t)); }
      forall j | 0 <= j < e.dim ensures e.Normalise(scaled)[j] == e.Normalise(raw)[j] {
        ScaledRatio(k, raw[j], norm, scaled[j], e.sqrt(t));
      }
    }
  }

  lemma CancelFactor(k: real, x: real, norm: real)
    requires k > 0.0 && norm != 0.0 && k * norm != 0.0
    ensures (k * x) / (k * norm) == x / norm
  {
    var q := x / norm;
    assert q * norm == x;
    assert q * (k * norm) == k * x;
  }

  /** Texts with the same tokens, counted with multiplicity, have the same embedding. */
  lemma SameTokensSameEmbedding(e: Embedder, s: string, t: string)
    requires e.dim > 0 && multiset(Tokens(s)) == multiset(Tokens(t))
    ensures e.Embed(s) == e.Embed(t)
  {
    forall j | 0 <= j < e.dim ensures e.Coord(Tokens(s), j) == e.Coord(Tokens(t), j) {
      CoordPermutation(e, Tokens(s), Tokens(t), j);
    }
    assert e.Raw(Tokens(s)) == e.Raw(Tokens(t));
  }

  function Copies(m: nat, text: string): seq<string> {
    if m == 0 then [] else Copies(m - 1, text) + [text]
  }

  lemma {:induction false} FlattenSnoc(parts: seq<seq<string>>, last: seq<string>)
    ensures Flatten(parts + [last]) == Flatten(parts) + last
  {
    if parts == [] {
      assert parts + [last] == [last];
    } else {
      assert (parts + [last])[1..] == parts[1..] + [last];
      FlattenSnoc(parts[1..], last);
    }
  }

  lemma {:induction false} TokensOfCopies(m: nat, text: string)
    ensures Flatten(TokenLists(Copies(m, text))) == Repeat(m, Tokens(text))
  {
    if m > 0 {
      TokensOfCopies(m - 1, text);
      assert TokenLists(Copies(m, text)) == TokenLists(Copies(m - 1, text)) + [Tokens(text)];
      FlattenSnoc(TokenLists(Copies(m - 1, text)), Tokens(text));
    }
  }

  /** Repeating a whole text any number of times does not move its embedding. */
  lemma RepeatedTextSameEmbedding(e: Embedder, m: nat, text: string, sep: string)
    requires e.dim > 0 && IsSqrt(e.sqrt) && m >= 1 && Separates(sep)
    ensures e.Embed(Join(Copies(m, text), sep)) == e.Embed(text)
  {
    TokensJoin(Copies(m, text), sep);
    TokensOfCopies(m, text);
    var toks := Tokens(text);
    RawOfRepeat(e, m, toks);
    NormaliseScaled(e, m as real, e.Raw(toks));
  }

  // ----- the vector in terms of the hash

  function UnitAt(dim: nat, i: nat, x: real): (v: seq<real>)
    ensures |v| == dim
  {
    seq(dim, j requires 0 <= j < dim => if j == i then x else 0.0)
  }

  lemma {:induction false} UnitAtSquares(dim: nat, i: nat, x: real)
    requires i < dim && (x == 1.0 || x == -1.0)
    ensures SumOfSquares(UnitAt(dim, i, x)) == 1.0
    decreases dim
  {
    var v := UnitAt(dim, i, x);
    if i == 0 {
      assert SumOfSquares(v[1..]) == 0.0;
      assert Square(x) == 1.0;
    } else {
      assert v[1..] == UnitAt(dim - 1, i - 1, x);
      UnitAtSquares(dim - 1, i - 1, x);
    }
  }

  lemma RootOfOne(sqrt: real -> real)
    requires IsSqrt(sqrt)
    ensures sqrt(1.0) == 1.0
  {
    assert sqrt(1.0) * sqrt(1.0) == 1.0 * 1.0;
    SquareUnique(sqrt(1.0), 1.0);
  }

  /** A text with one token lies on that token's axis, a text without tokens on the first. */
  lemma EmbedOfToken(e: Embedder, text: string, w: string)
    requires e.dim > 0 && IsSqrt(e.sqrt) && Tokens(text) == [w]
    ensures e.Embed(text) == UnitAt(e.dim, e.Index(w), e.Sign(w))
  {
    hide Tokens, SumOfSquares;
    var raw := e.Raw([w]);
    assert [w][..0] == [];
    forall j | 0 <= j < e.dim ensures raw[j] == e.Weight(w, j) {
      assert e.Coord([w], j) == e.Coord([w][..0], j) + e.Weight([w][0], j);
    }
    assert raw == UnitAt(e.dim, e.Index(w), e.Sign(w));
    UnitAtSquares(e.dim, e.Index(w), e.Sign(w));
    RootOfOne(e.sqrt);
    assert forall j | 0 <= j < e.dim :: raw[j] / 1.0 == raw[j];
  }

  lemma EmbedOfNothing(e: Embedder, text: string)
    requires e.dim > 0 && IsSqrt(e.sqrt) && Tokens(text) == []
    ensures e.Embed(text) == UnitAt(e.dim, 0, 1.0)
  {
    hide Tokens, SumOfSquares;
    var raw := e.Raw([]);
    assert forall j | 0 <= j < e.dim :: raw[j] == 0.0;
    ZeroSquares(raw);
    RootOfZero(e.sqrt);
    assert raw[0 := 1.0] == UnitAt(e.dim, 0, 1.0);
  }

  lemma ZeroSquares(raw: seq<real>)
    requires forall j | 0 <= j < |raw| :: raw[j] == 0.0
    ensures SumOfSquares(raw) == 0.0
  {}

  lemma RootOfZero(sqrt: real -> real)
    requires IsSqrt(sqrt)
    ensures sqrt(0.0) == 0.0
  {
    assert sqrt(0.0) * sqrt(0.0) == 0.0 * 0.0;
    SquareUnique(sqrt(0.0), 0.0);
  }

  /** A text whose only token is w: one at the component the hash selects, with the sign that bit 8 of the hash gives. */
  lemma OneTokenEmbedding(e: Embedder, text: string, w: string)
    requires e.dim > 0 && IsSqrt(e.sqrt) && Tokens(text) == [w]
    ensures forall j | 0 <= j < e.dim :: e.Embed(text)[j] ==
              if j != e.hash(w) % e.dim then 0.0 else if (e.hash(w) / 256) % 2 == 1 then 1.0 else -1.0
  {
    EmbedOfToken(e, text, w);
  }

  /** The tokens that count up, and those that count down, in component j. */
  function CountsUp(e: Embedder, j: nat): string -> bool
    requires e.dim > 0
  {
    (w: string) => e.hash(w) % e.dim == j && (e.hash(w) / 256) % 2 == 1
  }

  function CountsDown(e: Embedder, j: nat): string -> bool
    requires e.dim > 0
  {
    (w: string) => e.hash(w) % e.dim == j && (e.hash(w) / 256) % 2 == 0
  }

  lemma {:induction false} SignedCount(e: Embedder, toks: seq<string>, j: nat)
    requires e.dim > 0
    ensures e.Coord(toks, j) == |Where(toks, CountsUp(e, j))| as real - |Where(toks, CountsDown(e, j))| as real
  {
    if toks == [] {
      assert Where(toks, CountsUp(e, j)) == {} && Where(toks, CountsDown(e, j)) == {};
    } else {
      hide Where;
      var init, last := toks[..|toks| - 1], toks[|toks| - 1];
      assert toks == init + [last];
      SignedCount(e, init, j);
      WhereSnoc(init, last, CountsUp(e, j));
      WhereSnoc(init, last, CountsDown(e, j));
    }
  }

  /** Every embedding, multiplied by the norm of the signed counts, is the signed counts; the first axis if these cancel. */
  lemma EmbedIsSignedCounts(e: Embedder, text: string, counts: seq<real>, j: nat)
    requires e.dim > 0 && IsSqrt(e.sqrt) && |counts| == e.dim && j < e.dim
    requires forall i | 0 <= i < e.dim :: counts[i] == |Where(Tokens(text), CountsUp(e, i))| as real - |Where(Tokens(text), CountsDown(e, i))| as real
    ensures if forall i | 0 <= i < e.dim :: counts[i] == 0.0
            then e.Embed(text)[j] == if j == 0 then 1.0 else 0.0
            else e.Embed(text)[j] * e.sqrt(SumOfSquares(counts)) == counts[j]
  {
    hide Tokens, SumOfSquares, Where, Embedder.Coord;
    forall i | 0 <= i < e.dim ensures counts[i] == e.Raw(Tokens(text))[i] {
      SignedCount(e, Tokens(text), i);
    }
    assert counts == e.Raw(Tokens(text));
    var s := SumOfSquares(counts);
    var norm := e.sqrt(s);
    assert norm * norm == s;
    if norm == 0.0 {
      assert s == 0.0;
    } else {
      RootOfZero(e.sqrt);
      TimesQuotient(counts[j], norm);
    }
  }

  lemma TimesQuotient(x: real, norm: real)
    requires norm != 0.0
    ensures (x / norm) * norm == x
  {}
}
