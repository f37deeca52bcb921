/**
 * Which settings keep the critic's promises: the exact similarity thresholds for a non-negative confidence, and the
 * exact pairs of thresholds for which approval means grounded. Each converse builds a row with the score that breaks it.
 */
module Thresholds {
  import opened Sequences
  import opened Text
  import opened RealMath
  import opened Embedding
  import opened Retrieval
  import opened Models
  import opened Agent

  // ----- a row of any given score

  lemma FirstOne(a: seq<real>, b: seq<real>)
    requires a != [] && b != []
    ensures Dot(a, b) == Times(a[0], b[0]) + Dot(a[1..], b[1..])
    ensures SumOfSquares(a) == Times(a[0], a[0]) + SumOfSquares(a[1..])
  {
    hide SumOfSquares;
    DotStep(a, b);
  }

  lemma FirstTwo(a: seq<real>, b: seq<real>)
    requires |a| >= 2 && |b| >= 2
    ensures Dot(a, b) == Times(a[0], b[0]) + Times(a[1], b[1]) + Dot(a[2..], b[2..])
    ensures SumOfSquares(a) == Times(a[0], a[0]) + Times(a[1], a[1]) + SumOfSquares(a[2..])
  {
    hide Dot, SumOfSquares, Times;
    assert a[1..][1..] == a[2..] && b[1..][1..] == b[2..];
    FirstOne(a, b);
    FirstOne(a[1..], b[1..]);
  }

  lemma ScaledSelf(s: real, r: seq<real>)
    ensures Dot(r, Scale(s, r)) == Times(s, SumOfSquares(r))
    ensures SumOfSquares(Scale(s, r)) == Times(Times(s, s), SumOfSquares(r))
  {
    hide Dot, SumOfSquares, Scale;
    DotSelf(r);
    DotScale(s, r, r, SumOfSquares(r));
    DotSymmetric(r, Scale(s, r));
    SquaresScale(s, r, SumOfSquares(r));
  }

  /** Turning (x, y) by a quarter and scaling by u adds nothing along it and u * u of its square across it. */
  lemma Turned(x: real, y: real, s: real, u: real, m: real)
    requires m == x * x + y * y
    ensures x * (s * x - u * y) + y * (s * y + u * x) == s * m
    ensures (s * x - u * y) * (s * x - u * y) + (s * y + u * x) * (s * y + u * x) == (s * s) * m + (u * u) * m
  {
    var a, b, c, d := s * x, u * y, s * y, u * x;
    assert (a - b) * (a - b) + (c + d) * (c + d) == a * a + b * b + c * c + d * d - 2.0 * (a * b) + 2.0 * (c * d);
    assert a * b == (s * u) * (x * y) && c * d == (s * u) * (x * y);
    assert a * a == (s * s) * (x * x) && c * c == (s * s) * (y * y);
    assert b * b == (u * u) * (y * y) && d * d == (u * u) * (x * x);
  }

  /** The weight of the quarter turn that completes a share s to unit length. */
  lemma Complement(sqrt: real -> real, s: real, m: real) returns (u: real)
    requires IsSqrt(sqrt) && -1.0 <= s <= 1.0 && m > 0.0
    ensures (u * u) * m == 1.0 - s * s
  {
    var rest, n := 1.0 - s * s, sqrt(m);
    SquareBelowOne(s);
    var w := sqrt(rest);
    assert n * n == m && w * w == rest;
    u := w / n;
    assert u * n == w;
    assert (u * u) * m == (u * n) * (u * n);
  }

  lemma SquareBelowOne(s: real)
    requires -1.0 <= s <= 1.0
    ensures s * s <= 1.0
  {
    SignOfTimes(1.0 - s, 1.0 + s);
    assert (1.0 - s) * (1.0 + s) == 1.0 - s * s;
  }

  lemma UnitCosine(sqrt: real -> real, a: seq<real>, b: seq<real>)
    requires IsSqrt(sqrt) && SumOfSquares(a) == 1.0 && SumOfSquares(b) == 1.0
    ensures Cosine(sqrt, a, b) == Dot(a, b)
  {
    hide Dot, SumOfSquares;
    assert sqrt(1.0) * sqrt(1.0) == 1.0 * 1.0;
    SquareUnique(sqrt(1.0), 1.0);
  }

  /** Replacing the first two components keeps the scaled rest. */
  lemma WithRest(q: seq<real>, s: real, x: real, y: real)
    requires |q| >= 2
    ensures var b := [x, y] + Scale(s, q[2..]);
            var rest := SumOfSquares(q[2..]);
            && |b| == |q| && SumOfSquares(q) == Times(q[0], q[0]) + Times(q[1], q[1]) + rest
            && Dot(q, b) == Times(q[0], x) + Times(q[1], y) + Times(s, rest)
            && SumOfSquares(b) == Times(x, x) + Times(y, y) + Times(Times(s, s), rest)
  {
    hide SumOfSquares, Dot, Scale, Times;
    var b := [x, y] + Scale(s, q[2..]);
    assert b[2..] == Scale(s, q[2..]);
    FirstTwo(q, b);
    FirstTwo(b, b);
    ScaledSelf(s, q[2..]);
  }

  lemma TurnInPlane(sqrt: real -> real, q: seq<real>, s: real) returns (b: seq<real>)
    requires IsSqrt(sqrt) && |q| >= 2 && SumOfSquares(q) == 1.0 && -1.0 <= s <= 1.0
    requires q[0] * q[0] + q[1] * q[1] != 0.0
    ensures |b| == |q| && Dot(q, b) == s && SumOfSquares(b) == 1.0
  {
    hide SumOfSquares, Dot, Scale, Times;
    var x, y, rest := q[0], q[1], SumOfSquares(q[2..]);
    var m := x * x + y * y;
    SumsOfTwo(x, y);
    var u := Complement(sqrt, s, m);
    var x1, y1 := s * x - u * y, s * y + u * x;
    b := [x1, y1] + Scale(s, q[2..]);
    WithRest(q, s, x1, y1);
    TurnedUnit(x, y, s, u, m, rest, x1, y1);
  }

  lemma StepAside(sqrt: real -> real, q: seq<real>, s: real) returns (b: seq<real>)
    requires IsSqrt(sqrt) && |q| >= 2 && SumOfSquares(q) == 1.0 && -1.0 <= s <= 1.0
    requires q[0] * q[0] + q[1] * q[1] == 0.0
    ensures |b| == |q| && Dot(q, b) == s && SumOfSquares(b) == 1.0
  {
    hide SumOfSquares, Dot, Scale;
    var u := Complement(sqrt, s, 1.0);
    b := [u, 0.0] + Scale(s, q[2..]);
    NoPlane(q[0], q[1]);
    WithRest(q, s, u, 0.0);
  }

  /** A unit vector of the query's length (two for a query of length one) that scores exactly s against the query. */
  lemma VectorWithScore(sqrt: real -> real, q: seq<real>, s: real) returns (b: seq<real>)
    requires IsSqrt(sqrt) && q != [] && SumOfSquares(q) == 1.0 && -1.0 <= s <= 1.0
    ensures |b| == (if |q| == 1 then 2 else |q|) && Cosine(sqrt, q, b) == s
  {
    hide SumOfSquares, Dot, Scale, Cosine;
    if |q| == 1 {
      var u := Complement(sqrt, s, 1.0);
      b := [s * q[0], u];
      ShortSquares(q, b, s, u);
    } else if q[0] * q[0] + q[1] * q[1] == 0.0 {
      b := StepAside(sqrt, q, s);
    } else {
      b := TurnInPlane(sqrt, q, s);
    }
    UnitCosine(sqrt, q, b);
  }

  lemma SumsOfTwo(x: real, y: real)
    ensures x * x + y * y >= 0.0
  {}

  lemma NoPlane(x: real, y: real)
    requires x * x + y * y == 0.0
    ensures x == 0.0 && y == 0.0
  {
    assert Square(x) == x * x && Square(y) == y * y;
  }

  lemma TurnedUnit(x: real, y: real, s: real, u: real, m: real, rest: real, x1: real, y1: real)
    requires m == x * x + y * y && (u * u) * m == 1.0 - s * s
    requires x1 == s * x - u * y && y1 == s * y + u * x
    ensures Times(x, x) + Times(y, y) + rest == 1.0 ==>
              && Times(x, x1) + Times(y, y1) + Times(s, rest) == s
              && Times(x1, x1) + Times(y1, y1) + Times(Times(s, s), rest) == 1.0
  {
    Turned(x, y, s, u, m);
    if Times(x, x) + Times(y, y) + rest == 1.0 {
      assert s * m + s * rest == s * (m + rest);
      assert (s * s) * m + (s * s) * rest == (s * s) * (m + rest);
    }
  }

  lemma ShortSquares(q: seq<real>, b: seq<real>, s: real, u: real)
    requires |q| == 1 && SumOfSquares(q) == 1.0 && b == [s * q[0], u] && u * u == 1.0 - s * s
    ensures Dot(q, b) == s && SumOfSquares(b) == 1.0
  {
    var x := q[0];
    DotStep(q, b);
    FirstTwo(b, b);
    assert SumOfSquares(q[1..]) == 0.0 && SumOfSquares(b[2..]) == 0.0 && Dot(q[1..], b[1..]) == 0.0;
    assert Square(x) == x * x == 1.0;
    assert (s * x) * (s * x) == (s * s) * (x * x);
    assert x * (s * x) == s * (x * x);
  }

  // ----- a knowledge base that returns only such rows

  function RowCopies(row: Chunk, n: nat): seq<Chunk> { seq(n, _ => row) }

  /** A positive cut keeps the first row; a negative one drops that many from the end, so one row more is stored. */
  function StoredFor(topK: int): (n: nat)
    requires topK != 0
    ensures n >= 1
  {
    if topK > 0 then 1 else 1 - topK
  }

  lemma SearchReturnsCopies(cfg: Settings, st: AgentState, row: Chunk, s: real)
    requires cfg.embedder.dim > 0 && cfg.topK != 0 && row.org == st.org && s >= cfg.similarityThreshold
    requires s == Cosine(cfg.embedder.sqrt, cfg.embedder.Embed(st.title + " " + st.description), row.embedding)
    ensures var refs := RetrieverNode(cfg, RowCopies(row, StoredFor(cfg.topK)), st).retrieved;
            refs != [] && forall r | r in refs :: r.content == row.content && r.score == RoundTo(s, SIX_DECIMALS)
  {
    hide Filter, Rank, Cosine, Embedder.Embed, RoundTo, SortDescending, Take;
    var e, query, n := cfg.embedder, st.title + " " + st.description, StoredFor(cfg.topK);
    var stored := RowCopies(row, n);
    FilterAll(stored, InOrg(st.org));
    var scored := ScoreAll(e.sqrt, e.Embed(query), stored);
    var sorted := SortDescending(scored);
    SortIsDescending(scored);
    var m := RankShape(scored, cfg.similarityThreshold, cfg.topK);
    forall i | 0 <= i < |sorted| ensures sorted[i] == Scored(row, s) {
      assert sorted[i] in multiset(sorted);
      assert sorted[i] in scored;
    }
    assert m < |sorted| ==> sorted[m].score < cfg.similarityThreshold;
    assert m == n;
    var hits := Search(e, stored, st.org, query, cfg.similarityThreshold, cfg.topK);
    assert |hits| >= 1;
    forall i | 0 <= i < |hits| ensures hits[i] == Scored(row, s) {
      assert hits[i] == sorted[i];
    }
  }

  /** For every score at or above the threshold some table of rows makes the retriever return it, rounded, with a given text. */
  lemma ScoreIsReachable(cfg: Settings, st: AgentState, s: real, content: string) returns (chunks: seq<Chunk>)
    requires cfg.embedder.dim > 0 && IsSqrt(cfg.embedder.sqrt) && cfg.topK != 0
    requires cfg.similarityThreshold <= s && -1.0 <= s <= 1.0
    ensures forall c | c in chunks :: c.org == st.org && c.content == content
    ensures cfg.embedder.dim >= 2 ==> forall c | c in chunks :: |c.embedding| == cfg.embedder.dim
    ensures var refs := RetrieverNode(cfg, chunks, st).retrieved;
            refs != [] && forall r | r in refs :: r.content == content && r.score == RoundTo(s, SIX_DECIMALS)
  {
    hide Tokens, SumOfSquares, Cosine, RetrieverNode, RoundTo, Embedder.Normalise, Embedder.Raw;
    var e, query := cfg.embedder, st.title + " " + st.description;
    UnitLength(e, e.Raw(Tokens(query)));
    var b := VectorWithScore(e.sqrt, e.Embed(query), s);
    var row := Chunk(0, st.org, 0, 0, content, b);
    chunks := RowCopies(row, StoredFor(cfg.topK));
    SearchReturnsCopies(cfg, st, row, s);
  }

  // ----- the critic's promise of a confidence that is not negative

  /** Without a token in the retrieved texts the confidence is half the top score, whatever the draft. */
  lemma UngroundedConfidence(refs: seq<RetrievedRef>, draft: string)
    requires refs != [] && !Grounded(refs)
    ensures var c := RoundTo(0.5 * TopScore(refs), SIX_DECIMALS);
            Confidence(refs, draft) == if c <= 1.0 then c else 1.0
  {
    hide Tokens, RoundTo;
    NewlinesSeparate();
    TokensJoin(Contents(refs), " ");
    SomeToken(Contents(refs));
    OverlapRange(TokenSet(Join(Contents(refs), " ")), TokenSet(draft));
  }

  /** A text that is not blank and has no token. */
  lemma NoTokenInMark()
    ensures Tokens("?") == []
  {
    assert LowerText("?") == "?";
    RunsSkip("?", "", IsTokenChar);
    assert "?" + "" == "?";
  }

  /** A knowledge base without tokens whose only score is s leaves half of the rounded score as confidence. */
  lemma ConfidenceOfScore(cfg: Settings, st: AgentState, s: real, draft: string) returns (chunks: seq<Chunk>)
    requires cfg.embedder.dim > 0 && IsSqrt(cfg.embedder.sqrt) && cfg.topK != 0
    requires cfg.similarityThreshold <= s && -1.0 <= s <= 1.0
    ensures var c := RoundTo(0.5 * RoundTo(s, SIX_DECIMALS), SIX_DECIMALS);
            Confidence(RetrieverNode(cfg, chunks, st).retrieved, draft) == if c <= 1.0 then c else 1.0
  {
    hide Tokens, RetrieverNode, RoundTo, Confidence;
    chunks := ScoreIsReachable(cfg, st, s, "?");
    NoTokenInMark();
    UngroundedConfidence(RetrieverNode(cfg, chunks, st).retrieved, draft);
  }

  /** An opposite row without tokens gives the lowest confidence of all, -0.5. */
  lemma NegativeConfidence(cfg: Settings, st: AgentState, draft: string) returns (chunks: seq<Chunk>)
    requires cfg.embedder.dim > 0 && IsSqrt(cfg.embedder.sqrt) && cfg.topK != 0 && cfg.similarityThreshold <= -1.0
    ensures Confidence(RetrieverNode(cfg, chunks, st).retrieved, draft) == -0.5
  {
    hide RetrieverNode, Confidence, RoundTo;
    RoundEnds();
    chunks := ConfidenceOfScore(cfg, st, -1.0, draft);
  }

  ghost predicate NeverNegative(cfg: Settings)
    requires cfg.embedder.dim > 0
  {
    forall chunks, st, draft :: Confidence(RetrieverNode(cfg, chunks, st).retrieved, draft) >= 0.0
  }

  /** Half of a score at or below -0.0000015 rounds to at most -0.000001. */
  lemma HalvesBelow(s: real)
    requires s <= -0.0000015
    ensures RoundTo(0.5 * RoundTo(s, SIX_DECIMALS), SIX_DECIMALS) < 0.0
  {
    var r := RoundTo(s, SIX_DECIMALS);
    assert RoundTo(-0.0000015, SIX_DECIMALS) == -0.000002;
    assert RoundTo(-0.000001, SIX_DECIMALS) == -0.000001;
    hide RoundTo;
    RoundMono(s, -0.0000015, SIX_DECIMALS);
    RoundMono(0.5 * r, -0.000001, SIX_DECIMALS);
  }

  /** The promised range from 0 holds for all rows, tickets and drafts exactly for these settings. */
  lemma NeverNegativeIff(cfg: Settings)
    requires cfg.embedder.dim > 0 && IsSqrt(cfg.embedder.sqrt)
    ensures NeverNegative(cfg) <==> cfg.topK == 0 || cfg.similarityThreshold > -0.0000015
  {
    hide RetrieverNode, Confidence, RoundTo;
    if cfg.topK == 0 || cfg.similarityThreshold > -0.0000015 {
      forall chunks, st, draft ensures Confidence(RetrieverNode(cfg, chunks, st).retrieved, draft) >= 0.0 {
        ConfidenceRange(cfg, chunks, st, draft);
      }
    } else {
      var s := if cfg.similarityThreshold >= -1.0 then cfg.similarityThreshold else -1.0;
      var st := Initial(0, "", "");
      var chunks := ConfidenceOfScore(cfg, st, s, "");
      HalvesBelow(s);
      assert Confidence(RetrieverNode(cfg, chunks, st).retrieved, "") < 0.0;
    }
  }

  // ----- the pairs of thresholds for which approval means grounded

  ghost predicate ApprovalMeansGrounded(cfg: Settings)
    requires cfg.embedder.dim > 0
  {
    forall chunks, org, title, description ::
      var st := MockRun(cfg, chunks, org, title, description);
      st.outcome == ToApproval <==> Grounded(st.retrieved)
  }

  lemma WordHasToken()
    ensures HasToken("a") && !HasToken("?")
  {
    NoTokenInMark();
    assert LowerText("a") == "a";
    RunsWhole("a", IsTokenChar);
  }

  /** What the offline agent decides when every retrieved row has the same text and score. */
  lemma OutcomeOfScore(cfg: Settings, s: real, content: string) returns (chunks: seq<Chunk>)
    requires cfg.embedder.dim > 0 && IsSqrt(cfg.embedder.sqrt) && cfg.topK != 0
    requires cfg.similarityThreshold <= s && -1.0 <= s <= 1.0
    ensures var st := MockRun(cfg, chunks, 0, "", "");
            var c := RoundTo(0.5 * RoundTo(s, SIX_DECIMALS) + (if HasToken(content) then 0.5 else 0.0), SIX_DECIMALS);
            && (Grounded(st.retrieved) <==> HasToken(content))
            && (st.outcome == ToApproval <==> (if c <= 1.0 then c else 1.0) >= cfg.confidenceThreshold)
  {
    hide Tokens, HasToken, RetrieverNode, RoundTo, MockBody, MockRun, Confidence;
    chunks := ScoreIsReachable(cfg, Initial(0, "", ""), s, content);
    MockRunIsRun(cfg, chunks, 0, "", "");
    var refs := MockRun(cfg, chunks, 0, "", "").retrieved;
    assert refs[0] in refs;
    MockConfidence(refs);
  }

  lemma NothingStored(cfg: Settings)
    requires cfg.embedder.dim > 0
    ensures var st := MockRun(cfg, [], 0, "", "");
            st.retrieved == [] && (st.outcome == ToApproval <==> 0.0 >= cfg.confidenceThreshold)
  {
    hide Tokens, Embedder.Embed, RunWorkflow, MockRun, MockBody;
    MockRunIsRun(cfg, [], 0, "", "");
    RankSound(ScoreAll(cfg.embedder.sqrt, cfg.embedder.Embed("" + " " + ""), []), cfg.similarityThreshold, cfg.topK);
  }

  lemma MeaningSeparates(cfg: Settings)
    requires cfg.embedder.dim > 0 && IsSqrt(cfg.embedder.sqrt) && ApprovalMeansGrounded(cfg)
    ensures Separating(cfg)
  {
    hide MockRun, Grounded, RoundTo, HasToken;
    NothingStored(cfg);
    NotGroundedByNothing();
    assert MockRun(cfg, [], 0, "", "").outcome != ToApproval;
    if cfg.topK != 0 && cfg.similarityThreshold <= 1.0 {
      WordHasToken();
      RoundEnds();
      var ungrounded := OutcomeOfScore(cfg, 1.0, "?");
      assert MockRun(cfg, ungrounded, 0, "", "").outcome != ToApproval;
      assert 0.5 * 1.0 + 0.0 == 0.5;
      var low := if cfg.similarityThreshold >= -1.0 then cfg.similarityThreshold else -1.0;
      var grounded := OutcomeOfScore(cfg, low, "a");
      assert MockRun(cfg, grounded, 0, "", "").outcome == ToApproval;
    }
  }

  /**
   * Approval means grounded for every knowledge base and every ticket exactly for the separating thresholds, whatever
   * the hash, the dimension and the cut.
   */
  lemma ApprovalMeansGroundedIff(cfg: Settings)
    requires cfg.embedder.dim > 0 && IsSqrt(cfg.embedder.sqrt)
    ensures ApprovalMeansGrounded(cfg) <==> Separating(cfg)
  {
    hide MockRun, Grounded, Separating;
    if ApprovalMeansGrounded(cfg) {
      MeaningSeparates(cfg);
    }
    if Separating(cfg) {
      forall chunks, org, title, description
        ensures MockRun(cfg, chunks, org, title, description).outcome == ToApproval
                <==> Grounded(MockRun(cfg, chunks, org, title, description).retrieved)
      {
        ApprovalIffGrounded(cfg, chunks, org, title, description);
      }
    }
  }

  lemma NotGroundedByNothing()
    ensures !Grounded([])
  {}
}
