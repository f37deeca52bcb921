/**
 * The critic's confidence over the tables that the services fill, where each row is embedded from its own text: it
 * depends on the hash whether two texts can oppose one another.
 */
module StoredConfidence {
  import opened Sequences
  import opened Text
  import opened RealMath
  import opened Embedding
  import opened Retrieval
  import opened Models
  import opened Agent
  import opened Transactions
  import opened Thresholds
  import opened Chunking
  import opened KnowledgeBase

  predicate IsToken(w: string) { w != "" && forall c | c in w :: IsTokenChar(c) }

  /**
   * No two tokens count in one component with opposite signs, and none counts negatively in the first component, where
   * a text without tokens lies.
   */
  ghost predicate OneSigned(e: Embedder)
    requires e.dim > 0
  {
    && (forall v, w | IsToken(v) && IsToken(w) && e.Index(v) == e.Index(w) :: e.Sign(v) == e.Sign(w))
    && (forall w | IsToken(w) && e.Index(w) == 0 :: e.Sign(w) == 1.0)
  }

  /** On every table that the services can fill, for every ticket and every draft. */
  ghost predicate StoredNeverNegative(cfg: Settings)
    requires cfg.embedder.dim > 0
  {
    forall steps: seq<Step>, st: AgentState, draft: string ::
      Confidence(RetrieverNode(cfg, Execute(cfg, EMPTY_DB, steps).chunks, st).retrieved, draft) >= 0.0
  }

  // ----- without opposite signs no score is negative

  lemma TokensAreTokens(s: string)
    ensures forall w | w in Tokens(s) :: IsToken(w)
  {}

  lemma {:induction false} CoordHasSign(e: Embedder, toks: seq<string>, j: nat, sign: real)
    requires e.dim > 0 && (sign == 1.0 || sign == -1.0)
    requires forall w | w in toks && e.Index(w) == j :: e.Sign(w) == sign
    ensures sign == 1.0 ==> e.Coord(toks, j) >= 0.0
    ensures sign == -1.0 ==> e.Coord(toks, j) <= 0.0
  {
    if toks != [] {
      assert toks[|toks| - 1] in toks;
      CoordHasSign(e, toks[..|toks| - 1], j, sign);
    }
  }

  /** Both not negative, or both not positive and not the first component. */
  predicate SameSide(x: real, y: real, j: nat) { (x >= 0.0 && y >= 0.0) || (j > 0 && x <= 0.0 && y <= 0.0) }

  lemma CountsOnOneSide(e: Embedder, a: seq<string>, b: seq<string>, j: nat)
    requires e.dim > 0 && OneSigned(e)
    requires forall w | w in a + b :: IsToken(w)
    ensures SameSide(e.Coord(a, j), e.Coord(b, j), j)
  {
    assert forall w | w in a || w in b :: w in a + b;
    if w :| w in a + b && e.Index(w) == j && e.Sign(w) == -1.0 {
      CoordHasSign(e, a, j, -1.0);
      CoordHasSign(e, b, j, -1.0);
    } else {
      assert forall w | w in a + b && e.Index(w) == j :: e.Sign(w) == 1.0;
      CoordHasSign(e, a, j, 1.0);
      CoordHasSign(e, b, j, 1.0);
    }
  }

  lemma QuotientSign(x: real, norm: real)
    requires norm > 0.0
    ensures x >= 0.0 ==> x / norm >= 0.0
    ensures x <= 0.0 ==> x / norm <= 0.0
  {
    QuotientOrder(0.0, x, norm);
  }

  /** Scaling to unit length keeps the side of every component. */
  lemma NormaliseSide(e: Embedder, raw: seq<real>, j: nat)
    requires |raw| == e.dim > 0 && IsSqrt(e.sqrt) && j < e.dim
    ensures raw[j] >= 0.0 ==> e.Normalise(raw)[j] >= 0.0
    ensures j > 0 && raw[j] <= 0.0 ==> e.Normalise(raw)[j] <= 0.0
  {
    hide SumOfSquares;
    var s := SumOfSquares(raw);
    var norm := e.sqrt(s);
    assert norm >= 0.0 && norm * norm == s;
    if norm != 0.0 {
      QuotientSign(raw[j], norm);
    }
  }

  lemma {:induction false} DotOnOneSide(u: seq<real>, v: seq<real>)
    requires |u| == |v| && forall j | 0 <= j < |u| :: (u[j] >= 0.0 && v[j] >= 0.0) || (u[j] <= 0.0 && v[j] <= 0.0)
    ensures Dot(u, v) >= 0.0
  {
    if u != [] {
      ProductOnOneSide(u[0], v[0]);
      DotOnOneSide(u[1..], v[1..]);
    }
  }

  lemma ProductOnOneSide(x: real, y: real)
    requires (x >= 0.0 && y >= 0.0) || (x <= 0.0 && y <= 0.0)
    ensures x * y >= 0.0
  {
    SignOfTimes(x, y);
  }

  lemma TextsDoNotOppose(e: Embedder, s: string, t: string)
    requires e.dim > 0 && IsSqrt(e.sqrt) && OneSigned(e)
    ensures Cosine(e.sqrt, e.Embed(s), e.Embed(t)) >= 0.0
  {
    hide Tokens, SumOfSquares, Dot, Cosine, OneSigned, Embedder.Normalise, Embedder.Coord;
    var u, v, a, b := e.Embed(s), e.Embed(t), e.Raw(Tokens(s)), e.Raw(Tokens(t));
    TokensAreTokens(s);
    TokensAreTokens(t);
    forall j | 0 <= j < e.dim ensures (u[j] >= 0.0 && v[j] >= 0.0) || (u[j] <= 0.0 && v[j] <= 0.0) {
      CountsOnOneSide(e, Tokens(s), Tokens(t), j);
      NormaliseSide(e, a, j);
      NormaliseSide(e, b, j);
    }
    DotOnOneSide(u, v);
    UnitLength(e, a);
    UnitLength(e, b);
    UnitCosine(e.sqrt, u, v);
  }

  /** Every row that the services store is embedded from its own text. */
  lemma StoredRowsEmbedded(cfg: Settings, db: Db)
    requires cfg.embedder.dim > 0 && KnowledgeOk(cfg, db)
    ensures forall c | c in db.chunks :: c.embedding == cfg.embedder.Embed(c.content)
  {
    hide Filter, Chunks, Blank, Embedder.Embed;
    forall c | c in db.chunks ensures c.embedding == cfg.embedder.Embed(c.content) {
      var i :| 0 <= i < |db.chunks| && db.chunks[i] == c;
      var d := db.chunks[i].document;
      assert DocumentOk(cfg, db, d);
      var rows := Filter(db.chunks, ChunkOf(d));
      assert c in rows;
      var k :| 0 <= k < |rows| && rows[k] == c;
    }
  }

  lemma StoredScores(cfg: Settings, chunks: seq<Chunk>, st: AgentState)
    requires cfg.embedder.dim > 0 && IsSqrt(cfg.embedder.sqrt) && OneSigned(cfg.embedder)
    requires forall c | c in chunks :: c.embedding == cfg.embedder.Embed(c.content)
    ensures forall r | r in RetrieverNode(cfg, chunks, st).retrieved :: r.score >= 0.0
  {
    hide OneSigned, Cosine, RoundTo, Embedder.Embed, Rank;
    var e, query := cfg.embedder, st.title + " " + st.description;
    var own := Filter(chunks, InOrg(st.org));
    var scored := ScoreAll(e.sqrt, e.Embed(query), own);
    var hits := Search(e, chunks, st.org, query, cfg.similarityThreshold, cfg.topK);
    RankSound(scored, cfg.similarityThreshold, cfg.topK);
    RoundEnds();
    forall i | 0 <= i < |hits| ensures References(hits)[i].score >= 0.0 {
      assert hits[i] in hits;
      var k :| 0 <= k < |scored| && scored[k] == hits[i];
      assert own[k] in own;
      TextsDoNotOppose(e, query, own[k].content);
      RoundMono(0.0, hits[i].score, SIX_DECIMALS);
    }
  }

  lemma ScoresGiveConfidence(refs: seq<RetrievedRef>, draft: string)
    requires forall r | r in refs :: r.score >= 0.0
    ensures Confidence(refs, draft) >= 0.0
  {
    hide Tokens, RoundTo;
    if refs != [] {
      var context := TokenSet(Join(Contents(refs), " "));
      OverlapRange(context, TokenSet(draft));
      RoundEnds();
      RoundMono(0.0, 0.5 * TopScore(refs) + 0.5 * Overlap(context, TokenSet(draft)), SIX_DECIMALS);
    }
  }

  /** With a one-signed hash the promise of [0, 1] holds on every table the services fill, whatever the settings. */
  lemma OneSignedNeverNegative(cfg: Settings)
    requires cfg.embedder.dim > 0 && IsSqrt(cfg.embedder.sqrt) && OneSigned(cfg.embedder)
    ensures StoredNeverNegative(cfg)
  {
    hide OneSigned, KnowledgeOk, Execute, RetrieverNode, Confidence, Embedder.Embed;
    forall steps: seq<Step>, st: AgentState, draft: string
      ensures Confidence(RetrieverNode(cfg, Execute(cfg, EMPTY_DB, steps).chunks, st).retrieved, draft) >= 0.0
    {
      var db := Execute(cfg, EMPTY_DB, steps);
      EmptyKnowledge(cfg);
      ExecuteKeepsKnowledge(cfg, EMPTY_DB, steps);
      StoredRowsEmbedded(cfg, db);
      StoredScores(cfg, db.chunks, st);
      ScoresGiveConfidence(RetrieverNode(cfg, db.chunks, st).retrieved, draft);
    }
  }

  // ----- opposite signs give a document and a ticket that oppose one another

  lemma TokenChars(w: string)
    requires IsToken(w)
    ensures LowerText(w) == w && IsWord(w)
  {
    LowerKeeps(w);
    assert forall c | c in w :: IsTokenChar(c) && IsGraphic(c);
  }

  lemma {:induction false} LowerKeeps(w: string)
    requires forall c | c in w :: IsTokenChar(c)
    ensures LowerText(w) == w
  {
    hide Lower, IsTokenChar;
    if w != "" {
      assert w[0] in w;
      LowerOfTokenChar(w[0]);
      LowerKeeps(w[1..]);
      assert w == [w[0]] + w[1..];
    }
  }

  lemma LowerOfTokenChar(c: char)
    requires IsTokenChar(c)
    ensures Lower(c) == [c]
  {}

  lemma TokensOfToken(w: string)
    requires IsToken(w)
    ensures Tokens(w) == [w] && Tokens("" + " " + w) == [w]
  {
    hide Runs;
    TokenChars(w);
    RunsWhole(w, IsTokenChar);
    NoTokens();
    SpaceSeparates(" ");
    TokensSplit("", " ", w);
  }

  lemma OppositeAxes(e: Embedder, i: nat, x: real)
    requires IsSqrt(e.sqrt) && i < e.dim && (x == 1.0 || x == -1.0)
    ensures Cosine(e.sqrt, UnitAt(e.dim, i, -x), UnitAt(e.dim, i, x)) == -1.0
  {
    hide SumOfSquares, Dot, Cosine;
    var u, v := UnitAt(e.dim, i, -x), UnitAt(e.dim, i, x);
    assert u == Scale(-1.0, v);
    UnitAtSquares(e.dim, i, x);
    UnitAtSquares(e.dim, i, -x);
    DotSelf(v);
    DotScale(-1.0, v, v, 1.0);
    UnitCosine(e.sqrt, u, v);
  }

  lemma OneWordChunk(text: string)
    requires IsWord(text)
    ensures Chunks(text, CHUNK_SIZE_WORDS, CHUNK_OVERLAP_WORDS) == [text] && !Blank(text)
  {
    hide Words;
    WholeWord(text);
    BlankIffNoWords(text);
    ChunksAreWindows(text, CHUNK_SIZE_WORDS, CHUNK_OVERLAP_WORDS);
    JoinAllStep([text], []);
  }

  lemma WholeWord(text: string)
    requires IsWord(text)
    ensures Words(text) == [text]
  {
    RunsWhole(text, IsGraphic);
  }

  /** Storing a one-word document in an empty knowledge base leaves one row, embedded from the word. */
  lemma OneDocument(cfg: Settings, org: OrgId, actor: UserId, title: string, text: string)
    requires cfg.embedder.dim > 0 && IsWord(text)
    ensures Execute(cfg, EMPTY_DB, [AddDocumentStep(org, actor, title, text)]).chunks
         == [Chunk(0, org, 0, 0, text, cfg.embedder.Embed(text))]
  {
    hide Blank, Chunks, Embedder.Embed;
    OneWordChunk(text);
    var step := AddDocumentStep(org, actor, title, text);
    assert [step][1..] == [];
    assert Execute(cfg, EMPTY_DB, [step]) == Apply(cfg, EMPTY_DB, step);
  }

  /** A ticket whose text opposes the only document retrieves it with score -1. */
  lemma OpposedRetrieval(cfg: Settings, org: OrgId, actor: UserId, title: string, text: string, w: string, x: real)
    requires cfg.embedder.dim > 0 && IsSqrt(cfg.embedder.sqrt) && cfg.topK >= 1 && cfg.similarityThreshold <= -1.0
    requires IsWord(text) && IsToken(w) && cfg.embedder.Sign(w) == -x && (x == 1.0 || x == -1.0)
    requires cfg.embedder.Embed(text) == UnitAt(cfg.embedder.dim, cfg.embedder.Index(w), x)
    ensures var db := Execute(cfg, EMPTY_DB, [AddDocumentStep(org, actor, title, text)]);
            var refs := RetrieverNode(cfg, db.chunks, Initial(org, "", w)).retrieved;
            refs != [] && forall r | r in refs :: r.content == text && r.score == -1.0
  {
    hide Execute, Tokens, RetrieverNode, Cosine, RoundTo, Embedder.Embed;
    var e, st := cfg.embedder, Initial(org, "", w);
    var row := Chunk(0, org, 0, 0, text, e.Embed(text));
    OneDocument(cfg, org, actor, title, text);
    TokensOfToken(w);
    EmbedOfToken(e, st.title + " " + st.description, w);
    OppositeAxes(e, e.Index(w), x);
    assert RowCopies(row, StoredFor(cfg.topK)) == [row];
    SearchReturnsCopies(cfg, st, row, -1.0);
    RoundEnds();
  }

  /**
   * A document "?" and a ticket whose only token counts negatively in the first component give, through the services
   * and for every draft, the lowest confidence of all.
   */
  lemma StoredNegative(cfg: Settings, org: OrgId, actor: UserId, title: string, w: string, draft: string)
    requires cfg.embedder.dim > 0 && IsSqrt(cfg.embedder.sqrt) && cfg.topK >= 1 && cfg.similarityThreshold <= -1.0
    requires IsToken(w) && cfg.embedder.Index(w) == 0 && cfg.embedder.Sign(w) == -1.0
    ensures var db := Execute(cfg, EMPTY_DB, [AddDocumentStep(org, actor, title, "?")]);
            Confidence(RetrieverNode(cfg, db.chunks, Initial(org, "", w)).retrieved, draft) == -0.5
  {
    hide Execute, Tokens, RetrieverNode, RoundTo, Embedder.Embed, Confidence;
    NoTokenInMark();
    EmbedOfNothing(cfg.embedder, "?");
    OpposedRetrieval(cfg, org, actor, title, "?", w, 1.0);
    var db := Execute(cfg, EMPTY_DB, [AddDocumentStep(org, actor, title, "?")]);
    RoundEnds();
    UngroundedConfidence(RetrieverNode(cfg, db.chunks, Initial(org, "", w)).retrieved, draft);
  }

  lemma EmptyDraftConfidence(refs: seq<RetrievedRef>)
    requires refs != [] && forall r | r in refs :: r.score == -1.0
    ensures Confidence(refs, "") == -0.5
  {
    hide Tokens, RoundTo;
    NoTokens();
    var context := TokenSet(Join(Contents(refs), " "));
    assert TokenSet("") == {} && context * {} == {};
    RoundEnds();
    NothingOf(context);
  }

  lemma NothingOf(context: set<string>)
    ensures Overlap(context, {}) == 0.0
  {
    if context != {} {
      assert context * {} == {};
    }
  }

  /** Two tokens of opposite sign in one component: a document of the one and a ticket of the other, with an empty draft. */
  lemma OpposedTokens(cfg: Settings, v: string, w: string)
    requires cfg.embedder.dim > 0 && IsSqrt(cfg.embedder.sqrt) && cfg.topK >= 1 && cfg.similarityThreshold <= -1.0
    requires IsToken(v) && IsToken(w) && cfg.embedder.Index(v) == cfg.embedder.Index(w)
    requires cfg.embedder.Sign(v) != cfg.embedder.Sign(w)
    ensures var db := Execute(cfg, EMPTY_DB, [AddDocumentStep(0, 0, "", v)]);
            Confidence(RetrieverNode(cfg, db.chunks, Initial(0, "", w)).retrieved, "") == -0.5
  {
    hide Execute, Tokens, RetrieverNode, Embedder.Embed, Confidence;
    var e := cfg.embedder;
    TokenChars(v);
    TokensOfToken(v);
    EmbedOfToken(e, v, v);
    OpposedRetrieval(cfg, 0, 0, "", v, w, e.Sign(v));
    EmptyDraftConfidence(RetrieverNode(cfg, Execute(cfg, EMPTY_DB, [AddDocumentStep(0, 0, "", v)]).chunks, Initial(0, "", w)).retrieved);
  }

  /**
   * With every score admitted, the promise of [0, 1] holds on all tables that the services fill exactly if the hash is
   * one-signed.
   */
  lemma StoredNeverNegativeIff(cfg: Settings)
    requires cfg.embedder.dim > 0 && IsSqrt(cfg.embedder.sqrt) && cfg.topK >= 1 && cfg.similarityThreshold <= -1.0
    ensures StoredNeverNegative(cfg) <==> OneSigned(cfg.embedder)
  {
    hide Execute, RetrieverNode, Confidence, IsToken;
    var e := cfg.embedder;
    if OneSigned(e) {
      OneSignedNeverNegative(cfg);
    } else if w :| IsToken(w) && e.Index(w) == 0 && e.Sign(w) != 1.0 {
      StoredNegative(cfg, 0, 0, "", w, "");
    } else {
      var v, w :| IsToken(v) && IsToken(w) && e.Index(v) == e.Index(w) && e.Sign(v) != e.Sign(w);
      OpposedTokens(cfg, v, w);
    }
  }
}
