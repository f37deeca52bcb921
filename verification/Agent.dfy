/** The workflow nodes (agent/nodes.py) and the offline model (providers/mock.py). */
module Agent {
  import opened Sequences
  import opened Text
  import opened RealMath
  import opened Embedding
  import opened Retrieval
  import opened Models

  datatype LlmResult = LlmResult(text: string, promptTokens: nat, completionTokens: nat)

  /** A language model: prompt, system text and context to a completion or an error. */
  type Llm = (string, string, string) -> Result<LlmResult, Error>

  datatype RetrievedRef = RetrievedRef(chunkId: Id, documentId: Id, content: string, score: real)

  datatype AgentState = AgentState(
    org: OrgId, title: string, description: string,
    classification: Option<Classification>,
    retrieved: seq<RetrievedRef>, retrievalHit: bool,
    draft: Option<string>, promptTokens: nat, completionTokens: nat,
    confidence: real, outcome: Outcome)

  /** The missing keys of the initial state read as their `get` defaults. */
  function Initial(org: OrgId, title: string, description: string): AgentState {
    AgentState(org, title, description, None, [], false, None, 0, 0, 0.0, ToHuman)
  }

  const SIX_DECIMALS := 1000000.0

  function ClassifierNode(cfg: Settings, st: AgentState): AgentState {
    st.(classification := Some(cfg.classify(st.title + " " + st.description)))
  }

  // ----- retrieval

  function InOrg(org: OrgId): Chunk -> bool { (c: Chunk) => c.org == org }

  function ScoreAll(sqrt: real -> real, query: seq<real>, chunks: seq<Chunk>): (r: seq<Scored<Chunk>>)
    ensures |r| == |chunks|
    ensures forall i | 0 <= i < |r| :: r[i] == Scored(chunks[i], Cosine(sqrt, query, chunks[i].embedding))
  {
    seq(|chunks|, i requires 0 <= i < |chunks| => Scored(chunks[i], Cosine(sqrt, query, chunks[i].embedding)))
  }

  function Search(e: Embedder, chunks: seq<Chunk>, org: OrgId, query: string, threshold: real, topK: int): seq<Scored<Chunk>>
    requires e.dim > 0
  {
    Rank(ScoreAll(e.sqrt, e.Embed(query), Filter(chunks, InOrg(org))), threshold, topK)
  }

  function References(hits: seq<Scored<Chunk>>): (r: seq<RetrievedRef>)
    ensures |r| == |hits|
    ensures forall i | 0 <= i < |hits| ::
              r[i] == RetrievedRef(hits[i].item.id, hits[i].item.document, hits[i].item.content,
                                   RoundTo(hits[i].score, SIX_DECIMALS))
  {
    seq(|hits|, i requires 0 <= i < |hits| =>
      RetrievedRef(hits[i].item.id, hits[i].item.document, hits[i].item.content, RoundTo(hits[i].score, SIX_DECIMALS)))
  }

  function RetrieverNode(cfg: Settings, chunks: seq<Chunk>, st: AgentState): AgentState
    requires cfg.embedder.dim > 0
  {
    var hits := Search(cfg.embedder, chunks, st.org, st.title + " " + st.description, cfg.similarityThreshold, cfg.topK);
    st.(retrieved := References(hits), retrievalHit := hits != [])
  }

  // ----- draft

  function Contents(refs: seq<RetrievedRef>): (r: seq<string>)
    ensures |r| == |refs|
    ensures forall i | 0 <= i < |refs| :: r[i] == refs[i].content
  {
    seq(|refs|, i requires 0 <= i < |refs| => refs[i].content)
  }

  function Prompt(st: AgentState): string {
    "Ticket: " + st.title + "\nDetails: " + st.description
    + "\nWrite a helpful support reply grounded in the provided context."
  }

  const SYSTEM_TEXT := "You are a careful support agent. Only use the provided context."

  function DraftNode(llm: Llm, st: AgentState): Result<AgentState, Error> {
    match llm(Prompt(st), SYSTEM_TEXT, Join(Contents(st.retrieved), "\n\n"))
    case Err(e) => Err(e)
    case Ok(r) =>
      Ok(st.(draft := Some(r.text), promptTokens := r.promptTokens, completionTokens := r.completionTokens))
  }

  const OPENING := "Based on our documentation:"
  const CLOSING := "Please let us know if this resolves your issue."
  const HOLDING_REPLY := "Thank you for reaching out. We are looking into your request and will follow up shortly."

  function MockBody(context: string): string {
    var stripped := Strip(context);
    if stripped != "" then OPENING + "\n\n" + stripped + "\n\n" + CLOSING else HOLDING_REPLY
  }

  function MockComplete(prompt: string, system: string, context: string): Result<LlmResult, Error> {
    Ok(LlmResult(MockBody(context), |Tokens(prompt)| + |Tokens(system)|, |Tokens(MockBody(context))|))
  }

  // ----- critic and decision

  function TokenSet(s: string): set<string> { set t | t in Tokens(s) }

  function TopScore(refs: seq<RetrievedRef>): (r: real)
    requires refs != []
    ensures exists i | 0 <= i < |refs| :: refs[i].score == r
    ensures forall i | 0 <= i < |refs| :: refs[i].score <= r
  {
    if |refs| == 1 then refs[0].score
    else
      var rest := TopScore(refs[1..]);
      if refs[0].score >= rest then refs[0].score else rest
  }

  /** The share of the context's tokens that the draft repeats. */
  function Overlap(context: set<string>, draft: set<string>): real {
    if context == {} then 0.0
    else
      assert |context| > 0;
      |context * draft| as real / |context| as real
  }

  function Confidence(refs: seq<RetrievedRef>, draft: string): real {
    if refs == [] then 0.0
    else
      var overlap := Overlap(TokenSet(Join(Contents(refs), " ")), TokenSet(draft));
      var confidence := RoundTo(0.5 * TopScore(refs) + 0.5 * overlap, SIX_DECIMALS);
      if confidence <= 1.0 then confidence else 1.0
  }

  function CriticNode(st: AgentState): AgentState {
    st.(confidence := Confidence(st.retrieved, match st.draft case Some(d) => d case None => ""))
  }

  function Decide(cfg: Settings, confidence: real): Outcome {
    if confidence >= cfg.confidenceThreshold then ToApproval else ToHuman
  }

  function DecisionNode(cfg: Settings, st: AgentState): AgentState {
    st.(outcome := Decide(cfg, st.confidence))
  }

  function RunWorkflow(cfg: Settings, chunks: seq<Chunk>, llm: Llm, org: OrgId, title: string, description: string)
    : Result<AgentState, Error>
    requires cfg.embedder.dim > 0
  {
    var retrieved := RetrieverNode(cfg, chunks, ClassifierNode(cfg, Initial(org, title, description)));
    match DraftNode(llm, retrieved)
    case Err(e) => Err(e)
    case Ok(drafted) => Ok(DecisionNode(cfg, CriticNode(drafted)))
  }

  /** What every finished workflow satisfies, whatever the model wrote. */
  predicate Decided(cfg: Settings, st: AgentState) {
    && st.outcome == Decide(cfg, st.confidence)
    && (st.retrievalHit <==> st.retrieved != [])
    && (!st.retrievalHit ==> st.confidence == 0.0)
    && st.confidence <= 1.0
    && st.classification.Some? && st.draft.Some?
  }

  lemma WorkflowDecided(cfg: Settings, chunks: seq<Chunk>, llm: Llm, org: OrgId, title: string, description: string)
    requires cfg.embedder.dim > 0
    ensures var r := RunWorkflow(cfg, chunks, llm, org, title, description);
            r.Ok? ==> Decided(cfg, r.value)
  {
    hide Rank, Search, Tokens, Embedder.Embed;
  }

  // ----- the critic's range for an arbitrary model

  lemma OverlapRange(context: set<string>, draft: set<string>)
    ensures 0.0 <= Overlap(context, draft) <= 1.0
    ensures context <= draft ==> Overlap(context, draft) == if context == {} then 0.0 else 1.0
  {
    if context != {} {
      var c, n := |context| as real, |context * draft| as real;
      SubsetSize(context * draft, context);
      assert |context| > 0;
      QuotientOrder(0.0, n, c);
      QuotientOrder(1.0, n, c);
      if context <= draft {
        assert context * draft == context;
      }
    }
  }

  /** A draft that holds some tokens of the context and misses the others covers that share of it. */
  lemma OverlapShare(held: set<string>, missed: set<string>, draft: set<string>)
    requires held !! missed && held <= draft && missed !! draft && held + missed != {}
    ensures Overlap(held + missed, draft) == |held| as real / (|held| + |missed|) as real
  {
    assert (held + missed) * draft == held;
  }

  lemma {:induction false} SubsetSize(a: set<string>, b: set<string>)
    requires a <= b
    ensures |a| <= |b|
    decreases a
  {
    if a != {} {
      var x :| x in a;
      SubsetSize(a - {x}, b - {x});
    }
  }

  /** The least rounded score that a returned row can have. */
  function LowestScore(cfg: Settings): real {
    RoundTo(if cfg.similarityThreshold >= -1.0 then cfg.similarityThreshold else -1.0, SIX_DECIMALS)
  }

  lemma ScoresInRange(cfg: Settings, chunks: seq<Chunk>, st: AgentState)
    requires cfg.embedder.dim > 0 && IsSqrt(cfg.embedder.sqrt)
    ensures var refs := RetrieverNode(cfg, chunks, st).retrieved;
            && (forall r | r in refs :: LowestScore(cfg) <= r.score <= 1.0)
            && (refs != [] ==> cfg.topK != 0 && cfg.similarityThreshold <= 1.0)
  {
    var e, query := cfg.embedder, st.title + " " + st.description;
    var scored := ScoreAll(e.sqrt, e.Embed(query), Filter(chunks, InOrg(st.org)));
    var hits := Search(e, chunks, st.org, query, cfg.similarityThreshold, cfg.topK);
    RankSound(scored, cfg.similarityThreshold, cfg.topK);
    RoundEnds();
    var low := if cfg.similarityThreshold >= -1.0 then cfg.similarityThreshold else -1.0;
    forall i | 0 <= i < |hits| ensures cfg.similarityThreshold <= 1.0 && LowestScore(cfg) <= References(hits)[i].score <= 1.0 {
      assert hits[i] in hits;
      var k :| 0 <= k < |scored| && scored[k] == hits[i];
      CosineBound(e.sqrt, e.Embed(query), scored[k].item.embedding);
      RoundMono(low, hits[i].score, SIX_DECIMALS);
      RoundMono(hits[i].score, 1.0, SIX_DECIMALS);
    }
    assert hits != [] ==> LowestScore(cfg) <= References(hits)[0].score;
  }

  lemma RoundEnds()
    ensures RoundTo(1.0, SIX_DECIMALS) == 1.0 && RoundTo(-1.0, SIX_DECIMALS) == -1.0
    ensures RoundTo(0.0, SIX_DECIMALS) == 0.0 && RoundTo(0.5, SIX_DECIMALS) == 0.5 && RoundTo(-0.5, SIX_DECIMALS) == -0.5
  {}

  lemma LowestRounds(cfg: Settings)
    ensures -1.0 <= LowestScore(cfg)
    ensures cfg.similarityThreshold > -0.0000015 ==> LowestScore(cfg) >= -0.000001
    ensures RoundTo(-0.0000005, SIX_DECIMALS) == 0.0
  {
    RoundEnds();
    RoundMono(-1.0, if cfg.similarityThreshold >= -1.0 then cfg.similarityThreshold else -1.0, SIX_DECIMALS);
  }

  /**
   * The critic stays within [-0.5, 1], and within [0, 1] when the similarity threshold lies above -0.0000015: half of a
   * score that rounds to -0.000001 still rounds to zero.
   */
  lemma ConfidenceRange(cfg: Settings, chunks: seq<Chunk>, st: AgentState, draft: string)
    requires cfg.embedder.dim > 0 && IsSqrt(cfg.embedder.sqrt)
    ensures var c := Confidence(RetrieverNode(cfg, chunks, st).retrieved, draft);
            -0.5 <= c <= 1.0 && (cfg.topK == 0 || cfg.similarityThreshold > -0.0000015 ==> 0.0 <= c)
  {
    hide Rank, Search, Tokens, Embedder.Embed, RoundTo, LowestScore;
    var refs := RetrieverNode(cfg, chunks, st).retrieved;
    ScoresInRange(cfg, chunks, st);
    if refs != [] {
      var top := TopScore(refs);
      var context, drafted := TokenSet(Join(Contents(refs), " ")), TokenSet(draft);
      OverlapRange(context, drafted);
      RoundEnds();
      LowestRounds(cfg);
      var x := 0.5 * top + 0.5 * Overlap(context, drafted);
      RoundMono(-0.5, x, SIX_DECIMALS);
      if cfg.similarityThreshold > -0.0000015 {
        RoundMono(-0.0000005, x, SIX_DECIMALS);
      }
    }
  }

  // ----- the offline model repeats its whole context

  lemma MockBodyTokens(context: string)
    ensures Strip(context) != "" ==> Tokens(MockBody(context)) == Tokens(OPENING) + (Tokens(context) + Tokens(CLOSING))
    ensures Strip(context) == "" ==> Tokens(context) == []
  {
    hide Tokens;
    TokensStrip(context);
    var stripped := Strip(context);
    NewlinesSeparate();
    if stripped != "" {
      TokensSplit(OPENING, "\n\n", stripped + "\n\n" + CLOSING);
      TokensSplit(stripped, "\n\n", CLOSING);
      assert MockBody(context) == OPENING + "\n\n" + (stripped + "\n\n" + CLOSING);
    } else {
      NoTokens();
    }
  }

  lemma NoTokens()
    ensures Tokens("") == []
  {}

  lemma NewlinesSeparate()
    ensures Separates("\n\n") && Separates(" ")
  {
    SpaceSeparates("\n\n");
    SpaceSeparates(" ");
  }

  /** Joined by blanks or by empty lines, the contents have the same tokens, and the offline draft has them all. */
  lemma MockDraftCovers(contents: seq<string>)
    ensures Tokens(Join(contents, " ")) == Tokens(Join(contents, "\n\n")) == Flatten(TokenLists(contents))
    ensures TokenSet(Join(contents, " ")) <= TokenSet(MockBody(Join(contents, "\n\n")))
  {
    hide Tokens;
    NewlinesSeparate();
    TokensJoin(contents, " ");
    TokensJoin(contents, "\n\n");
    MockBodyTokens(Join(contents, "\n\n"));
  }

  /** The offline token counts: each text around a blank adds its tokens, the system text too, and the context to the answer. */
  lemma OfflineTokenCounts(a: string, b: string, system: string, context: string)
    ensures var r := MockComplete(a + " " + b, system, context).value;
            && r.promptTokens == |Tokens(a)| + |Tokens(b)| + |Tokens(system)|
            && r.completionTokens == |Tokens(r.text)|
            && (Tokens(context) != [] ==>
                  r.completionTokens == |Tokens("Based on our documentation:")| + |Tokens(context)|
                                        + |Tokens("Please let us know if this resolves your issue.")|)
  {
    hide Tokens;
    NewlinesSeparate();
    TokensSplit(a, " ", b);
    MockBodyTokens(context);
  }

  predicate HasToken(content: string) { Tokens(content) != [] }

  lemma {:induction false} SomeToken(contents: seq<string>)
    ensures Flatten(TokenLists(contents)) != [] <==> exists i :: 0 <= i < |contents| && HasToken(contents[i])
  {
    if contents != [] {
      SomeToken(contents[1..]);
      assert forall i | 1 <= i < |contents| :: contents[i] == contents[1..][i - 1];
    }
  }

  ghost predicate Grounded(refs: seq<RetrievedRef>) {
    exists i :: 0 <= i < |refs| && HasToken(refs[i].content)
  }

  /** Under the offline model the confidence is half the top score, plus a half if any retrieved text has a token. */
  lemma MockConfidence(refs: seq<RetrievedRef>)
    requires refs != []
    ensures var c := RoundTo(0.5 * TopScore(refs) + (if Grounded(refs) then 0.5 else 0.0), SIX_DECIMALS);
            Confidence(refs, MockBody(Join(Contents(refs), "\n\n"))) == if c <= 1.0 then c else 1.0
  {
    hide Tokens, RoundTo, MockBody;
    var contents := Contents(refs);
    var context, draft := TokenSet(Join(contents, " ")), TokenSet(MockBody(Join(contents, "\n\n")));
    MockDraftCovers(contents);
    SomeToken(contents);
    OverlapRange(context, draft);
    var all := Tokens(Join(contents, " "));
    if all != [] {
      assert all[0] in context;
    }
    assert context == {} <==> !Grounded(refs);
  }

  /**
   * The thresholds that tell grounded tickets from others: a score just above the similarity threshold passes with a
   * covered context and no score passes without, unless nothing can be retrieved at all.
   */
  predicate Separating(cfg: Settings) {
    && cfg.confidenceThreshold > 0.0
    && (|| cfg.topK == 0 || cfg.similarityThreshold > 1.0
        || (cfg.confidenceThreshold > 0.5 && RoundTo(0.5 * LowestScore(cfg) + 0.5, SIX_DECIMALS) >= cfg.confidenceThreshold))
  }

  /** On the six-decimal grid, a similarity threshold of at least twice the confidence threshold less one separates. */
  lemma GridSeparates(cfg: Settings)
    requires OnGrid(cfg.confidenceThreshold, SIX_DECIMALS) && OnGrid(cfg.similarityThreshold, SIX_DECIMALS)
    requires 0.5 < cfg.confidenceThreshold && cfg.similarityThreshold >= 2.0 * cfg.confidenceThreshold - 1.0
    ensures Separating(cfg)
  {
    hide RoundTo, OnGrid;
    RoundFixesGrid(cfg.similarityThreshold, SIX_DECIMALS);
    RoundFixesGrid(cfg.confidenceThreshold, SIX_DECIMALS);
    RoundMono(cfg.confidenceThreshold, 0.5 * cfg.similarityThreshold + 0.5, SIX_DECIMALS);
  }

  lemma DefaultsSeparate(cfg: Settings)
    requires cfg.confidenceThreshold == 0.7 && cfg.similarityThreshold == 0.5
    ensures Separating(cfg)
  {
    GridSeparates(cfg);
  }

  /** The offline run of a ticket, which cannot fail. */
  function MockRun(cfg: Settings, chunks: seq<Chunk>, org: OrgId, title: string, description: string): AgentState
    requires cfg.embedder.dim > 0
  {
    match RunWorkflow(cfg, chunks, MockComplete, org, title, description)
    case Ok(st) => st
    case Err(_) => Initial(org, title, description)
  }

  lemma MockRunIsRun(cfg: Settings, chunks: seq<Chunk>, org: OrgId, title: string, description: string)
    requires cfg.embedder.dim > 0
    ensures var st := MockRun(cfg, chunks, org, title, description);
            && RunWorkflow(cfg, chunks, MockComplete, org, title, description) == Ok(st)
            && st.outcome == Decide(cfg, Confidence(st.retrieved, MockBody(Join(Contents(st.retrieved), "\n\n"))))
            && st.retrieved == RetrieverNode(cfg, chunks, Initial(org, title, description)).retrieved
  {
    hide Rank, Search, Tokens, Embedder.Embed, Confidence, Join;
  }

  lemma ThresholdArithmetic(top: real, low: real, confThr: real, grounded: bool)
    requires confThr > 0.5 && RoundTo(0.5 * low + 0.5, SIX_DECIMALS) >= confThr
    requires low <= top <= 1.0
    ensures var c := RoundTo(0.5 * top + (if grounded then 0.5 else 0.0), SIX_DECIMALS);
            (if c <= 1.0 then c else 1.0) >= confThr <==> grounded
  {
    hide RoundTo;
    RoundEnds();
    if grounded {
      RoundMono(0.5 * low + 0.5, 0.5 * top + 0.5, SIX_DECIMALS);
      RoundMono(0.5 * top + 0.5, 1.0, SIX_DECIMALS);
    } else {
      RoundMono(0.5 * top + 0.0, 0.5, SIX_DECIMALS);
    }
  }

  /** End to end: a ticket reaches a human approver exactly when some retrieved chunk has a token; otherwise it escalates. */
  lemma ApprovalIffGrounded(cfg: Settings, chunks: seq<Chunk>, org: OrgId, title: string, description: string)
    requires cfg.embedder.dim > 0 && IsSqrt(cfg.embedder.sqrt) && Separating(cfg)
    ensures var st := MockRun(cfg, chunks, org, title, description);
            st.outcome == ToApproval <==> Grounded(st.retrieved)
  {
    hide Rank, Search, Tokens, Embedder.Embed, RoundTo, MockBody, RunWorkflow, MockRun, LowestScore;
    MockRunIsRun(cfg, chunks, org, title, description);
    ScoresInRange(cfg, chunks, Initial(org, title, description));
    var refs := MockRun(cfg, chunks, org, title, description).retrieved;
    if refs != [] {
      MockConfidence(refs);
      ThresholdArithmetic(TopScore(refs), LowestScore(cfg), cfg.confidenceThreshold, Grounded(refs));
    }
  }

  /** Rows with a score at or above the threshold. */
  ghost predicate Relevant(cfg: Settings, chunks: seq<Chunk>, org: OrgId, query: string)
    requires cfg.embedder.dim > 0
  {
    exists c | c in chunks ::
      c.org == org && Cosine(cfg.embedder.sqrt, cfg.embedder.Embed(query), c.embedding) >= cfg.similarityThreshold
  }

  /** Something is retrieved exactly when the organisation has a relevant row. */
  lemma RetrievedIffRelevant(cfg: Settings, chunks: seq<Chunk>, org: OrgId, query: string)
    requires cfg.embedder.dim > 0 && cfg.topK >= 1
    ensures Search(cfg.embedder, chunks, org, query, cfg.similarityThreshold, cfg.topK) != [] <==> Relevant(cfg, chunks, org, query)
  {
    var e, own := cfg.embedder, Filter(chunks, InOrg(org));
    var scored := ScoreAll(e.sqrt, e.Embed(query), own);
    var hits := Search(e, chunks, org, query, cfg.similarityThreshold, cfg.topK);
    RankSound(scored, cfg.similarityThreshold, cfg.topK);
    if hits != [] {
      assert hits[0] in hits;
      var k :| 0 <= k < |scored| && scored[k] == hits[0];
      assert own[k] in own;
    }
    if Relevant(cfg, chunks, org, query) {
      var c :| c in chunks && c.org == org && Cosine(e.sqrt, e.Embed(query), c.embedding) >= cfg.similarityThreshold;
      assert c in own;
      var k :| 0 <= k < |own| && own[k] == c;
      assert scored[k] in scored;
      RankOmits(scored, cfg.similarityThreshold, cfg.topK, scored[k]);
    }
  }

  /** When every chunk of the organisation has a token, the ticket reaches an approver exactly when some row is relevant. */
  lemma ApprovalIffRelevant(cfg: Settings, chunks: seq<Chunk>, org: OrgId, title: string, description: string)
    requires cfg.embedder.dim > 0 && IsSqrt(cfg.embedder.sqrt) && Separating(cfg) && cfg.topK >= 1
    requires forall c | c in chunks && c.org == org :: HasToken(c.content)
    ensures MockRun(cfg, chunks, org, title, description).outcome == ToApproval
            <==> Relevant(cfg, chunks, org, title + " " + description)
  {
    hide Rank, Search, Tokens, HasToken, Embedder.Embed, MockBody, RunWorkflow, Cosine, MockRun, Separating;
    MockRunIsRun(cfg, chunks, org, title, description);
    var e, query := cfg.embedder, title + " " + description;
    ApprovalIffGrounded(cfg, chunks, org, title, description);
    RetrievedIffRelevant(cfg, chunks, org, query);
    var hits := Search(e, chunks, org, query, cfg.similarityThreshold, cfg.topK);
    HitsAreRows(e, chunks, org, query, cfg.similarityThreshold, cfg.topK);
    if hits != [] {
      assert hits[0] in hits;
      assert MockRun(cfg, chunks, org, title, description).retrieved[0].content == hits[0].item.content;
    }
  }

  /** When every stored chunk has a token, more documents never turn an approval into an escalation. */
  lemma MoreDocumentsKeepApproval(cfg: Settings, chunks: seq<Chunk>, more: seq<Chunk>, org: OrgId, title: string, description: string)
    requires cfg.embedder.dim > 0 && IsSqrt(cfg.embedder.sqrt) && Separating(cfg) && cfg.topK >= 1
    requires forall c | c in chunks + more && c.org == org :: HasToken(c.content)
    requires MockRun(cfg, chunks, org, title, description).outcome == ToApproval
    ensures MockRun(cfg, chunks + more, org, title, description).outcome == ToApproval
  {
    hide HasToken, Embedder.Embed, Cosine, MockRun, Separating;
    ApprovalIffRelevant(cfg, chunks, org, title, description);
    ApprovalIffRelevant(cfg, chunks + more, org, title, description);
  }

  /** Search returns rows of the organisation only. */
  lemma HitsAreRows(e: Embedder, chunks: seq<Chunk>, org: OrgId, query: string, threshold: real, topK: int)
    requires e.dim > 0
    ensures forall h | h in Search(e, chunks, org, query, threshold, topK) :: h.item in chunks && h.item.org == org
  {
    var own := Filter(chunks, InOrg(org));
    var scored := ScoreAll(e.sqrt, e.Embed(query), own);
    RankSound(scored, threshold, topK);
    forall h | h in Search(e, chunks, org, query, threshold, topK) ensures h.item in chunks && h.item.org == org {
      var k :| 0 <= k < |scored| && scored[k] == h;
      assert own[k] in own;
    }
  }
}
