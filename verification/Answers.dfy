/** What a run stores of the model's answer, and what a person then approves. */
module Answers {
  import opened Sequences
  import opened Text
  import opened RealMath
  import opened Embedding
  import opened Retrieval
  import opened Models
  import opened Agent
  import opened Transactions
  import opened History
  import opened Machine
  import opened Guarantees
  import opened MetricsService
  import opened Chunking
  import opened KnowledgeBase

  /** The rows that a run on the ticket retrieves. */
  function Hits(cfg: Settings, db: Db, ticket: Ticket): seq<Scored<Chunk>>
    requires cfg.embedder.dim > 0
  {
    Search(cfg.embedder, db.chunks, ticket.org, ticket.title + " " + ticket.description, cfg.similarityThreshold, cfg.topK)
  }

  function HitTexts(hits: seq<Scored<Chunk>>): (r: seq<string>)
    ensures |r| == |hits|
    ensures forall i | 0 <= i < |hits| :: r[i] == hits[i].item.content
  {
    seq(|hits|, i requires 0 <= i < |hits| => hits[i].item.content)
  }

  /** The distinct tokens of some texts. */
  function Vocabulary(texts: seq<string>): set<string> {
    set i, w | 0 <= i < |texts| && w in Tokens(texts[i]) :: w
  }

  /** The critic's value: half the best score and half the share of the retrieved tokens that the text repeats. */
  function Grounding(hits: seq<Scored<Chunk>>, text: string): real {
    if hits == [] then 0.0
    else
      var context, drafted := Vocabulary(HitTexts(hits)), Vocabulary([text]);
      var share := if context == {} then 0.0 else
        assert |context| > 0;
        |context * drafted| as real / |context| as real;
      var value := RoundTo(0.5 * RoundTo(hits[0].score, 1000000.0) + 0.5 * share, 1000000.0);
      if value <= 1.0 then value else 1.0
  }

  // ----- the critic's value read off the hits

  lemma {:induction false} FlattenHas(texts: seq<string>, w: string)
    ensures w in Flatten(TokenLists(texts)) <==> exists i :: 0 <= i < |texts| && w in Tokens(texts[i])
  {
    hide Tokens;
    if texts != [] {
      FlattenHas(texts[1..], w);
      assert forall i | 1 <= i < |texts| :: texts[i] == texts[1..][i - 1];
      if i :| 0 <= i < |texts| && w in Tokens(texts[i]) {
        assert i > 0 ==> w in Tokens(texts[1..][i - 1]);
      }
    }
  }

  lemma JoinedVocabulary(texts: seq<string>, sep: string)
    requires Separates(sep)
    ensures TokenSet(Join(texts, sep)) == Vocabulary(texts)
  {
    hide Tokens;
    TokensJoin(texts, sep);
    forall w ensures w in TokenSet(Join(texts, sep)) <==> w in Vocabulary(texts) {
      FlattenHas(texts, w);
    }
  }

  lemma TopIsFirst(hits: seq<Scored<Chunk>>)
    requires hits != [] && Descending(hits)
    ensures TopScore(References(hits)) == RoundTo(hits[0].score, SIX_DECIMALS)
  {
    hide RoundTo;
    var refs := References(hits);
    var i :| 0 <= i < |refs| && refs[i].score == TopScore(refs);
    assert hits[0].score >= hits[i].score;
    RoundMono(hits[i].score, hits[0].score, SIX_DECIMALS);
    assert refs[0].score <= TopScore(refs);
  }

  lemma ConfidenceIsGrounding(hits: seq<Scored<Chunk>>, text: string)
    requires Descending(hits)
    ensures Confidence(References(hits), text) == Grounding(hits, text)
  {
    hide Tokens, RoundTo, TokenSet;
    if hits != [] {
      var refs := References(hits);
      TopIsFirst(hits);
      NewlinesSeparate();
      assert Contents(refs) == HitTexts(hits);
      JoinedVocabulary(HitTexts(hits), " ");
      JoinedVocabulary([text], " ");
      assert Join([text], " ") == text;
    }
  }

  // ----- what a run stores

  /** The finished state of a workflow, by the model's answer to the ticket and the retrieved texts. */
  lemma WorkflowAnswer(cfg: Settings, db: Db, ticket: Ticket, env: RunEnv)
    requires cfg.embedder.dim > 0
    ensures var hits := Hits(cfg, db, ticket);
            var answer := env.llm(
              "Ticket: " + ticket.title + "\nDetails: " + ticket.description
                + "\nWrite a helpful support reply grounded in the provided context.",
              "You are a careful support agent. Only use the provided context.",
              Join(HitTexts(hits), "\n\n"));
            var w := Workflow(cfg, db, ticket, env);
            if answer.Err? then w == Err(answer.error)
            else if env.rowFault.Some? then w == Err(Fault(env.rowFault.value))
            else
              && w.Ok?
              && w.value.draft == Some(answer.value.text) && w.value.confidence == Grounding(hits, answer.value.text)
              && w.value.promptTokens == answer.value.promptTokens && w.value.completionTokens == answer.value.completionTokens
              && w.value.classification == Some(cfg.classify(ticket.title + " " + ticket.description))
              && |w.value.retrieved| == |hits|
              && (forall i | 0 <= i < |hits| :: w.value.retrieved[i] ==
                    RetrievedRef(hits[i].item.id, hits[i].item.document, hits[i].item.content, RoundTo(hits[i].score, 1000000.0)))
              && (w.value.retrievalHit <==> hits != [])
              && (w.value.outcome == ToApproval <==> w.value.confidence >= cfg.confidenceThreshold)
  {
    hide Tokens, Embedder.Embed, Rank, Confidence, Grounding, Join, Descending;
    var hits := Hits(cfg, db, ticket);
    HitsDescend(cfg, db, ticket);
    assert Contents(References(hits)) == HitTexts(hits);
    PromptText(ticket);
    var answer := env.llm(
      "Ticket: " + ticket.title + "\nDetails: " + ticket.description
        + "\nWrite a helpful support reply grounded in the provided context.",
      "You are a careful support agent. Only use the provided context.",
      Join(HitTexts(hits), "\n\n"));
    if answer.Ok? {
      ConfidenceIsGrounding(hits, answer.value.text);
    }
  }

  lemma PromptText(ticket: Ticket)
    ensures forall st: AgentState | st.title == ticket.title && st.description == ticket.description ::
              Prompt(st) == "Ticket: " + ticket.title + "\nDetails: " + ticket.description
                            + "\nWrite a helpful support reply grounded in the provided context."
  {}

  lemma HitsDescend(cfg: Settings, db: Db, ticket: Ticket)
    requires cfg.embedder.dim > 0
    ensures Descending(Hits(cfg, db, ticket))
  {
    hide Rank, Embedder.Embed, Descending;
    var e, query := cfg.embedder, ticket.title + " " + ticket.description;
    RankSound(ScoreAll(e.sqrt, e.Embed(query), Filter(db.chunks, InOrg(ticket.org))), cfg.similarityThreshold, cfg.topK);
  }

  /**
   * For every model: a run either stores the model's answer to the ticket and the retrieved texts, on the ticket and on
   * the run, with the critic's value for that text and the decision that follows, or it stores why it failed.
   */
  lemma RunStoresAnswer(cfg: Settings, db: Db, r: Id, env: RunEnv)
    requires cfg.embedder.dim > 0 && r < |db.runs| && db.runs[r].ticket < |db.tickets|
    ensures var t := db.runs[r].ticket;
            var ticket, db' := db.tickets[t], ExecuteRun(cfg, db, r, env);
            var hits := Hits(cfg, db, ticket);
            var answer := env.llm(
              "Ticket: " + ticket.title + "\nDetails: " + ticket.description
                + "\nWrite a helpful support reply grounded in the provided context.",
              "You are a careful support agent. Only use the provided context.",
              Join(HitTexts(hits), "\n\n"));
            if answer.Err? then OnlyRunFailed(db, db', r, answer.error)
            else if env.rowFault.Some? then OnlyRunFailed(db, db', r, Fault(env.rowFault.value))
            else
              var confidence := Grounding(hits, answer.value.text);
              var to := if confidence >= cfg.confidenceThreshold then WaitingApproval else Escalated;
              if !CanTransition(ticket.status, to) then OnlyRunFailed(db, db', r, InvalidTransition(ticket.status, to))
              else
                && t < |db'.tickets| && r < |db'.runs|
                && var row, run, suggested := db'.tickets[t], db'.runs[r], cfg.classify(ticket.title + " " + ticket.description);
                && row.status == to && row.draft == run.draft == Some(answer.value.text)
                && run.outcome == Some(if to == WaitingApproval then ToApproval else ToHuman)
                && run.confidence == Some(confidence)
                && run.promptTokens == answer.value.promptTokens && run.completionTokens == answer.value.completionTokens
                && row.suggestedType == run.classification == Some(suggested.kind) && row.suggestedPriority == Some(suggested.priority)
                && |run.chunkIds| == |hits| && (forall i | 0 <= i < |hits| :: run.chunkIds[i] == hits[i].item.id)
                && (run.retrievalHit <==> hits != [])
  {
    hide Workflow, ExecuteRun, Hits, HitTexts, Join, Grounding, CanTransition, Noticed;
    WorkflowAnswer(cfg, db, db.tickets[db.runs[r].ticket], env);
    ExecuteRunIsAtomic(cfg, db, r, env);
  }

  /** A run that completes adds one to the completed runs of its organisation, and to the hits exactly if it retrieved a row. */
  lemma CompletedRunCounts(cfg: Settings, db: Db, r: Id, env: RunEnv)
    requires cfg.embedder.dim > 0 && r < |db.runs| && db.runs[r].ticket < |db.tickets| && db.runs[r].status != Completed
    requires r < |ExecuteRun(cfg, db, r, env).runs| && ExecuteRun(cfg, db, r, env).runs[r].status == Completed
    ensures var db', org := ExecuteRun(cfg, db, r, env), db.runs[r].org;
            var hits := Hits(cfg, db, db.tickets[db.runs[r].ticket]);
            && TotalCompleted(db', org) == TotalCompleted(db, org) + 1
            && |Filter(db'.runs, RunHit(org))| == |Filter(db.runs, RunHit(org))| + (if hits == [] then 0 else 1)
  {
    hide Workflow, ExecuteRun, Hits, HitTexts, Join, Grounding, CanTransition, Noticed, Filter, TotalCompleted;
    WorkflowAnswer(cfg, db, db.tickets[db.runs[r].ticket], env);
    ExecuteRunIsAtomic(cfg, db, r, env);
    var db' := ExecuteRun(cfg, db, r, env);
    CompletionCounts(db, db', r, db'.runs[r]);
  }

  // ----- what a person approves of an offline answer

  /** Joined texts with no white space at their ends have none at theirs. */
  lemma {:induction false} JoinEnds(texts: seq<string>, sep: string)
    requires texts != []
    requires forall x | x in texts :: x != "" && IsGraphic(x[0]) && IsGraphic(x[|x| - 1])
    ensures var j := Join(texts, sep); j != "" && IsGraphic(j[0]) && IsGraphic(j[|j| - 1])
  {
    hide IsGraphic;
    assert texts[0] in texts;
    if |texts| > 1 {
      JoinEnds(texts[1..], sep);
      var rest := Join(texts[1..], sep);
      var j := texts[0] + sep + rest;
      assert j == Join(texts, sep) && j[|j| - 1] == rest[|rest| - 1];
    }
  }

  /** The offline model quotes a context without surrounding white space between its two fixed sentences. */
  lemma OfflineText(prompt: string, system: string, context: string)
    requires context != "" ==> IsGraphic(context[0]) && IsGraphic(context[|context| - 1])
    ensures MockComplete(prompt, system, context).Ok?
    ensures MockComplete(prompt, system, context).value.text
         == if context == "" then "Thank you for reaching out. We are looking into your request and will follow up shortly."
            else "Based on our documentation:" + "\n\n" + context + "\n\n" + "Please let us know if this resolves your issue."
    ensures !Blank(MockComplete(prompt, system, context).value.text)
  {
    hide Tokens, Blank;
    StripExact("", context, "");
    assert "" + context + "" == context;
    var text := MockComplete(prompt, system, context).value.text;
    assert text[|text| - 1] == '.';
    RunsLast(text);
    BlankIffNoWords(text);
  }

  /** Every row that ingestion stores is a text with no white space at its ends. */
  lemma StoredRowsEnd(cfg: Settings, db: Db, c: Chunk)
    requires cfg.embedder.dim > 0 && KnowledgeOk(cfg, db) && c in db.chunks
    ensures c.content != "" && IsGraphic(c.content[0]) && IsGraphic(c.content[|c.content| - 1])
    ensures c.id < |db.chunks| && db.chunks[c.id] == c
  {
    hide Filter, Chunks, Blank, Embedder.Embed, Words, IsGraphic;
    var i :| 0 <= i < |db.chunks| && db.chunks[i] == c;
    var d := c.document;
    assert DocumentOk(cfg, db, d);
    var rows := Filter(db.chunks, ChunkOf(d));
    assert c in rows;
    var k :| 0 <= k < |rows| && rows[k] == c;
    var text := db.documents[d].content;
    assert Chunks(text, CHUNK_SIZE_WORDS, CHUNK_OVERLAP_WORDS)[k] == c.content;
    ChunkIsTidy(text, CHUNK_SIZE_WORDS, CHUNK_OVERLAP_WORDS, k);
  }

  /** The context of a run over stored rows. */
  lemma StoredContext(cfg: Settings, db: Db, ticket: Ticket)
    requires cfg.embedder.dim > 0 && KnowledgeOk(cfg, db)
    ensures var hits := Hits(cfg, db, ticket);
            var context := Join(HitTexts(hits), "\n\n");
            && (context == "" <==> hits == [])
            && (context != "" ==> IsGraphic(context[0]) && IsGraphic(context[|context| - 1]))
            && forall i | 0 <= i < |hits| :: hits[i].item.id < |db.chunks| && db.chunks[hits[i].item.id] == hits[i].item
  {
    hide Hits, Join, KnowledgeOk, IsGraphic;
    var hits := Hits(cfg, db, ticket);
    HitsStored(cfg, db, ticket);
    forall i | 0 <= i < |hits|
      ensures hits[i].item.id < |db.chunks| && db.chunks[hits[i].item.id] == hits[i].item
      ensures var x := HitTexts(hits)[i]; x != "" && IsGraphic(x[0]) && IsGraphic(x[|x| - 1])
    {
      assert hits[i] in hits;
      StoredRowsEnd(cfg, db, hits[i].item);
    }
    if hits != [] {
      JoinEnds(HitTexts(hits), "\n\n");
    } else {
      NoContext();
    }
  }

  lemma NoContext()
    ensures Join([], "\n\n") == ""
  {}

  lemma HitsStored(cfg: Settings, db: Db, ticket: Ticket)
    requires cfg.embedder.dim > 0
    ensures forall h | h in Hits(cfg, db, ticket) :: h.item in db.chunks
  {
    hide Search;
    HitsAreRows(cfg.embedder, db.chunks, ticket.org, ticket.title + " " + ticket.description, cfg.similarityThreshold, cfg.topK);
  }

  /** What the offline model answers to a run over stored rows. */
  function OfflineAnswer(hits: seq<Scored<Chunk>>): string {
    if hits == [] then "Thank you for reaching out. We are looking into your request and will follow up shortly."
    else "Based on our documentation:" + "\n\n" + Join(HitTexts(hits), "\n\n") + "\n\n" + "Please let us know if this resolves your issue."
  }

  lemma AnswerRepeats(hits: seq<Scored<Chunk>>, i: nat)
    requires i < |hits|
    ensures forall w | w in Tokens(hits[i].item.content) :: w in Tokens(OfflineAnswer(hits))
  {
    hide Tokens;
    var context := Join(HitTexts(hits), "\n\n");
    NewlinesSeparate();
    TokensJoin(HitTexts(hits), "\n\n");
    forall w | w in Tokens(HitTexts(hits)[i]) ensures w in Tokens(OfflineAnswer(hits)) {
      FlattenHas(HitTexts(hits), w);
      TokensSplit("Based on our documentation:", "\n\n", context + "\n\n" + CLOSING);
      TokensSplit(context, "\n\n", CLOSING);
      assert OfflineAnswer(hits) == "Based on our documentation:" + "\n\n" + (context + "\n\n" + CLOSING);
    }
  }

  /** An offline run that moves a ticket stores the offline answer, which is not blank, and the chunks it quotes. */
  lemma OfflineDraft(cfg: Settings, db: Db, r: Id, env: RunEnv)
    requires cfg.embedder.dim > 0 && KnowledgeOk(cfg, db) && env.llm == MockComplete
    requires r < |db.runs| && db.runs[r].ticket < |db.tickets|
    ensures var t, db' := db.runs[r].ticket, ExecuteRun(cfg, db, r, env);
            var hits := Hits(cfg, db, db.tickets[t]);
            && t < |db'.tickets| && r < |db'.runs| && !Blank(OfflineAnswer(hits))
            && (db'.tickets[t].status != db.tickets[t].status ==>
                  && db'.tickets[t].draft == Some(OfflineAnswer(hits)) && |db'.runs[r].chunkIds| == |hits|
                  && forall i | 0 <= i < |hits| ::
                       db'.runs[r].chunkIds[i] < |db.chunks| && db.chunks[db'.runs[r].chunkIds[i]] == hits[i].item)
  {
    hide ExecuteRun, Hits, HitTexts, Join, Grounding, CanTransition, Blank, KnowledgeOk, MockComplete, OfflineAnswer;
    var ticket, hits := db.tickets[db.runs[r].ticket], Hits(cfg, db, db.tickets[db.runs[r].ticket]);
    StoredContext(cfg, db, ticket);
    OfflineText("Ticket: " + ticket.title + "\nDetails: " + ticket.description
      + "\nWrite a helpful support reply grounded in the provided context.",
      "You are a careful support agent. Only use the provided context.", Join(HitTexts(hits), "\n\n"));
    OfflineAnswerIs(hits);
    RunStoresAnswer(cfg, db, r, env);
  }

  /**
   * After an offline run that brings a ticket to waiting_approval, an approval without an edit succeeds, and its final
   * response quotes every retrieved chunk: it is the offline answer, and holds every token of each chunk of the run.
   */
  lemma OfflineApproval(cfg: Settings, db: Db, r: Id, env: RunEnv, actor: UserId, notify: NotifyEnv)
    requires cfg.embedder.dim > 0 && KnowledgeOk(cfg, db) && env.llm == MockComplete
    requires r < |db.runs| && db.runs[r].ticket < |db.tickets| && db.tickets[db.runs[r].ticket].status != WaitingApproval
    requires var t, db' := db.runs[r].ticket, ExecuteRun(cfg, db, r, env);
             t < |db'.tickets| && db'.tickets[t].status == WaitingApproval
    ensures var t, db' := db.runs[r].ticket, ExecuteRun(cfg, db, r, env);
            var end := Apply(cfg, db', ApproveStep(db'.tickets[t].org, actor, t, None, notify));
            var hits := Hits(cfg, db, db.tickets[t]);
            && t < |end.tickets| && end.tickets[t].status == Approved
            && end.tickets[t].final == Some(OfflineAnswer(hits))
            && r < |db'.runs| && |db'.runs[r].chunkIds| == |hits|
            && forall i | 0 <= i < |hits| ::
                 var k := db'.runs[r].chunkIds[i];
                 k < |db.chunks| && forall w | w in Tokens(db.chunks[k].content) :: w in Tokens(OfflineAnswer(hits))
  {
    hide ExecuteRun, Hits, CanTransition, Blank, Tokens, KnowledgeOk, MockComplete, Apply, Noticed, OfflineAnswer;
    var t, db' := db.runs[r].ticket, ExecuteRun(cfg, db, r, env);
    OfflineDraft(cfg, db, r, env);
    ApproveDecides(cfg, db', db'.tickets[t].org, actor, t, None, notify);
    forall i | 0 <= i < |Hits(cfg, db, db.tickets[t])|
      ensures forall w | w in Tokens(db.chunks[db'.runs[r].chunkIds[i]].content) :: w in Tokens(OfflineAnswer(Hits(cfg, db, db.tickets[t])))
    {
      AnswerRepeats(Hits(cfg, db, db.tickets[t]), i);
    }
  }

  lemma OfflineAnswerIs(hits: seq<Scored<Chunk>>)
    ensures OfflineAnswer(hits)
         == if hits == [] then "Thank you for reaching out. We are looking into your request and will follow up shortly."
            else "Based on our documentation:" + "\n\n" + Join(HitTexts(hits), "\n\n") + "\n\n"
                 + "Please let us know if this resolves your issue."
  {}
}
