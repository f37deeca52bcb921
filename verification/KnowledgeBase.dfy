/** The knowledge base over every run of calls, and the agent's verdict on a stored ticket. */
module KnowledgeBase {
  import opened Sequences
  import opened Text
  import opened RealMath
  import opened Embedding
  import opened Models
  import opened Agent
  import opened Transactions
  import opened History
  import opened Machine
  import opened Guarantees
  import opened Chunking

  // ----- ingestion

  function ChunkOf(d: Id): Chunk -> bool { (c: Chunk) => c.document == d }

  function ChunkTexts(rows: seq<Chunk>): (r: seq<string>)
    ensures |r| == |rows|
    ensures forall i | 0 <= i < |rows| :: r[i] == rows[i].content
  {
    seq(|rows|, i requires 0 <= i < |rows| => rows[i].content)
  }

  /** A stored document: not blank, with its chunk rows numbered from zero, each embedded from its own text. */
  ghost predicate DocumentOk(cfg: Settings, db: Db, d: Id)
    requires cfg.embedder.dim > 0 && d < |db.documents|
  {
    var rows, document := Filter(db.chunks, ChunkOf(d)), db.documents[d];
    && !Blank(document.content)
    && ChunkTexts(rows) == Chunks(document.content, CHUNK_SIZE_WORDS, CHUNK_OVERLAP_WORDS)
    && forall i | 0 <= i < |rows| ::
         rows[i].index == i && rows[i].org == document.org && rows[i].embedding == cfg.embedder.Embed(rows[i].content)
  }

  ghost predicate KnowledgeOk(cfg: Settings, db: Db)
    requires cfg.embedder.dim > 0
  {
    && (forall i | 0 <= i < |db.chunks| :: db.chunks[i].id == i && db.chunks[i].document < |db.documents|)
    && (forall d | 0 <= d < |db.documents| :: DocumentOk(cfg, db, d))
  }

  lemma AddDocumentKeepsKnowledge(cfg: Settings, db: Db, org: OrgId, actor: UserId, title: string, content: string)
    requires cfg.embedder.dim > 0 && KnowledgeOk(cfg, db) && !Blank(content)
    ensures KnowledgeOk(cfg, AddDocument(cfg, db, org, actor, title, content))
  {
    hide Filter, Chunks, Blank, Embedder.Embed;
    var db' := AddDocument(cfg, db, org, actor, title, content);
    var n, contents := |db.documents|, Chunks(content, CHUNK_SIZE_WORDS, CHUNK_OVERLAP_WORDS);
    var rows := ChunkRows(cfg, org, n, |db.chunks|, contents);
    forall d | 0 <= d < |db'.documents| ensures DocumentOk(cfg, db', d) {
      FilterConcat(db.chunks, rows, ChunkOf(d));
      if d < n {
        assert DocumentOk(cfg, db, d);
        FilterNone(rows, ChunkOf(d));
      } else {
        FilterNone(db.chunks, ChunkOf(d));
        FilterAll(rows, ChunkOf(d));
      }
    }
  }

  /** No other call touches documents or chunks. */
  lemma OthersKeepKnowledge(cfg: Settings, db: Db, step: Step)
    requires cfg.embedder.dim > 0 && !step.AddDocumentStep?
    ensures Apply(cfg, db, step).documents == db.documents && Apply(cfg, db, step).chunks == db.chunks
  {
    hide ExecutePatch, MergeTicket, ApprovePatch, RejectPatch, EditPatch, FindWebhook;
    match step {
      case ExecuteRunStep(r, env) =>
        if r < |db.runs| && db.runs[r].ticket < |db.tickets| {
          var t := db.runs[r].ticket;
          ExecutePatchOk(cfg, db, r, db.tickets[t], env);
          var p := ExecutePatch(cfg, db, r, db.tickets[t], env);
          if p.Ok? {
            CommitSizes(db, p.value);
            AfterRunKeepsKnowledge(cfg, CommitPatch(db, p.value), r, t, PatchEscalates(p.value), env);
          }
        }
      case ApproveStep(_, actor, t, edited, notify) =>
        if t < |db.tickets| {
          ApprovePatchOk(cfg, t, db.tickets[t], actor, edited);
          var p := ApprovePatch(t, db.tickets[t], actor, edited);
          if p.Ok? {
            CommitSizes(db, p.value);
            EnqueueKeeps(cfg, CommitPatch(db, p.value), t, TicketApprovedNotice, notify);
          }
        }
      case RejectStep(_, actor, t, reason) =>
        if t < |db.tickets| { RejectPatchOk(cfg, t, db.tickets[t], actor, reason); }
      case EditDraftStep(_, actor, t, content) =>
        if t < |db.tickets| { EditPatchOk(cfg, t, db.tickets[t], actor, content); }
      case _ =>
    }
  }

  lemma AfterRunKeepsKnowledge(cfg: Settings, db: Db, r: Id, t: Id, escalated: bool, env: RunEnv)
    requires r < |db.runs| && t < |db.tickets|
    ensures var db' := AfterRunCommit(cfg, db, r, t, escalated, env);
            db'.documents == db.documents && db'.chunks == db.chunks
  {
    hide Enqueue;
    EnqueueKeeps(cfg, db, t, TicketEscalatedNotice, env.notify);
  }

  lemma {:induction false} ExecuteKeepsKnowledge(cfg: Settings, db: Db, steps: seq<Step>)
    requires cfg.embedder.dim > 0 && KnowledgeOk(cfg, db)
    ensures KnowledgeOk(cfg, Execute(cfg, db, steps))
    decreases |steps|
  {
    hide KnowledgeOk, AddDocument;
    if steps != [] {
      var next := Apply(cfg, db, steps[0]);
      match steps[0] {
        case AddDocumentStep(org, actor, title, content) =>
          if !Blank(content) { AddDocumentKeepsKnowledge(cfg, db, org, actor, title, content); }
        case _ =>
          OthersKeepKnowledge(cfg, db, steps[0]);
          KnowledgeReads(cfg, db, next);
      }
      ExecuteKeepsKnowledge(cfg, next, steps[1..]);
    }
  }

  lemma KnowledgeReads(cfg: Settings, db: Db, db': Db)
    requires cfg.embedder.dim > 0 && db'.documents == db.documents && db'.chunks == db.chunks
    ensures KnowledgeOk(cfg, db) ==> KnowledgeOk(cfg, db')
  {
    hide Filter, Chunks, Blank, Embedder.Embed;
    if KnowledgeOk(cfg, db) {
      forall d | 0 <= d < |db'.documents| ensures DocumentOk(cfg, db', d) {
        assert DocumentOk(cfg, db, d);
      }
    }
  }

  lemma EmptyKnowledge(cfg: Settings)
    requires cfg.embedder.dim > 0
    ensures KnowledgeOk(cfg, EMPTY_DB)
  {}

  /**
   * After every run of calls each stored document has at least one chunk, numbered from zero, embedded from its own
   * text and owned by the document's organisation, and the chunks read together are the document's words.
   */
  lemma StoredChunksRebuild(cfg: Settings, steps: seq<Step>, d: Id)
    requires cfg.embedder.dim > 0 && d < |Execute(cfg, EMPTY_DB, steps).documents|
    ensures var db := Execute(cfg, EMPTY_DB, steps);
            var rows := Filter(db.chunks, ChunkOf(d));
            && rows != []
            && (forall i | 0 <= i < |rows| ::
                  && rows[i].index == i && rows[i].org == db.documents[d].org
                  && rows[i].embedding == cfg.embedder.Embed(rows[i].content))
            && Rebuild(WordLists(ChunkTexts(rows)), CHUNK_OVERLAP_WORDS) == Words(db.documents[d].content)
  {
    hide Filter, Execute, Chunks, Blank, Embedder.Embed, Rebuild, WordLists, Words;
    EmptyKnowledge(cfg);
    ExecuteKeepsKnowledge(cfg, EMPTY_DB, steps);
    var db := Execute(cfg, EMPTY_DB, steps);
    assert DocumentOk(cfg, db, d);
    ChunksRebuild(db.documents[d].content, CHUNK_SIZE_WORDS, CHUNK_OVERLAP_WORDS);
    ChunksOfBlank(db.documents[d].content, CHUNK_SIZE_WORDS, CHUNK_OVERLAP_WORDS);
  }

  // ----- the verdict of a run on a stored ticket

  /** Some retrieved chunk of the ticket's organisation has a token. */
  ghost predicate TicketGrounded(cfg: Settings, db: Db, t: Id)
    requires cfg.embedder.dim > 0 && t < |db.tickets|
  {
    Grounded(MockRun(cfg, db.chunks, db.tickets[t].org, db.tickets[t].title, db.tickets[t].description).retrieved)
  }

  /** Where an offline run sends a ticket of the given status. */
  function Verdict(status: TicketStatus, grounded: bool): TicketStatus {
    if status in {Approved, Closed} then status else if grounded then WaitingApproval else Escalated
  }

  /**
   * After an offline run without database errors a ticket that was not approved or closed waits for approval exactly
   * when the knowledge base grounds it, and is escalated otherwise, whatever its status was; the run writes history
   * exactly when that changes the status.
   */
  lemma RunVerdict(cfg: Settings, db: Db, r: Id, env: RunEnv)
    requires cfg.embedder.dim > 0 && IsSqrt(cfg.embedder.sqrt) && Separating(cfg)
    requires r < |db.runs| && db.runs[r].ticket < |db.tickets|
    requires env.llm == MockComplete && env.rowFault.None?
    ensures var t := db.runs[r].ticket;
            var db', status := ExecuteRun(cfg, db, r, env), db.tickets[t].status;
            && t < |db'.tickets| && db'.tickets[t].status == Verdict(status, TicketGrounded(cfg, db, t))
            && (db'.events == db.events <==> db'.tickets[t].status == status)
  {
    hide Workflow, Separating, IsSqrt, TicketGrounded, ExecuteRun, CanTransition, Verdict, MockRun;
    var t := db.runs[r].ticket;
    var ticket := db.tickets[t];
    var st := MockRun(cfg, db.chunks, ticket.org, ticket.title, ticket.description);
    GroundedIffApproved(cfg, db, t);
    WorkflowOffline(cfg, db, ticket, env);
    ExecuteRunMoves(cfg, db, r, env);
    VerdictIsTarget(ticket.status, st.outcome);
  }

  lemma WorkflowOffline(cfg: Settings, db: Db, ticket: Ticket, env: RunEnv)
    requires cfg.embedder.dim > 0 && env.llm == MockComplete && env.rowFault.None?
    ensures Workflow(cfg, db, ticket, env) == Ok(MockRun(cfg, db.chunks, ticket.org, ticket.title, ticket.description))
  {
    hide RunWorkflow, MockRun;
    MockRunIsRun(cfg, db.chunks, ticket.org, ticket.title, ticket.description);
  }

  /** What an atomic run does to the status and the history of its ticket. */
  lemma ExecuteRunMoves(cfg: Settings, db: Db, r: Id, env: RunEnv)
    requires cfg.embedder.dim > 0 && r < |db.runs| && db.runs[r].ticket < |db.tickets|
    requires Workflow(cfg, db, db.tickets[db.runs[r].ticket], env).Ok?
    ensures var t := db.runs[r].ticket;
            var db', status := ExecuteRun(cfg, db, r, env), db.tickets[t].status;
            var to := TargetStatus(Workflow(cfg, db, db.tickets[t], env).value.outcome);
            && t < |db'.tickets|
            && db'.tickets[t].status == (if CanTransition(status, to) then to else status)
            && (db'.events == db.events <==> !CanTransition(status, to))
  {
    hide Workflow, ExecuteRun, CanTransition;
    ExecuteRunIsAtomic(cfg, db, r, env);
  }

  lemma VerdictIsTarget(status: TicketStatus, outcome: Outcome)
    ensures var to := TargetStatus(outcome);
            Verdict(status, outcome == ToApproval) == (if CanTransition(status, to) then to else status)
    ensures CanTransition(status, TargetStatus(outcome)) ==> TargetStatus(outcome) != status
  {}

  lemma GroundedIffApproved(cfg: Settings, db: Db, t: Id)
    requires cfg.embedder.dim > 0 && IsSqrt(cfg.embedder.sqrt) && Separating(cfg) && t < |db.tickets|
    ensures var ticket := db.tickets[t];
            TicketGrounded(cfg, db, t) <==> MockRun(cfg, db.chunks, ticket.org, ticket.title, ticket.description).outcome == ToApproval
  {
    hide Separating, IsSqrt, Grounded, MockRun;
    ApprovalIffGrounded(cfg, db.chunks, db.tickets[t].org, db.tickets[t].title, db.tickets[t].description);
  }

  /** The same verdict read off the stored rows, when every chunk of the organisation has a token. */
  lemma VerdictByRelevance(cfg: Settings, db: Db, r: Id, env: RunEnv)
    requires cfg.embedder.dim > 0 && IsSqrt(cfg.embedder.sqrt) && Separating(cfg) && cfg.topK >= 1
    requires r < |db.runs| && db.runs[r].ticket < |db.tickets|
    requires env.llm == MockComplete && env.rowFault.None?
    requires forall c | c in db.chunks && c.org == db.tickets[db.runs[r].ticket].org :: HasToken(c.content)
    ensures var t := db.runs[r].ticket;
            var db', ticket := ExecuteRun(cfg, db, r, env), db.tickets[t];
            && t < |db'.tickets|
            && db'.tickets[t].status
               == Verdict(ticket.status, Relevant(cfg, db.chunks, ticket.org, ticket.title + " " + ticket.description))
  {
    hide Separating, IsSqrt, HasToken, Relevant, ExecuteRun, Verdict, MockRun, TicketGrounded;
    var t := db.runs[r].ticket;
    RunVerdict(cfg, db, r, env);
    GroundedIffApproved(cfg, db, t);
    ApprovalIffRelevant(cfg, db.chunks, db.tickets[t].org, db.tickets[t].title, db.tickets[t].description);
  }

  lemma ChunksGrow(cfg: Settings, db: Db, step: Step)
    requires cfg.embedder.dim > 0 && step.AddDocumentStep?
    ensures db.chunks <= Apply(cfg, db, step).chunks && Apply(cfg, db, step).tickets == db.tickets
  {
    hide Chunks, Embedder.Embed, Blank;
  }

  /** When every chunk of the organisation has a token, ingesting a document never takes a ticket's approval away. */
  lemma IngestionKeepsApproval(cfg: Settings, db: Db, step: Step, t: Id)
    requires cfg.embedder.dim > 0 && IsSqrt(cfg.embedder.sqrt) && Separating(cfg) && cfg.topK >= 1
    requires step.AddDocumentStep? && t < |db.tickets|
    requires forall c | c in Apply(cfg, db, step).chunks && c.org == db.tickets[t].org :: HasToken(c.content)
    requires TicketGrounded(cfg, db, t)
    ensures t < |Apply(cfg, db, step).tickets| && TicketGrounded(cfg, Apply(cfg, db, step), t)
  {
    hide Apply, Separating, IsSqrt, TicketGrounded, HasToken, MockRun;
    ChunksGrow(cfg, db, step);
    var ticket, all := db.tickets[t], Apply(cfg, db, step).chunks;
    var more := all[|db.chunks|..];
    assert all == db.chunks + more;
    GroundedIffApproved(cfg, db, t);
    GroundedIffApproved(cfg, Apply(cfg, db, step), t);
    MoreDocumentsKeepApproval(cfg, db.chunks, more, ticket.org, ticket.title, ticket.description);
  }
}
