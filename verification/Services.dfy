/**
 * The services as they run: a session with a working copy, rows assigned one by one, explicit commit and rollback.
 * Each call is proved to leave the committed database that Transactions.Apply describes.
 */
module Services {
  import opened Text
  import opened Models
  import opened Agent
  import opened Embedding
  import opened Transactions
  import Chunking

  class Session {
    var committed: Db
    var work: Db

    constructor (db: Db)
      ensures committed == db && Clean()
    {
      committed, work := db, db;
    }

    predicate Clean()
      reads this
    {
      work == committed
    }

    method Commit()
      modifies this
      ensures committed == work == old(work)
    {
      committed := work;
    }

    method Rollback()
      modifies this
      ensures work == committed == old(committed)
    {
      work := committed;
    }

    /** Assigns a ticket row in the working copy. */
    method SetTicket(t: Id, row: Ticket)
      requires t < |work.tickets|
      modifies this`work
      ensures work == old(work).(tickets := old(work.tickets)[t := row])
    {
      work := work.(tickets := work.tickets[t := row]);
    }

    method SetRun(r: Id, row: AgentRun)
      requires r < |work.runs|
      modifies this`work
      ensures work == old(work).(runs := old(work.runs)[r := row])
    {
      work := work.(runs := work.runs[r := row]);
    }

    method AddEvent(event: TicketEvent)
      modifies this`work
      ensures work == old(work).(events := old(work.events) + [event])
    {
      work := work.(events := work.events + [event]);
    }
  }

  // ----- audit_service

  method Record(db: Session, row: AuditLog, commit: bool)
    modifies db
    ensures db.work == old(db.work).(audit := old(db.work.audit) + [row])
    ensures db.committed == if commit then db.work else old(db.committed)
  {
    db.work := db.work.(audit := db.work.audit + [row]);
    if commit {
      db.Commit();
    }
  }

  // ----- webhook_service

  method UpsertWebhook(db: Session, org: OrgId, url: string, secret: string, isActive: bool)
    requires db.Clean()
    modifies db
    ensures db.committed == UpsertConfig(old(db.committed), org, url, secret, isActive) && db.Clean()
  {
    match FindWebhook(db.work.webhooks, org) {
      case None =>
        db.work := db.work.(webhooks := db.work.webhooks + [Webhook(org, url, secret, isActive)]);
      case Some(w) =>
        db.work := db.work.(webhooks := db.work.webhooks[w := db.work.webhooks[w].(url := url)]);
        db.work := db.work.(webhooks := db.work.webhooks[w := db.work.webhooks[w].(secret := secret)]);
        db.work := db.work.(webhooks := db.work.webhooks[w := db.work.webhooks[w].(isActive := isActive)]);
    }
    db.Commit();
  }

  method Deliver(cfg: Settings, db: Session, id: Id, response: Response) returns (success: bool)
    requires db.Clean()
    modifies db
    ensures (db.committed, success) == DeliverOnce(cfg, old(db.committed), id, response) && db.Clean()
  {
    if id >= |db.work.deliveries| {
      return false;
    }
    var row := db.work.deliveries[id];
    if row.webhook >= |db.work.webhooks| {
      return false;
    }
    row := row.(attempts := row.attempts + 1);
    match response {
      case HttpStatus(code) =>
        row := row.(lastStatusCode := Some(code));
        success := 200 <= code < 300;
      case NetworkError(message) =>
        row := row.(lastError := Some(message));
        success := false;
    }
    if success {
      row := row.(status := Success);
      Record(db, SentAudit(id, row), false);
    } else if row.attempts >= cfg.maxRetries {
      row := row.(status := Undelivered);
    }
    db.work := db.work.(deliveries := db.work.deliveries[id := row]);
    db.Commit();
    assert old(db.work).audit + [] == old(db.work).audit;
  }

  method EnqueueForTicket(cfg: Settings, db: Session, t: Id, event: NoticeKind, env: NotifyEnv) returns (error: Option<Error>)
    requires db.Clean() && t < |db.committed.tickets|
    modifies db
    ensures (db.committed, error) == Enqueue(cfg, old(db.committed), t, event, env) && db.Clean()
  {
    if env.fault.BeforeInsert? {
      return Some(Fault(env.fault.message));
    }
    var ticket := db.work.tickets[t];
    var webhook := FindWebhook(db.work.webhooks, ticket.org);
    if webhook.None? || !db.work.webhooks[webhook.value].isActive {
      return None;
    }
    var id := |db.work.deliveries|;
    var blank := Payload(event, id, ticket.org, t, "", New, Low, None);
    var row := Delivery(webhook.value, ticket.org, event, blank, Pending, 0, None, None);
    db.work := db.work.(deliveries := db.work.deliveries + [row]);
    row := row.(payload := TicketPayload(t, ticket, event, id));
    db.work := db.work.(deliveries := db.work.deliveries[id := row]);
    assert db.work.deliveries == old(db.work).deliveries + [row];
    db.Commit();
    if env.fault.AfterInsert? {
      return Some(Fault(env.fault.message));
    }
    if cfg.dispatchEnabled && cfg.deliveryEager {
      var _ := Deliver(cfg, db, id, env.response);
    }
    return None;
  }

  // ----- ticket_service

  method Create(db: Session, org: OrgId, actor: UserId, title: string, description: string, priority: Priority) returns (t: Id)
    requires db.Clean()
    modifies db
    ensures db.committed == CreateTicket(old(db.committed), org, actor, title, description, priority) && db.Clean()
    ensures t == |old(db.committed.tickets)|
  {
    t := |db.work.tickets|;
    db.work := db.work.(tickets := db.work.tickets + [Ticket(org, title, description, priority, New, None, None, None, None, actor)]);
    db.AddEvent(TicketEvent(t, org, CreatedEvent, None, Some(New), Some(actor), NoMessage));
    Record(db, AuditLog(TicketCreated, org, Some(actor), OnTicket(t), NoMeta), false);
    db.Commit();
  }

  /** Validates and applies a status change; the caller owns the transaction. */
  method Transition(db: Session, t: Id, to: TicketStatus, actor: Option<UserId>, kind: EventKind, message: Message)
    returns (error: Option<Error>)
    requires t < |db.work.tickets|
    modifies db
    ensures db.committed == old(db.committed)
    ensures var row := old(db.work.tickets[t]);
            if CanTransition(row.status, to) then
              && error == None
              && db.work == old(db.work).(tickets := old(db.work.tickets)[t := row.(status := to)],
                                          events := old(db.work.events) + [StatusEvent(t, row, to, actor, kind, message)])
            else
              error == Some(InvalidTransition(row.status, to)) && db.work == old(db.work)
  {
    var row := db.work.tickets[t];
    if !CanTransition(row.status, to) {
      return Some(InvalidTransition(row.status, to));
    }
    var from := row.status;
    db.SetTicket(t, row.(status := to));
    db.AddEvent(TicketEvent(t, row.org, kind, Some(from), Some(to), actor, message));
    return None;
  }

  /** Assigns the final response before the transition is checked; a failed check leaves it in the working copy only. */
  method ApproveTicket(cfg: Settings, db: Session, t: Id, actor: UserId, edited: Option<string>, notify: NotifyEnv)
    returns (error: Option<Error>)
    requires db.Clean() && t < |db.committed.tickets|
    modifies db
    ensures db.committed == Approve(cfg, old(db.committed), t, actor, edited, notify)
    ensures var p := ApprovePatch(t, old(db.committed.tickets[t]), actor, edited);
            p.Err? ==> error == Some(p.error)
    ensures var row := old(db.committed.tickets[t]);
            !Blank(FinalText(row, edited)) && !CanTransition(row.status, Approved)
            ==> db.work == old(db.work).(tickets := old(db.work.tickets)[t := row.(final := Some(FinalText(row, edited)))])
    ensures error == None ==> db.Clean() && db.committed.tickets[t].status == Approved
  {
    var row := db.work.tickets[t];
    var final := FinalText(row, edited);
    if Blank(final) {
      return Some(EmptyResponse);
    }
    db.SetTicket(t, row.(final := Some(final)));
    error := Transition(db, t, Approved, Some(actor), ApprovedEvent, ResponseApproved(edited.Some?));
    if error.Some? {
      return;
    }
    Record(db, AuditLog(ResponseApprovedAudit, row.org, Some(actor), OnTicket(t), EditedMeta(edited.Some?)), false);
    db.Commit();
    assert db.committed == CommitPatch(old(db.committed), ApprovePatch(t, row, actor, edited).value);
    error := EnqueueForTicket(cfg, db, t, TicketApprovedNotice, notify);
  }

  method RejectTicket(db: Session, t: Id, actor: UserId, reason: Option<string>) returns (error: Option<Error>)
    requires db.Clean() && t < |db.committed.tickets|
    modifies db
    ensures var p := RejectPatch(t, old(db.committed.tickets[t]), actor, reason);
            && db.committed == CommitIfOk(old(db.committed), p) && db.Clean()
            && error == (match p case Ok(_) => None case Err(e) => Some(e))
  {
    var row := db.work.tickets[t];
    error := Transition(db, t, Rejected, Some(actor), RejectedEvent, Reason(reason));
    if error.Some? {
      return;
    }
    Record(db, AuditLog(ResponseRejectedAudit, row.org, Some(actor), OnTicket(t), ReasonMeta(reason)), false);
    db.Commit();
  }

  method EditDraft(db: Session, t: Id, actor: UserId, content: string) returns (error: Option<Error>)
    requires db.Clean() && t < |db.committed.tickets|
    modifies db
    ensures var p := EditPatch(t, old(db.committed.tickets[t]), actor, content);
            && db.committed == CommitIfOk(old(db.committed), p) && db.Clean()
            && error == (match p case Ok(_) => None case Err(e) => Some(e))
  {
    if Blank(content) {
      return Some(EmptyResponse);
    }
    var row := db.work.tickets[t];
    db.SetTicket(t, row.(draft := Some(content)));
    db.AddEvent(TicketEvent(t, row.org, EditedEvent, None, None, Some(actor), DraftEdited));
    db.Commit();
    return None;
  }

  // ----- agent_run_service

  method StartAgentRun(db: Session, t: Id, actor: Option<UserId>) returns (r: Id)
    requires db.Clean() && t < |db.committed.tickets|
    modifies db
    ensures db.committed == StartRun(old(db.committed), t, actor) && db.Clean()
    ensures r == |old(db.committed.runs)|
  {
    var org := db.work.tickets[t].org;
    r := |db.work.runs|;
    db.work := db.work.(runs := db.work.runs
      + [AgentRun(t, org, Running, None, [], false, None, None, None, 0, 0, None, None, None)]);
    Record(db, AuditLog(AgentRunStarted, org, actor, OnTicket(t), RunMeta(r)), false);
    db.Commit();
  }

  /** The run columns that the workflow result fills, before the outcome is known to be legal. */
  method AssignRun(db: Session, r: Id, st: AgentState, env: RunEnv) returns (run: AgentRun)
    requires r < |db.work.runs|
    modifies db`work
    ensures db.work == old(db.work).(runs := old(db.work.runs)[r := run])
    ensures run.(outcome := Some(st.outcome), status := Completed) == FinishedRun(old(db.work.runs[r]), st, env.latencyMs, env.cost)
  {
    hide ChunkIds;
    run := db.work.runs[r];
    run := run.(classification := match st.classification case Some(c) => Some(c.kind) case None => None);
    run := run.(chunkIds := ChunkIds(st.retrieved), retrievalHit := st.retrievalHit);
    run := run.(draft := st.draft, confidence := Some(st.confidence));
    run := run.(promptTokens := st.promptTokens, completionTokens := st.completionTokens);
    run := run.(cost := Some(env.cost), latencyMs := Some(env.latencyMs));
    db.SetRun(r, run);
  }

  /** The outcome column, the checked transition, and the audit row of an escalation. */
  method RecordOutcome(db: Session, r: Id, t: Id, ticket: Ticket, st: AgentState) returns (error: Option<Error>)
    requires r < |db.work.runs| && t < |db.work.tickets|
    modifies db
    ensures db.committed == old(db.committed)
    ensures var to, row := TargetStatus(st.outcome), old(db.work.tickets[t]);
            if CanTransition(row.status, to) then
              && error == None
              && db.work == old(db.work).(
                   runs := old(db.work.runs)[r := old(db.work.runs[r]).(outcome := Some(st.outcome))],
                   tickets := old(db.work.tickets)[t := row.(status := to)],
                   events := old(db.work.events) + [StatusEvent(t, row, to, None, AgentRunEvent,
                     if st.outcome.ToApproval? then DraftReadyForApproval else LowConfidence)],
                   audit := old(db.work.audit) + if st.outcome.ToHuman?
                     then [AuditLog(TicketEscalated, ticket.org, None, OnTicket(t), ConfidenceMeta(st.confidence))] else [])
            else error == Some(InvalidTransition(row.status, to))
  {
    var run := db.work.runs[r];
    match st.outcome {
      case ToApproval =>
        db.SetRun(r, run.(outcome := Some(ToApproval)));
        error := Transition(db, t, WaitingApproval, None, AgentRunEvent, DraftReadyForApproval);
        assert old(db.work).audit + [] == old(db.work).audit;
      case ToHuman =>
        db.SetRun(r, run.(outcome := Some(ToHuman)));
        error := Transition(db, t, Escalated, None, AgentRunEvent, LowConfidence);
        if error == None {
          Record(db, AuditLog(TicketEscalated, ticket.org, None, OnTicket(t), ConfidenceMeta(st.confidence)), false);
        }
    }
  }

  /** The body of the try block: run columns, audit rows and draft first, then the checked transition, then the commit. */
  method RunToCommit(cfg: Settings, db: Session, r: Id, t: Id, env: RunEnv) returns (error: Option<Error>, escalated: bool)
    requires cfg.embedder.dim > 0 && db.Clean()
    requires r < |db.committed.runs| && t == db.committed.runs[r].ticket < |db.committed.tickets|
    modifies db
    ensures match ExecutePatch(cfg, old(db.committed), r, old(db.committed.tickets[t]), env)
            case Err(e) => error == Some(e) && db.committed == old(db.committed)
            case Ok(p) => error == None && escalated == PatchEscalates(p) && p.ticket == t && p.run.run == r
                          && db.committed == CommitPatch(old(db.committed), p) && db.Clean()
  {
    hide RunWorkflow, FinishedRun, Suggested;
    var ticket := db.work.tickets[t];
    var result := RunWorkflow(cfg, db.work.chunks, env.llm, ticket.org, ticket.title, ticket.description);
    if result.Err? {
      return Some(result.error), false;
    }
    var st := result.value;
    var run := AssignRun(db, r, st, env);
    Record(db, AuditLog(RetrievalCompleted, ticket.org, None, OnTicket(t), RetrievalMeta(|st.retrieved|, st.retrievalHit)), false);
    Record(db, AuditLog(DraftGenerated, ticket.org, None, OnTicket(t), ConfidenceMeta(st.confidence)), false);
    if env.rowFault.Some? {
      return Some(Fault(env.rowFault.value)), false;
    }
    SuggestedKeeps(ticket, st);
    db.SetTicket(t, Suggested(ticket, st));
    error := RecordOutcome(db, r, t, ticket, st);
    if error.Some? {
      return error, false;
    }
    escalated := st.outcome.ToHuman?;
    db.SetRun(r, db.work.runs[r].(status := Completed));
    db.Commit();
    ghost var start := old(db.committed);
    ghost var p := RunPatch(t, ticket, r, start.runs[r], st, env.latencyMs, env.cost).value;
    assert db.committed.audit == start.audit + p.audits;
    MergeLoaded(ticket, p.row);
    assert db.committed.tickets == start.tickets[t := p.row];
    assert db.committed.runs == start.runs[r := FinishedRun(start.runs[r], st, env.latencyMs, env.cost)];
  }

  lemma SuggestedKeeps(loaded: Ticket, st: AgentState)
    ensures Suggested(loaded, st).status == loaded.status && Suggested(loaded, st).org == loaded.org
    ensures Suggested(loaded, st) == loaded.(suggestedType := Suggested(loaded, st).suggestedType,
              suggestedPriority := Suggested(loaded, st).suggestedPriority, draft := Suggested(loaded, st).draft)
  {}

  /** On the row it loaded, a transaction writes what it assigned. */
  lemma MergeLoaded(loaded: Ticket, written: Ticket)
    requires written == loaded.(status := written.status, suggestedType := written.suggestedType,
               suggestedPriority := written.suggestedPriority, draft := written.draft, final := written.final)
    ensures MergeTicket(loaded, loaded, written) == written
  {}

  method MarkFailed(db: Session, r: Id, error: Error)
    requires db.Clean() && r < |db.committed.runs|
    modifies db
    ensures db.committed == FailRun(old(db.committed), r, error) && db.Clean()
  {
    var run := db.work.runs[r];
    run := run.(status := Failed);
    run := run.(error := Some(error));
    db.SetRun(r, run);
    db.Commit();
  }

  /** What follows the main commit: refresh, and the webhook of an escalation. */
  method AfterCommit(cfg: Settings, db: Session, r: Id, t: Id, escalated: bool, env: RunEnv) returns (error: Option<Error>)
    requires db.Clean() && r < |db.committed.runs| && t < |db.committed.tickets|
    modifies db
    ensures db.Clean() && |db.committed.runs| == |old(db.committed.runs)|
    ensures AfterRunCommit(cfg, old(db.committed), r, t, escalated, env)
         == if error.Some? then FailRun(db.committed, r, error.value) else db.committed
  {
    if env.refreshFault.Some? {
      return Some(Fault(env.refreshFault.value));
    }
    error := None;
    if escalated {
      EnqueueKeeps(cfg, db.committed, t, TicketEscalatedNotice, env.notify);
      error := EnqueueForTicket(cfg, db, t, TicketEscalatedNotice, env.notify);
    }
  }

  method ExecuteAgentRun(cfg: Settings, db: Session, r: Id, env: RunEnv) returns (error: Option<Error>)
    requires cfg.embedder.dim > 0 && db.Clean()
    modifies db
    ensures db.committed == ExecuteRun(cfg, old(db.committed), r, env) && db.Clean()
  {
    hide ExecutePatch, MergeTicket, Enqueue, FailRun, AfterRunCommit;
    if r >= |db.work.runs| {
      return Some(RunNotFound);
    }
    var t := db.work.runs[r].ticket;
    if t >= |db.work.tickets| {
      return Some(TicketNotFound);
    }
    var escalated;
    error, escalated := RunToCommit(cfg, db, r, t, env);
    if error == None {
      error := AfterCommit(cfg, db, r, t, escalated, env);
    }
    if error.Some? {
      db.Rollback();
      MarkFailed(db, r, error.value);
    }
  }

  // ----- document_service

  method CreateDocument(cfg: Settings, db: Session, org: OrgId, actor: UserId, title: string, content: string) returns (count: nat)
    requires cfg.embedder.dim > 0 && db.Clean()
    modifies db
    ensures db.committed == AddDocument(cfg, old(db.committed), org, actor, title, content) && db.Clean()
    ensures count == |db.committed.chunks| - |old(db.committed.chunks)|
  {
    var document := |db.work.documents|;
    db.work := db.work.(documents := db.work.documents + [Document(org, title, content, actor)]);
    var contents, _ := Chunking.ChunkText(content, Chunking.CHUNK_SIZE_WORDS, Chunking.CHUNK_OVERLAP_WORDS);
    ghost var rows := ChunkRows(cfg, org, document, |db.work.chunks|, contents);
    ghost var before := db.work;
    for idx := 0 to |contents|
      invariant db.committed == old(db.committed)
      invariant db.work == before.(chunks := before.chunks + rows[..idx])
    {
      var vector := EmbedOne(cfg.embedder, contents[idx]);
      var row := Chunk(|db.work.chunks|, org, document, idx, contents[idx], vector);
      assert row == rows[idx];
      assert rows[..idx + 1] == rows[..idx] + [rows[idx]];
      db.work := db.work.(chunks := db.work.chunks + [row]);
    }
    assert rows[..|contents|] == rows;
    db.Commit();
    return |contents|;
  }

  // ----- requests

  /** One request or task with a session of its own: load within the tenant, call the service, roll back on an error. */
  method Handle(cfg: Settings, db: Session, step: Step)
    requires cfg.embedder.dim > 0 && db.Clean()
    modifies db
    ensures db.committed == Apply(cfg, old(db.committed), step) && db.Clean()
  {
    hide CreateTicket, AddDocument, StartRun, ExecuteRun, Approve, CommitIfOk, UpsertConfig, DeliverOnce;
    match step {
      case CreateTicketStep(org, actor, title, description, priority) =>
        var _ := Create(db, org, actor, title, description, priority);
      case AddDocumentStep(org, actor, title, content) =>
        if !Blank(content) {
          var _ := CreateDocument(cfg, db, org, actor, title, content);
        }
      case StartRunStep(org, actor, t) =>
        if Visible(db.work, org, t) && db.work.tickets[t].status != Closed {
          var _ := StartAgentRun(db, t, Some(actor));
        }
      case ExecuteRunStep(r, env) =>
        var _ := ExecuteAgentRun(cfg, db, r, env);
      case ApproveStep(org, actor, t, edited, notify) =>
        if Visible(db.work, org, t) {
          var error := ApproveTicket(cfg, db, t, actor, edited, notify);
          if error.Some? {
            db.Rollback();
          }
        }
      case RejectStep(org, actor, t, reason) =>
        if Visible(db.work, org, t) {
          var _ := RejectTicket(db, t, actor, reason);
        }
      case EditDraftStep(org, actor, t, content) =>
        if Visible(db.work, org, t) {
          var _ := EditDraft(db, t, actor, content);
        }
      case UpsertConfigStep(org, url, secret, isActive) =>
        UpsertWebhook(db, org, url, secret, isActive);
      case DeliverStep(d, response) =>
        var _ := Deliver(cfg, db, d, response);
    }
  }

  /** A whole serial run of calls leaves the database that the specification computes. */
  method Serve(cfg: Settings, db: Session, steps: seq<Step>)
    requires cfg.embedder.dim > 0 && db.Clean()
    modifies db
    ensures db.committed == Execute(cfg, old(db.committed), steps) && db.Clean()
  {
    hide Apply;
    assert steps[0..] == steps;
    for i := 0 to |steps|
      invariant db.Clean()
      invariant Execute(cfg, db.committed, steps[i..]) == Execute(cfg, old(db.committed), steps)
    {
      assert steps[i..][0] == steps[i] && steps[i..][1..] == steps[i + 1..];
      Handle(cfg, db, steps[i]);
    }
  }
}
