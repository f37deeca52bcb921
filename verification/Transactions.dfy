/**
 * What each database transaction of the services writes, as a function of the rows it loaded.
 * The serial machine commits a transaction on the rows it has just loaded; the interleaved one may find newer rows.
 */
module Transactions {
  import opened Text
  import opened Models
  import opened Agent
  import Chunking

  // ----- committing a ticket transaction

  /** The session writes a column only if the written value differs from the loaded one. */
  function Column<T(==)>(current: T, loaded: T, written: T): T {
    if written == loaded then current else written
  }

  function MergeTicket(current: Ticket, loaded: Ticket, written: Ticket): Ticket {
    current.(
      status := Column(current.status, loaded.status, written.status),
      suggestedType := Column(current.suggestedType, loaded.suggestedType, written.suggestedType),
      suggestedPriority := Column(current.suggestedPriority, loaded.suggestedPriority, written.suggestedPriority),
      draft := Column(current.draft, loaded.draft, written.draft),
      final := Column(current.final, loaded.final, written.final))
  }

  datatype RunWrite = NoRun | WriteRun(run: Id, row: AgentRun)

  /** One transaction on one ticket: the row as loaded and as written, one history event, its audit rows, and a run row. */
  datatype Patch = Patch(
    ticket: Id, loaded: Ticket, row: Ticket, event: TicketEvent, audits: seq<AuditLog>, run: RunWrite)

  predicate Applies(db: Db, p: Patch) {
    p.ticket < |db.tickets| && (p.run.WriteRun? ==> p.run.run < |db.runs|)
  }

  function CommitPatch(db: Db, p: Patch): Db
    requires Applies(db, p)
  {
    db.(tickets := db.tickets[p.ticket := MergeTicket(db.tickets[p.ticket], p.loaded, p.row)],
        events := db.events + [p.event],
        audit := db.audit + p.audits,
        runs := match p.run case NoRun => db.runs case WriteRun(r, row) => db.runs[r := row])
  }

  // ----- ticket_service

  function StatusEvent(t: Id, loaded: Ticket, to: TicketStatus, actor: Option<UserId>, kind: EventKind, message: Message): TicketEvent {
    TicketEvent(t, loaded.org, kind, Some(loaded.status), Some(to), actor, message)
  }

  function TicketAudit(event: AuditEvent, t: Id, loaded: Ticket, actor: Option<UserId>, meta: Meta): AuditLog {
    AuditLog(event, loaded.org, actor, OnTicket(t), meta)
  }

  function FinalText(loaded: Ticket, edited: Option<string>): string {
    match edited
    case Some(s) => s
    case None => match loaded.draft case Some(d) => d case None => ""
  }

  function ApprovePatch(t: Id, loaded: Ticket, actor: UserId, edited: Option<string>): Result<Patch, Error> {
    var final := FinalText(loaded, edited);
    if Blank(final) then Err(EmptyResponse)
    else if !CanTransition(loaded.status, Approved) then Err(InvalidTransition(loaded.status, Approved))
    else Ok(Patch(
      t, loaded, loaded.(final := Some(final), status := Approved),
      StatusEvent(t, loaded, Approved, Some(actor), ApprovedEvent, ResponseApproved(edited.Some?)),
      [TicketAudit(ResponseApprovedAudit, t, loaded, Some(actor), EditedMeta(edited.Some?))],
      NoRun))
  }

  function RejectPatch(t: Id, loaded: Ticket, actor: UserId, reason: Option<string>): Result<Patch, Error> {
    if !CanTransition(loaded.status, Rejected) then Err(InvalidTransition(loaded.status, Rejected))
    else Ok(Patch(
      t, loaded, loaded.(status := Rejected),
      StatusEvent(t, loaded, Rejected, Some(actor), RejectedEvent, Reason(reason)),
      [TicketAudit(ResponseRejectedAudit, t, loaded, Some(actor), ReasonMeta(reason))],
      NoRun))
  }

  function EditPatch(t: Id, loaded: Ticket, actor: UserId, content: string): Result<Patch, Error> {
    if Blank(content) then Err(EmptyResponse)
    else Ok(Patch(
      t, loaded, loaded.(draft := Some(content)),
      TicketEvent(t, loaded.org, EditedEvent, None, None, Some(actor), DraftEdited),
      [], NoRun))
  }

  // ----- agent_run_service

  function TargetStatus(outcome: Outcome): TicketStatus {
    match outcome case ToApproval => WaitingApproval case ToHuman => Escalated
  }

  function ChunkIds(refs: seq<RetrievedRef>): seq<Id> {
    seq(|refs|, i requires 0 <= i < |refs| => refs[i].chunkId)
  }

  function FinishedRun(run: AgentRun, st: AgentState, latencyMs: int, cost: real): AgentRun {
    run.(status := Completed,
         classification := match st.classification case Some(c) => Some(c.kind) case None => None,
         chunkIds := ChunkIds(st.retrieved), retrievalHit := st.retrievalHit, draft := st.draft,
         confidence := Some(st.confidence), outcome := Some(st.outcome),
         promptTokens := st.promptTokens, completionTokens := st.completionTokens,
         latencyMs := Some(latencyMs), cost := Some(cost))
  }

  function Suggested(loaded: Ticket, st: AgentState): Ticket {
    loaded.(
      suggestedType := match st.classification case Some(c) => Some(c.kind) case None => None,
      suggestedPriority := match st.classification case Some(c) => Some(c.priority) case None => None,
      draft := st.draft)
  }

  function RunAudits(t: Id, loaded: Ticket, st: AgentState): seq<AuditLog> {
    [TicketAudit(RetrievalCompleted, t, loaded, None, RetrievalMeta(|st.retrieved|, st.retrievalHit)),
     TicketAudit(DraftGenerated, t, loaded, None, ConfidenceMeta(st.confidence))]
    + if st.outcome.ToHuman? then [TicketAudit(TicketEscalated, t, loaded, None, ConfidenceMeta(st.confidence))] else []
  }

  /** The main transaction of a run whose workflow finished in state st. */
  function RunPatch(t: Id, loaded: Ticket, r: Id, run: AgentRun, st: AgentState, latencyMs: int, cost: real): Result<Patch, Error> {
    var to := TargetStatus(st.outcome);
    if !CanTransition(loaded.status, to) then Err(InvalidTransition(loaded.status, to))
    else Ok(Patch(
      t, loaded, Suggested(loaded, st).(status := to),
      StatusEvent(t, loaded, to, None, AgentRunEvent, if st.outcome.ToApproval? then DraftReadyForApproval else LowConfidence),
      RunAudits(t, loaded, st),
      WriteRun(r, FinishedRun(run, st, latencyMs, cost))))
  }

  function FailRun(db: Db, r: Id, error: Error): Db
    requires r < |db.runs|
  {
    db.(runs := db.runs[r := db.runs[r].(status := Failed, error := Some(error))])
  }

  // ----- webhook_service

  /** What the endpoint answered to one attempt. */
  datatype Response = HttpStatus(code: int) | NetworkError(message: string)

  predicate Delivered(response: Response) { response.HttpStatus? && 200 <= response.code < 300 }

  function FindWebhook(webhooks: seq<Webhook>, org: OrgId): (w: Option<Id>)
    ensures w.Some? ==> w.value < |webhooks| && webhooks[w.value].org == org
    ensures w.None? ==> forall i | 0 <= i < |webhooks| :: webhooks[i].org != org
  {
    if webhooks == [] then None
    else if webhooks[|webhooks| - 1].org == org then Some(|webhooks| - 1)
    else FindWebhook(webhooks[..|webhooks| - 1], org)
  }

  function UpsertConfig(db: Db, org: OrgId, url: string, secret: string, isActive: bool): Db {
    match FindWebhook(db.webhooks, org)
    case None => db.(webhooks := db.webhooks + [Webhook(org, url, secret, isActive)])
    case Some(w) => db.(webhooks := db.webhooks[w := db.webhooks[w].(url := url, secret := secret, isActive := isActive)])
  }

  function AttemptedRow(d: Delivery, response: Response, maxRetries: nat): Delivery {
    var tried := match response
      case HttpStatus(code) => d.(attempts := d.attempts + 1, lastStatusCode := Some(code))
      case NetworkError(m) => d.(attempts := d.attempts + 1, lastError := Some(m));
    if Delivered(response) then tried.(status := Success)
    else if tried.attempts >= maxRetries then tried.(status := Undelivered)
    else tried
  }

  function SentAudit(id: Id, d: Delivery): AuditLog {
    AuditLog(WebhookSent, d.org, None, OnDelivery(id), SentMeta(d.event, d.lastStatusCode))
  }

  /** One delivery attempt; without the row or its webhook nothing happens. */
  function DeliverOnce(cfg: Settings, db: Db, id: Id, response: Response): (Db, bool) {
    if id >= |db.deliveries| || db.deliveries[id].webhook >= |db.webhooks| then (db, false)
    else
      var row := AttemptedRow(db.deliveries[id], response, cfg.maxRetries);
      (db.(deliveries := db.deliveries[id := row],
           audit := db.audit + if Delivered(response) then [SentAudit(id, row)] else []),
       Delivered(response))
  }

  /** Where the notification stage breaks, if it does: before or after the delivery row is committed. */
  datatype NotifyFault = NoFault | BeforeInsert(message: string) | AfterInsert(message: string)

  datatype NotifyEnv = NotifyEnv(fault: NotifyFault, response: Response)

  function TicketPayload(t: Id, ticket: Ticket, event: NoticeKind, delivery: Id): Payload {
    Payload(event, delivery, ticket.org, t, ticket.title, ticket.status, ticket.priority, ticket.final)
  }

  function Enqueue(cfg: Settings, db: Db, t: Id, event: NoticeKind, env: NotifyEnv): (Db, Option<Error>)
    requires t < |db.tickets|
  {
    var ticket := db.tickets[t];
    if env.fault.BeforeInsert? then (db, Some(Fault(env.fault.message)))
    else
      match FindWebhook(db.webhooks, ticket.org)
      case None => (db, None)
      case Some(w) =>
        if !db.webhooks[w].isActive then (db, None)
        else
          var id := |db.deliveries|;
          var row := Delivery(w, ticket.org, event, TicketPayload(t, ticket, event, id), Pending, 0, None, None);
          var added := db.(deliveries := db.deliveries + [row]);
          if env.fault.AfterInsert? then (added, Some(Fault(env.fault.message)))
          else if cfg.dispatchEnabled && cfg.deliveryEager then (DeliverOnce(cfg, added, id, env.response).0, None)
          else (added, None)
  }

  /** Notification touches deliveries and the audit log only. */
  lemma EnqueueKeeps(cfg: Settings, db: Db, t: Id, event: NoticeKind, env: NotifyEnv)
    requires t < |db.tickets|
    ensures Enqueue(cfg, db, t, event, env).0 == db.(
              deliveries := Enqueue(cfg, db, t, event, env).0.deliveries, audit := Enqueue(cfg, db, t, event, env).0.audit)
  {}

  // ----- document_service

  function ChunkRows(cfg: Settings, org: OrgId, document: Id, first: Id, contents: seq<string>): (rows: seq<Chunk>)
    requires cfg.embedder.dim > 0
    ensures |rows| == |contents|
    ensures forall i | 0 <= i < |contents| ::
              rows[i] == Chunk(first + i, org, document, i, contents[i], cfg.embedder.Embed(contents[i]))
  {
    seq(|contents|, i requires 0 <= i < |contents| =>
      Chunk(first + i, org, document, i, contents[i], cfg.embedder.Embed(contents[i])))
  }

  function AddDocument(cfg: Settings, db: Db, org: OrgId, actor: UserId, title: string, content: string): Db
    requires cfg.embedder.dim > 0
  {
    var contents := Chunking.Chunks(content, Chunking.CHUNK_SIZE_WORDS, Chunking.CHUNK_OVERLAP_WORDS);
    db.(documents := db.documents + [Document(org, title, content, actor)],
        chunks := db.chunks + ChunkRows(cfg, org, |db.documents|, |db.chunks|, contents))
  }

  // ----- whole calls, one after the other

  /** What the outside world does to one execution of a run. */
  datatype RunEnv = RunEnv(
    llm: Llm, latencyMs: int, cost: real,
    rowFault: Option<string>, refreshFault: Option<string>, notify: NotifyEnv)

  datatype Step =
    | CreateTicketStep(org: OrgId, actor: UserId, title: string, description: string, priority: Priority)
    | AddDocumentStep(org: OrgId, actor: UserId, title: string, content: string)
    | StartRunStep(org: OrgId, actor: UserId, ticket: Id)
    | ExecuteRunStep(run: Id, env: RunEnv)
    | ApproveStep(org: OrgId, actor: UserId, ticket: Id, edited: Option<string>, notify: NotifyEnv)
    | RejectStep(org: OrgId, actor: UserId, ticket: Id, reason: Option<string>)
    | EditDraftStep(org: OrgId, actor: UserId, ticket: Id, content: string)
    | UpsertConfigStep(org: OrgId, url: string, secret: string, isActive: bool)
    | DeliverStep(delivery: Id, response: Response)

  function CreateTicket(db: Db, org: OrgId, actor: UserId, title: string, description: string, priority: Priority): Db {
    var t := |db.tickets|;
    db.(tickets := db.tickets + [Ticket(org, title, description, priority, New, None, None, None, None, actor)],
        events := db.events + [TicketEvent(t, org, CreatedEvent, None, Some(New), Some(actor), NoMessage)],
        audit := db.audit + [AuditLog(TicketCreated, org, Some(actor), OnTicket(t), NoMeta)])
  }

  function StartRun(db: Db, t: Id, actor: Option<UserId>): Db
    requires t < |db.tickets|
  {
    var org := db.tickets[t].org;
    var run := AgentRun(t, org, Running, None, [], false, None, None, None, 0, 0, None, None, None);
    db.(runs := db.runs + [run],
        audit := db.audit + [AuditLog(AgentRunStarted, org, actor, OnTicket(t), RunMeta(|db.runs|))])
  }

  /** The tenant-scoped read that starts every request on a ticket. */
  predicate Visible(db: Db, org: OrgId, t: Id) {
    t < |db.tickets| && db.tickets[t].org == org
  }

  function Workflow(cfg: Settings, db: Db, ticket: Ticket, env: RunEnv): Result<AgentState, Error>
    requires cfg.embedder.dim > 0
  {
    match RunWorkflow(cfg, db.chunks, env.llm, ticket.org, ticket.title, ticket.description)
    case Err(e) => Err(e)
    case Ok(st) => if env.rowFault.Some? then Err(Fault(env.rowFault.value)) else Ok(st)
  }

  /** The transaction an execution of run r tries to commit, having loaded its ticket. */
  function ExecutePatch(cfg: Settings, db: Db, r: Id, loaded: Ticket, env: RunEnv): Result<Patch, Error>
    requires cfg.embedder.dim > 0 && r < |db.runs|
  {
    match Workflow(cfg, db, loaded, env)
    case Err(e) => Err(e)
    case Ok(st) => RunPatch(db.runs[r].ticket, loaded, r, db.runs[r], st, env.latencyMs, env.cost)
  }

  predicate PatchEscalates(p: Patch) { p.event.to == Some(Escalated) }

  /** After the main commit: refresh, then notify if the run escalated; any error marks the run failed. */
  function AfterRunCommit(cfg: Settings, db: Db, r: Id, t: Id, escalated: bool, env: RunEnv): Db
    requires r < |db.runs| && t < |db.tickets|
  {
    if env.refreshFault.Some? then FailRun(db, r, Fault(env.refreshFault.value))
    else if escalated then
      var (notified, error) := Enqueue(cfg, db, t, TicketEscalatedNotice, env.notify);
      if error.Some? then FailRun(notified, r, error.value) else notified
    else db
  }

  function ExecuteRun(cfg: Settings, db: Db, r: Id, env: RunEnv): Db
    requires cfg.embedder.dim > 0
  {
    if r >= |db.runs| || db.runs[r].ticket >= |db.tickets| then db
    else
      var t := db.runs[r].ticket;
      match ExecutePatch(cfg, db, r, db.tickets[t], env)
      case Err(e) => FailRun(db, r, e)
      case Ok(p) => AfterRunCommit(cfg, CommitPatch(db, p), r, t, PatchEscalates(p), env)
  }

  function CommitIfOk(db: Db, p: Result<Patch, Error>): Db
    requires p.Ok? ==> Applies(db, p.value)
  {
    match p case Ok(patch) => CommitPatch(db, patch) case Err(_) => db
  }

  function Approve(cfg: Settings, db: Db, t: Id, actor: UserId, edited: Option<string>, notify: NotifyEnv): Db
    requires t < |db.tickets|
  {
    match ApprovePatch(t, db.tickets[t], actor, edited)
    case Err(_) => db
    case Ok(p) => Enqueue(cfg, CommitPatch(db, p), t, TicketApprovedNotice, notify).0
  }

  /** The committed database after one call. */
  function Apply(cfg: Settings, db: Db, step: Step): Db
    requires cfg.embedder.dim > 0
  {
    match step
    case CreateTicketStep(org, actor, title, description, priority) => CreateTicket(db, org, actor, title, description, priority)
    case AddDocumentStep(org, actor, title, content) =>
      if Blank(content) then db else AddDocument(cfg, db, org, actor, title, content)
    case StartRunStep(org, actor, t) =>
      if Visible(db, org, t) && db.tickets[t].status != Closed then StartRun(db, t, Some(actor)) else db
    case ExecuteRunStep(r, env) => ExecuteRun(cfg, db, r, env)
    case ApproveStep(org, actor, t, edited, notify) =>
      if Visible(db, org, t) then Approve(cfg, db, t, actor, edited, notify) else db
    case RejectStep(org, actor, t, reason) =>
      if Visible(db, org, t) then CommitIfOk(db, RejectPatch(t, db.tickets[t], actor, reason)) else db
    case EditDraftStep(org, actor, t, content) =>
      if Visible(db, org, t) then CommitIfOk(db, EditPatch(t, db.tickets[t], actor, content)) else db
    case UpsertConfigStep(org, url, secret, isActive) => UpsertConfig(db, org, url, secret, isActive)
    case DeliverStep(d, response) => DeliverOnce(cfg, db, d, response).0
  }

  function Execute(cfg: Settings, db: Db, steps: seq<Step>): Db
    requires cfg.embedder.dim > 0
    decreases |steps|
  {
    if steps == [] then db else Execute(cfg, Apply(cfg, db, steps[0]), steps[1..])
  }
}
