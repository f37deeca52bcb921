/** The tables, their rows, and the settings (app/models, app/core/config.py). */
module Models {
  import opened Embedding

  datatype Option<+T> = None | Some(value: T)

  datatype Result<+T, +E> = Ok(value: T) | Err(error: E)

  /** A fresh UUID is the next position of its table. */
  type Id = nat
  type OrgId = nat
  type UserId = nat

  // ----- tickets

  datatype TicketStatus =
    New | Triaged | DraftReady | WaitingApproval | Approved | Rejected | Escalated | Closed

  datatype Priority = Low | Medium | High | Urgent

  function AllowedTransitions(current: TicketStatus): set<TicketStatus> {
    match current
    case New => {Triaged, WaitingApproval, Escalated, Closed}
    case Triaged => {DraftReady, WaitingApproval, Escalated, Closed}
    case DraftReady => {WaitingApproval, Escalated, Closed}
    case WaitingApproval => {Approved, Rejected, Escalated, Closed}
    case Approved => {Closed}
    case Rejected => {DraftReady, WaitingApproval, Escalated, Closed}
    case Escalated => {WaitingApproval, Closed}
    case Closed => {}
  }

  predicate CanTransition(current: TicketStatus, target: TicketStatus) {
    target in AllowedTransitions(current)
  }

  /** The transition table read by target: where a ticket of each status can come from. */
  lemma TransitionsInto(s: TicketStatus)
    ensures !CanTransition(s, New)
    ensures CanTransition(s, Triaged) <==> s == New
    ensures CanTransition(s, DraftReady) <==> s in {Triaged, Rejected}
    ensures CanTransition(s, WaitingApproval) <==> s !in {WaitingApproval, Approved, Closed}
    ensures CanTransition(s, Escalated) <==> s !in {Escalated, Approved, Closed}
    ensures CanTransition(s, Approved) <==> s == WaitingApproval
    ensures CanTransition(s, Rejected) <==> s == WaitingApproval
    ensures CanTransition(s, Closed) <==> s != Closed
  {}

  datatype Ticket = Ticket(
    org: OrgId, title: string, description: string, priority: Priority, status: TicketStatus,
    suggestedType: Option<string>, suggestedPriority: Option<Priority>,
    draft: Option<string>, final: Option<string>, createdBy: UserId)

  // ----- ticket events

  datatype EventKind = CreatedEvent | AgentRunEvent | ApprovedEvent | RejectedEvent | EditedEvent

  datatype Message =
    NoMessage | DraftReadyForApproval | LowConfidence | ResponseApproved(edited: bool) | Reason(text: Option<string>) | DraftEdited

  datatype TicketEvent = TicketEvent(
    ticket: Id, org: OrgId, kind: EventKind, from: Option<TicketStatus>, to: Option<TicketStatus>,
    actor: Option<UserId>, message: Message)

  // ----- agent runs

  datatype RunStatus = Running | Completed | Failed

  datatype Outcome = ToApproval | ToHuman

  datatype Error =
    EmptyResponse | InvalidTransition(from: TicketStatus, to: TicketStatus)
    | RunNotFound | TicketNotFound | Fault(message: string)

  datatype AgentRun = AgentRun(
    ticket: Id, org: OrgId, status: RunStatus,
    classification: Option<string>, chunkIds: seq<Id>, retrievalHit: bool, draft: Option<string>,
    confidence: Option<real>, outcome: Option<Outcome>,
    promptTokens: nat, completionTokens: nat, latencyMs: Option<int>, cost: Option<real>,
    error: Option<Error>)

  // ----- audit log

  datatype AuditEvent =
    TicketCreated | AgentRunStarted | RetrievalCompleted | DraftGenerated
    | ResponseApprovedAudit | ResponseRejectedAudit | TicketEscalated | WebhookSent

  datatype Target = OnTicket(ticket: Id) | OnDelivery(delivery: Id)

  datatype Meta =
    NoMeta | RunMeta(run: Id) | RetrievalMeta(hits: nat, hit: bool) | ConfidenceMeta(confidence: real)
    | EditedMeta(edited: bool) | ReasonMeta(reason: Option<string>) | SentMeta(event: NoticeKind, code: Option<int>)

  datatype AuditLog = AuditLog(event: AuditEvent, org: OrgId, actor: Option<UserId>, target: Target, meta: Meta)

  // ----- webhooks

  datatype Webhook = Webhook(org: OrgId, url: string, secret: string, isActive: bool)

  datatype NoticeKind = TicketApprovedNotice | TicketEscalatedNotice

  /** The part of the payload that depends on the ticket. */
  datatype Payload = Payload(
    event: NoticeKind, delivery: Id, org: OrgId, ticket: Id, title: string,
    status: TicketStatus, priority: Priority, final: Option<string>)

  datatype DeliveryStatus = Pending | Success | Undelivered

  datatype Delivery = Delivery(
    webhook: Id, org: OrgId, event: NoticeKind, payload: Payload, status: DeliveryStatus,
    attempts: nat, lastStatusCode: Option<int>, lastError: Option<string>)

  // ----- knowledge base

  datatype Document = Document(org: OrgId, title: string, content: string, createdBy: UserId)

  datatype Chunk = Chunk(id: Id, org: OrgId, document: Id, index: nat, content: string, embedding: seq<real>)

  /** One state of the database. Rows are only ever appended or updated in place. */
  datatype Db = Db(
    tickets: seq<Ticket>, events: seq<TicketEvent>, runs: seq<AgentRun>, audit: seq<AuditLog>,
    webhooks: seq<Webhook>, deliveries: seq<Delivery>, documents: seq<Document>, chunks: seq<Chunk>)

  const EMPTY_DB := Db([], [], [], [], [], [], [], [])

  datatype Classification = Classification(kind: string, priority: Priority)

  /** Deployment settings, with the providers chosen by them; the classifier is any function of the ticket text. */
  datatype Settings = Settings(
    confidenceThreshold: real, similarityThreshold: real, topK: int,
    maxRetries: nat, backoffBase: real, dispatchEnabled: bool, deliveryEager: bool,
    embedder: Embedder, classify: string -> Classification)
}
