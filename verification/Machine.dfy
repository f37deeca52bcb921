/** The invariant of the whole database and its preservation by every call, hence over every serial run. */
module Machine {
  import opened Sequences
  import opened Text
  import opened Models
  import opened Agent
  import opened Transactions
  import opened History

  // ----- references between tables

  ghost predicate EventsRefer(db: Db) {
    forall e | e in db.events :: e.ticket < |db.tickets| && e.org == db.tickets[e.ticket].org
  }

  ghost predicate AuditRefersRow(db: Db, a: AuditLog) {
    match a.target
    case OnTicket(t) => t < |db.tickets| && a.org == db.tickets[t].org
    case OnDelivery(d) => d < |db.deliveries| && a.org == db.deliveries[d].org
  }

  ghost predicate AuditRefers(db: Db) { forall a | a in db.audit :: AuditRefersRow(db, a) }

  ghost predicate RunsRefer(db: Db) {
    forall r | 0 <= r < |db.runs| :: db.runs[r].ticket < |db.tickets| && db.runs[r].org == db.tickets[db.runs[r].ticket].org
  }

  ghost predicate DeliveryRefers(db: Db, d: Delivery) {
    && d.webhook < |db.webhooks| && db.webhooks[d.webhook].org == d.org
    && d.payload.ticket < |db.tickets| && db.tickets[d.payload.ticket].org == d.org
    && d.payload.event == d.event && d.payload.org == d.org
  }

  ghost predicate DeliveriesRefer(db: Db) {
    forall i | 0 <= i < |db.deliveries| :: DeliveryRefers(db, db.deliveries[i]) && db.deliveries[i].payload.delivery == i
  }

  ghost predicate OneWebhookPerOrg(db: Db) {
    forall i, j | 0 <= i < j < |db.webhooks| :: db.webhooks[i].org != db.webhooks[j].org
  }

  ghost predicate WellFormed(db: Db) {
    EventsRefer(db) && AuditRefers(db) && RunsRefer(db) && DeliveriesRefer(db) && OneWebhookPerOrg(db)
  }

  // ----- runs

  /** An outcome is what the stored confidence decides; without a hit the confidence is zero; a completed run has an outcome. */
  ghost predicate RunOk(cfg: Settings, run: AgentRun) {
    && (run.status == Completed ==> run.outcome.Some?)
    && (run.status == Running ==> run.outcome.None?)
    && (run.outcome.Some? ==>
          && run.confidence.Some? && run.outcome.value == Decide(cfg, run.confidence.value)
          && (!run.retrievalHit ==> run.confidence.value == 0.0))
  }

  ghost predicate RunsOk(cfg: Settings, db: Db) { forall r | 0 <= r < |db.runs| :: RunOk(cfg, db.runs[r]) }

  function Starts(db: Db): seq<AuditLog> { Filter(db.audit, IsAudit(AgentRunStarted)) }

  /** The start audit rows are the runs, in order. */
  ghost predicate StartsOk(db: Db) {
    && |Starts(db)| == |db.runs|
    && forall r | 0 <= r < |db.runs| ::
         Starts(db)[r].meta == RunMeta(r) && Starts(db)[r].target == OnTicket(db.runs[r].ticket)
  }

  ghost predicate TicketsOk(cfg: Settings, db: Db) {
    forall t | 0 <= t < |db.tickets| :: TicketOk(cfg, ViewOf(db, t))
  }

  ghost predicate Inv(cfg: Settings, db: Db) {
    WellFormed(db) && RunsOk(cfg, db) && StartsOk(db) && TicketsOk(cfg, db)
  }

  // ----- how each kind of write shows in the views

  lemma ViewOfCommit(cfg: Settings, db: Db, p: Patch, t: Id)
    requires Applies(db, p) && PatchOk(cfg, p) && t < |db.tickets|
    ensures ViewOf(CommitPatch(db, p), t) == if t == p.ticket then LocalCommit(ViewOf(db, t), p) else ViewOf(db, t)
  {
    hide PatchOk, MergeTicket, EventOk;
    PatchAbout(cfg, p);
    FilterAppend(db.events, p.event, OfTicket(t));
    FilterConcat(db.audit, p.audits, AboutTicket(t));
    if t == p.ticket {
      FilterAll(p.audits, AboutTicket(t));
    } else {
      FilterNone(p.audits, AboutTicket(t));
    }
  }

  lemma PatchAbout(cfg: Settings, p: Patch)
    requires PatchOk(cfg, p)
    ensures p.event.ticket == p.ticket && forall a | a in p.audits :: a.target == OnTicket(p.ticket)
  {}

  /** An audit row of a kind that no ticket invariant counts. */
  ghost predicate Uncounted(a: AuditLog) { a.event in {TicketCreated, AgentRunStarted, WebhookSent} }

  lemma AppendUncounted(cfg: Settings, v: View, a: AuditLog)
    requires LogOk(cfg, v) && Uncounted(a)
    ensures LogOk(cfg, v.(audits := v.audits + [a]))
  {
    hide Filter;
    FilterAppend(v.audits, a, IsAudit(ResponseApprovedAudit));
    FilterAppend(v.audits, a, IsAudit(ResponseRejectedAudit));
    FilterAppend(v.audits, a, IsAudit(RetrievalCompleted));
    FilterAppend(v.audits, a, IsAudit(DraftGenerated));
    FilterAppend(v.audits, a, IsAudit(TicketEscalated));
  }

  /** The same tickets and events, perhaps one uncounted audit row more, and the same notices. */
  ghost predicate SameTickets(db: Db, db': Db) {
    && db'.tickets == db.tickets && db'.events == db.events && Payloads(db'.deliveries) == Payloads(db.deliveries)
    && (db'.audit == db.audit || exists a :: Uncounted(a) && db'.audit == db.audit + [a])
  }

  lemma ViewOfSameTickets(db: Db, db': Db, t: Id)
    requires SameTickets(db, db') && t < |db.tickets|
    ensures var v, v' := ViewOf(db, t), ViewOf(db', t);
            v' == v || exists a :: Uncounted(a) && v' == v.(audits := v.audits + [a])
  {
    hide Filter;
    if db'.audit != db.audit {
      var a :| Uncounted(a) && db'.audit == db.audit + [a];
      FilterAppend(db.audit, a, AboutTicket(t));
      var v := ViewOf(db, t);
      assert ViewOf(db', t) == if AboutTicket(t)(a) then v.(audits := v.audits + [a]) else v;
    }
  }

  lemma SameTicketsKeepViews(cfg: Settings, db: Db, db': Db)
    requires TicketsOk(cfg, db) && SameTickets(db, db')
    ensures TicketsOk(cfg, db')
  {
    hide Filter, LogOk, ViewOf;
    forall t | 0 <= t < |db'.tickets| ensures TicketOk(cfg, ViewOf(db', t)) {
      var v := ViewOf(db, t);
      assert TicketOk(cfg, v);
      ViewOfSameTickets(db, db', t);
      if ViewOf(db', t) != v {
        var a :| Uncounted(a) && ViewOf(db', t) == v.(audits := v.audits + [a]);
        AppendUncounted(cfg, v, a);
      }
    }
  }

  lemma StartsAfter(db: Db, audits: seq<AuditLog>)
    requires forall a | a in audits :: a.event != AgentRunStarted
    ensures Filter(db.audit + audits, IsAudit(AgentRunStarted)) == Starts(db)
  {
    FilterConcat(db.audit, audits, IsAudit(AgentRunStarted));
    FilterNone(audits, IsAudit(AgentRunStarted));
  }

  // ----- each write keeps the invariant

  ghost predicate RunWriteOk(cfg: Settings, db: Db, w: RunWrite) {
    w.WriteRun? ==> w.run < |db.runs| && RunOk(cfg, w.row) && w.row.ticket == db.runs[w.run].ticket && w.row.org == db.runs[w.run].org
  }

  lemma CommitWellFormed(cfg: Settings, db: Db, p: Patch)
    requires WellFormed(db) && Applies(db, p) && PatchOk(cfg, p) && p.loaded.org == db.tickets[p.ticket].org
    requires RunWriteOk(cfg, db, p.run)
    ensures WellFormed(CommitPatch(db, p))
  {
    hide PatchOk, WellFormed;
    PatchRefers(cfg, p);
    CommitRefers(db, p);
  }

  lemma PatchRefers(cfg: Settings, p: Patch)
    requires PatchOk(cfg, p)
    ensures p.event.ticket == p.ticket && p.event.org == p.loaded.org && p.row.org == p.loaded.org
    ensures forall a | a in p.audits :: a.target == OnTicket(p.ticket) && a.org == p.loaded.org
  {
    hide EventOk, CanTransition, Blank, Decide;
  }

  lemma CommitRefers(db: Db, p: Patch)
    requires WellFormed(db) && Applies(db, p) && p.loaded.org == db.tickets[p.ticket].org
    requires p.event.ticket == p.ticket && p.event.org == p.loaded.org
    requires forall a | a in p.audits :: a.target == OnTicket(p.ticket) && a.org == p.loaded.org
    requires p.run.WriteRun? ==> p.run.row.ticket == db.runs[p.run.run].ticket && p.run.row.org == db.runs[p.run.run].org
    ensures WellFormed(CommitPatch(db, p))
  {}

  lemma CommitKeepsRuns(cfg: Settings, db: Db, p: Patch)
    requires RunsOk(cfg, db) && StartsOk(db) && Applies(db, p) && PatchOk(cfg, p) && RunWriteOk(cfg, db, p.run)
    ensures RunsOk(cfg, CommitPatch(db, p)) && StartsOk(CommitPatch(db, p))
  {
    hide Filter, EventOk, CanTransition, Blank, Decide, RunOk;
    StartsAfter(db, p.audits);
  }

  lemma CommitKeepsInv(cfg: Settings, db: Db, p: Patch)
    requires Inv(cfg, db) && Applies(db, p) && PatchOk(cfg, p) && p.loaded == db.tickets[p.ticket]
    requires RunWriteOk(cfg, db, p.run)
    ensures Inv(cfg, CommitPatch(db, p)) && CommitPatch(db, p).tickets[p.ticket] == p.row
    ensures NoticeCounts(ViewOf(CommitPatch(db, p), p.ticket), if p.event.kind == ApprovedEvent then 1 else 0,
                                                          if p.event.to == Some(Escalated) then 1 else 0)
  {
    hide WellFormed, RunsOk, StartsOk, TicketOk, ViewOf, LocalCommit, NoticeCounts, PatchOk, RunWriteOk, MergeTicket;
    CommitWellFormed(cfg, db, p);
    CommitKeepsRuns(cfg, db, p);
    forall t | 0 <= t < |db.tickets| ensures TicketOk(cfg, ViewOf(CommitPatch(db, p), t)) {
      ViewOfCommit(cfg, db, p, t);
      assert TicketOk(cfg, ViewOf(db, t));
      if t == p.ticket {
        RowOfView(db, t);
        FreshCommitKeepsTicket(cfg, ViewOf(db, t), p);
      }
    }
    var t := p.ticket;
    ViewOfCommit(cfg, db, p, t);
    assert TicketOk(cfg, ViewOf(db, t));
    RowOfView(db, t);
    RowOfView(CommitPatch(db, p), t);
    FreshCommitKeepsTicket(cfg, ViewOf(db, t), p);
  }

  lemma RowOfView(db: Db, t: Id)
    requires t < |db.tickets|
    ensures ViewOf(db, t).row == db.tickets[t]
  {}

  lemma FailRunKeepsInv(cfg: Settings, db: Db, r: Id, error: Error)
    requires Inv(cfg, db) && r < |db.runs|
    ensures Inv(cfg, FailRun(db, r, error))
  {
    hide Filter, TicketOk;
    assert SameTickets(db, FailRun(db, r, error));
    SameTicketsKeepViews(cfg, db, FailRun(db, r, error));
  }

  lemma ViewOfCreateTicket(db: Db, org: OrgId, actor: UserId, title: string, description: string, priority: Priority, t: Id)
    requires WellFormed(db) && t <= |db.tickets|
    ensures var db' := CreateTicket(db, org, actor, title, description, priority);
            ViewOf(db', t) == if t < |db.tickets| then ViewOf(db, t)
                              else View(db'.tickets[t], [db'.events[|db.events|]], [db'.audit[|db.audit|]], [])
  {
    hide Filter;
    var db' := CreateTicket(db, org, actor, title, description, priority);
    var event, audit := db'.events[|db.events|], db'.audit[|db.audit|];
    FilterAppend(db.events, event, OfTicket(t));
    FilterAppend(db.audit, audit, AboutTicket(t));
    if t == |db.tickets| {
      FilterNone(db.events, OfTicket(t));
      FilterNone(db.audit, AboutTicket(t));
      FilterNone(Payloads(db.deliveries), ForTicket(t));
    }
  }

  lemma CreateTicketWellFormed(db: Db, org: OrgId, actor: UserId, title: string, description: string, priority: Priority)
    requires WellFormed(db)
    ensures WellFormed(CreateTicket(db, org, actor, title, description, priority))
  {}

  lemma CreateTicketKeepsInv(cfg: Settings, db: Db, org: OrgId, actor: UserId, title: string, description: string, priority: Priority)
    requires Inv(cfg, db)
    ensures Inv(cfg, CreateTicket(db, org, actor, title, description, priority))
  {
    hide Filter, TicketOk, WellFormed, ViewOf;
    var db' := CreateTicket(db, org, actor, title, description, priority);
    CreateTicketWellFormed(db, org, actor, title, description, priority);
    forall t | 0 <= t < |db'.tickets| ensures TicketOk(cfg, ViewOf(db', t)) {
      ViewOfCreateTicket(db, org, actor, title, description, priority, t);
      if t < |db.tickets| {
        assert TicketOk(cfg, ViewOf(db, t));
      } else {
        NewTicketOk(cfg, db'.tickets[t], db'.events[|db.events|], db'.audit[|db.audit|]);
      }
    }
    StartsAfter(db, [db'.audit[|db.audit|]]);
  }

  lemma SelectOne<T>(x: T, p: T -> bool)
    ensures Filter([x], p) == if p(x) then [x] else []
  {}

  lemma NewTicketOk(cfg: Settings, row: Ticket, event: TicketEvent, audit: AuditLog)
    requires row.status == New && row.final == None && audit.event == TicketCreated
    requires event.kind == CreatedEvent && event.from == None && event.to == Some(New) && event.actor.Some?
    ensures TicketOk(cfg, View(row, [event], [audit], []))
  {
    hide Blank, Filter;
    SelectOne(event, HasTarget());
    SelectOne(event, IsKind(CreatedEvent));
    SelectOne(event, IsKind(ApprovedEvent));
    SelectOne(event, IsKind(RejectedEvent));
    SelectOne(event, IsKind(AgentRunEvent));
    SelectOne(event, Reaches(Escalated));
    SelectOne(audit, IsAudit(ResponseApprovedAudit));
    SelectOne(audit, IsAudit(ResponseRejectedAudit));
    SelectOne(audit, IsAudit(RetrievalCompleted));
    SelectOne(audit, IsAudit(DraftGenerated));
    SelectOne(audit, IsAudit(TicketEscalated));
  }

  lemma StartRunWellFormed(db: Db, t: Id, actor: Option<UserId>)
    requires WellFormed(db) && t < |db.tickets|
    ensures WellFormed(StartRun(db, t, actor)) && SameTickets(db, StartRun(db, t, actor))
  {
    var a := StartRun(db, t, actor).audit[|db.audit|];
    assert Uncounted(a);
  }

  lemma StartRunKeepsInv(cfg: Settings, db: Db, t: Id, actor: Option<UserId>)
    requires Inv(cfg, db) && t < |db.tickets|
    ensures Inv(cfg, StartRun(db, t, actor))
  {
    hide Filter, TicketOk;
    var db' := StartRun(db, t, actor);
    StartRunWellFormed(db, t, actor);
    SameTicketsKeepViews(cfg, db, db');
    FilterAppend(db.audit, db'.audit[|db.audit|], IsAudit(AgentRunStarted));
  }

  lemma DeliverWellFormed(cfg: Settings, db: Db, d: Id, response: Response)
    requires WellFormed(db)
    ensures WellFormed(DeliverOnce(cfg, db, d, response).0) && SameTickets(db, DeliverOnce(cfg, db, d, response).0)
  {
    if d < |db.deliveries| && db.deliveries[d].webhook < |db.webhooks| {
      var db' := DeliverOnce(cfg, db, d, response).0;
      assert Payloads(db'.deliveries) == Payloads(db.deliveries);
      assert Uncounted(SentAudit(d, AttemptedRow(db.deliveries[d], response, cfg.maxRetries)));
      assert db.audit + [] == db.audit;
    }
  }

  lemma DeliverKeepsInv(cfg: Settings, db: Db, d: Id, response: Response)
    requires Inv(cfg, db)
    ensures Inv(cfg, DeliverOnce(cfg, db, d, response).0)
  {
    hide Filter, TicketOk, WellFormed;
    DeliverWellFormed(cfg, db, d, response);
    SameTicketsKeepViews(cfg, db, DeliverOnce(cfg, db, d, response).0);
    if d < |db.deliveries| && db.deliveries[d].webhook < |db.webhooks| {
      var row := AttemptedRow(db.deliveries[d], response, cfg.maxRetries);
      StartsAfter(db, if Delivered(response) then [SentAudit(d, row)] else []);
    }
  }

  lemma UpsertWellFormed(db: Db, org: OrgId, url: string, secret: string, isActive: bool)
    requires WellFormed(db)
    ensures WellFormed(UpsertConfig(db, org, url, secret, isActive)) && SameTickets(db, UpsertConfig(db, org, url, secret, isActive))
  {
    hide FindWebhook;
  }

  lemma AddDocumentWellFormed(cfg: Settings, db: Db, org: OrgId, actor: UserId, title: string, content: string)
    requires WellFormed(db) && cfg.embedder.dim > 0
    ensures var db' := AddDocument(cfg, db, org, actor, title, content);
            WellFormed(db') && SameTickets(db, db') && db'.runs == db.runs && db'.audit == db.audit
  {}

  lemma UpsertKeepsInv(cfg: Settings, db: Db, org: OrgId, url: string, secret: string, isActive: bool)
    requires Inv(cfg, db)
    ensures Inv(cfg, UpsertConfig(db, org, url, secret, isActive))
  {
    hide Filter, TicketOk, WellFormed, SameTickets;
    UpsertWellFormed(db, org, url, secret, isActive);
    SameTicketsKeepViews(cfg, db, UpsertConfig(db, org, url, secret, isActive));
  }

  lemma AddDocumentKeepsInv(cfg: Settings, db: Db, org: OrgId, actor: UserId, title: string, content: string)
    requires Inv(cfg, db) && cfg.embedder.dim > 0
    ensures Inv(cfg, AddDocument(cfg, db, org, actor, title, content))
  {
    hide Filter, TicketOk, WellFormed, SameTickets, AddDocument;
    AddDocumentWellFormed(cfg, db, org, actor, title, content);
    SameTicketsKeepViews(cfg, db, AddDocument(cfg, db, org, actor, title, content));
  }

  /** The delivery row that an enqueue inserts. */
  lemma InsertNotice(cfg: Settings, db: Db, t: Id, event: NoticeKind, row: Delivery)
    requires Inv(cfg, db) && t < |db.tickets|
    requires DeliveryRefers(db, row) && row.payload.ticket == t && row.event == event && row.payload.delivery == |db.deliveries|
    requires PayloadOk(db.tickets[t], row.payload)
    requires NoticeCounts(ViewOf(db, t), if event.TicketApprovedNotice? then 1 else 0, if event.TicketEscalatedNotice? then 1 else 0)
    ensures Inv(cfg, db.(deliveries := db.deliveries + [row]))
  {
    hide Filter, TicketOk, NoticeCounts, PayloadOk;
    var db' := db.(deliveries := db.deliveries + [row]);
    assert Payloads(db'.deliveries) == Payloads(db.deliveries) + [row.payload];
    forall u | 0 <= u < |db'.tickets| ensures TicketOk(cfg, ViewOf(db', u)) {
      var v := ViewOf(db, u);
      assert TicketOk(cfg, v);
      FilterAppend(Payloads(db.deliveries), row.payload, ForTicket(u));
      assert ViewOf(db', u) == if u == t then v.(notices := v.notices + [row.payload]) else v;
      if u == t {
        AddNotice(cfg, v, row.payload);
      }
    }
  }

  lemma AddNotice(cfg: Settings, v: View, p: Payload)
    requires TicketOk(cfg, v) && PayloadOk(v.row, p)
    requires NoticeCounts(v, if p.event.TicketApprovedNotice? then 1 else 0, if p.event.TicketEscalatedNotice? then 1 else 0)
    ensures TicketOk(cfg, v.(notices := v.notices + [p]))
  {
    hide Filter, LogOk, ChainOk, FinalOk;
    FilterAppend(v.notices, p, IsNotice(TicketApprovedNotice));
    FilterAppend(v.notices, p, IsNotice(TicketEscalatedNotice));
    LogIgnoresNotices(cfg, v, v.(notices := v.notices + [p]));
  }

  lemma LogIgnoresNotices(cfg: Settings, v: View, w: View)
    requires w == v.(notices := w.notices)
    ensures LogOk(cfg, v) == LogOk(cfg, w) && ChainOk(v) == ChainOk(w) && FinalOk(v) == FinalOk(w)
  {}

  lemma EnqueueKeepsInv(cfg: Settings, db: Db, t: Id, event: NoticeKind, env: NotifyEnv)
    requires Inv(cfg, db) && t < |db.tickets|
    requires db.tickets[t].status == if event.TicketApprovedNotice? then Approved else Escalated
    requires NoticeCounts(ViewOf(db, t), if event.TicketApprovedNotice? then 1 else 0, if event.TicketEscalatedNotice? then 1 else 0)
    ensures Inv(cfg, Enqueue(cfg, db, t, event, env).0)
  {
    hide Inv, ViewOf, NoticeCounts, DeliverOnce, FindWebhook;
    var ticket := db.tickets[t];
    var w := FindWebhook(db.webhooks, ticket.org);
    if !env.fault.BeforeInsert? && w.Some? && db.webhooks[w.value].isActive {
      var id := |db.deliveries|;
      var row := Delivery(w.value, ticket.org, event, TicketPayload(t, ticket, event, id), Pending, 0, None, None);
      FinalOfStatus(cfg, db, t);
      InsertNotice(cfg, db, t, event, row);
      DeliverKeepsInv(cfg, db.(deliveries := db.deliveries + [row]), id, env.response);
    }
  }

  lemma FinalOfStatus(cfg: Settings, db: Db, t: Id)
    requires Inv(cfg, db) && t < |db.tickets|
    ensures db.tickets[t].final.Some? <==> db.tickets[t].status == Approved
  {
    hide Filter, LogOk, ChainOk;
    assert TicketOk(cfg, ViewOf(db, t));
  }

  // ----- whole calls

  /** What an execution of a run commits is a legal transaction on the loaded ticket, with a sound run row. */
  lemma ExecutePatchOk(cfg: Settings, db: Db, r: Id, loaded: Ticket, env: RunEnv)
    requires cfg.embedder.dim > 0 && r < |db.runs| && db.runs[r].ticket < |db.tickets|
    ensures var p := ExecutePatch(cfg, db, r, loaded, env);
            p.Ok? ==>
              && PatchOk(cfg, p.value) && p.value.ticket == db.runs[r].ticket && p.value.loaded == loaded
              && p.value.event.kind == AgentRunEvent && p.value.run.WriteRun? && p.value.run.run == r
              && Applies(db, p.value) && RunWriteOk(cfg, db, p.value.run)
              && (PatchEscalates(p.value) ==> p.value.row.status == Escalated)
  {
    hide RunWorkflow, Decide, CanTransition, ChunkIds;
    WorkflowDecided(cfg, db.chunks, env.llm, loaded.org, loaded.title, loaded.description);
    match Workflow(cfg, db, loaded, env) {
      case Err(_) =>
      case Ok(st) =>
        RunPatchOk(cfg, db.runs[r].ticket, loaded, r, db.runs[r], st, env.latencyMs, env.cost);
    }
  }

  lemma ExecuteRunKeepsInv(cfg: Settings, db: Db, r: Id, env: RunEnv)
    requires cfg.embedder.dim > 0 && Inv(cfg, db)
    ensures Inv(cfg, ExecuteRun(cfg, db, r, env))
  {
    hide Inv, ViewOf, NoticeCounts, ExecutePatch, Enqueue, CommitPatch, PatchOk, RunWriteOk, FailRun;
    if r < |db.runs| && db.runs[r].ticket < |db.tickets| {
      var t := db.runs[r].ticket;
      ExecutePatchOk(cfg, db, r, db.tickets[t], env);
      match ExecutePatch(cfg, db, r, db.tickets[t], env) {
        case Err(e) => FailRunKeepsInv(cfg, db, r, e);
        case Ok(p) =>
          CommitKeepsInv(cfg, db, p);
          CommitSizes(db, p);
          AfterRunCommitKeepsInv(cfg, CommitPatch(db, p), r, t, PatchEscalates(p), env);
      }
    }
  }

  lemma CommitSizes(db: Db, p: Patch)
    requires Applies(db, p)
    ensures |CommitPatch(db, p).runs| == |db.runs| && |CommitPatch(db, p).tickets| == |db.tickets|
  {}

  lemma AfterRunCommitKeepsInv(cfg: Settings, db: Db, r: Id, t: Id, escalated: bool, env: RunEnv)
    requires Inv(cfg, db) && r < |db.runs| && t < |db.tickets|
    requires escalated ==> db.tickets[t].status == Escalated && NoticeCounts(ViewOf(db, t), 0, 1)
    ensures Inv(cfg, AfterRunCommit(cfg, db, r, t, escalated, env))
  {
    hide Inv, ViewOf, NoticeCounts, Enqueue, FailRun;
    if env.refreshFault.Some? {
      FailRunKeepsInv(cfg, db, r, Fault(env.refreshFault.value));
    } else if escalated {
      EnqueueKeepsInv(cfg, db, t, TicketEscalatedNotice, env.notify);
      EnqueueKeeps(cfg, db, t, TicketEscalatedNotice, env.notify);
      var (notified, error) := Enqueue(cfg, db, t, TicketEscalatedNotice, env.notify);
      if error.Some? {
        FailRunKeepsInv(cfg, notified, r, error.value);
      }
    }
  }

  lemma ApproveKeepsInv(cfg: Settings, db: Db, t: Id, actor: UserId, edited: Option<string>, notify: NotifyEnv)
    requires Inv(cfg, db) && t < |db.tickets|
    ensures Inv(cfg, Approve(cfg, db, t, actor, edited, notify))
  {
    hide Inv, ViewOf, NoticeCounts, Enqueue, CommitPatch, PatchOk, Blank;
    match ApprovePatch(t, db.tickets[t], actor, edited) {
      case Err(_) =>
      case Ok(p) =>
        ApprovePatchOk(cfg, t, db.tickets[t], actor, edited);
        CommitKeepsInv(cfg, db, p);
        CommitSizes(db, p);
        EnqueueKeepsInv(cfg, CommitPatch(db, p), t, TicketApprovedNotice, notify);
    }
  }

  /** Every call, whether it succeeds, is refused, or fails half way, keeps the invariant. */
  lemma ApplyKeepsInv(cfg: Settings, db: Db, step: Step)
    requires cfg.embedder.dim > 0 && Inv(cfg, db)
    ensures Inv(cfg, Apply(cfg, db, step))
  {
    hide Inv, CreateTicket, AddDocument, StartRun, ExecuteRun, Approve, RejectPatch,
      EditPatch, CommitPatch, UpsertConfig, DeliverOnce, PatchOk, Blank;
    match step {
      case CreateTicketStep(org, actor, title, description, priority) =>
        CreateTicketKeepsInv(cfg, db, org, actor, title, description, priority);
      case AddDocumentStep(org, actor, title, content) => AddDocumentKeepsInv(cfg, db, org, actor, title, content);
      case StartRunStep(org, actor, t) => if t < |db.tickets| { StartRunKeepsInv(cfg, db, t, Some(actor)); }
      case ExecuteRunStep(r, env) => ExecuteRunKeepsInv(cfg, db, r, env);
      case ApproveStep(org, actor, t, edited, notify) =>
        if t < |db.tickets| { ApproveKeepsInv(cfg, db, t, actor, edited, notify); }
      case RejectStep(org, actor, t, reason) =>
        if t < |db.tickets| {
          RejectPatchOk(cfg, t, db.tickets[t], actor, reason);
          PlainPatchKeepsInv(cfg, db, RejectPatch(t, db.tickets[t], actor, reason), t);
        }
      case EditDraftStep(org, actor, t, content) =>
        if t < |db.tickets| {
          EditPatchOk(cfg, t, db.tickets[t], actor, content);
          PlainPatchKeepsInv(cfg, db, EditPatch(t, db.tickets[t], actor, content), t);
        }
      case UpsertConfigStep(org, url, secret, isActive) => UpsertKeepsInv(cfg, db, org, url, secret, isActive);
      case DeliverStep(d, response) => DeliverKeepsInv(cfg, db, d, response);
    }
  }

  lemma PlainPatchKeepsInv(cfg: Settings, db: Db, p: Result<Patch, Error>, t: Id)
    requires Inv(cfg, db) && t < |db.tickets|
    requires p.Ok? ==> PatchOk(cfg, p.value) && p.value.run == NoRun && p.value.ticket == t && p.value.loaded == db.tickets[t]
    ensures Inv(cfg, CommitIfOk(db, p))
  {
    hide Inv, PatchOk, CommitPatch;
    if p.Ok? {
      CommitKeepsInv(cfg, db, p.value);
    }
  }

  lemma EmptyDbInv(cfg: Settings)
    ensures Inv(cfg, EMPTY_DB)
  {}

  lemma {:induction false} ExecuteKeepsInv(cfg: Settings, db: Db, steps: seq<Step>)
    requires cfg.embedder.dim > 0 && Inv(cfg, db)
    ensures Inv(cfg, Execute(cfg, db, steps))
    decreases |steps|
  {
    hide Inv, Apply;
    if steps != [] {
      ApplyKeepsInv(cfg, db, steps[0]);
      ExecuteKeepsInv(cfg, Apply(cfg, db, steps[0]), steps[1..]);
    }
  }

  /** The invariant holds after every serial run of calls from the empty database. */
  lemma ReachableInv(cfg: Settings, steps: seq<Step>)
    requires cfg.embedder.dim > 0
    ensures Inv(cfg, Execute(cfg, EMPTY_DB, steps))
  {
    EmptyDbInv(cfg);
    ExecuteKeepsInv(cfg, EMPTY_DB, steps);
  }
}
