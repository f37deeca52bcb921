/** Tenants cannot see or change one another: search and metrics depend on an organisation's own rows only. */
module Tenancy {
  import opened Sequences
  import opened Models
  import opened Agent
  import opened Embedding
  import opened Retrieval
  import opened Transactions
  import opened History
  import opened Machine
  import opened MetricsService

  function EventIn(org: OrgId): TicketEvent -> bool { (e: TicketEvent) => e.org == org }
  function AuditIn(org: OrgId): AuditLog -> bool { (a: AuditLog) => a.org == org }
  function WebhookIn(org: OrgId): Webhook -> bool { (w: Webhook) => w.org == org }
  function DocumentIn(org: OrgId): Document -> bool { (d: Document) => d.org == org }

  /** Both databases hold the same rows of the organisation, in the same order. */
  ghost predicate AgreeOn(a: Db, b: Db, org: OrgId) {
    && Filter(a.tickets, TicketIn(org)) == Filter(b.tickets, TicketIn(org))
    && Filter(a.events, EventIn(org)) == Filter(b.events, EventIn(org))
    && Filter(a.runs, RunIn(org)) == Filter(b.runs, RunIn(org))
    && Filter(a.audit, AuditIn(org)) == Filter(b.audit, AuditIn(org))
    && Filter(a.webhooks, WebhookIn(org)) == Filter(b.webhooks, WebhookIn(org))
    && Filter(a.deliveries, DeliveryIn(org)) == Filter(b.deliveries, DeliveryIn(org))
    && Filter(a.documents, DocumentIn(org)) == Filter(b.documents, DocumentIn(org))
    && Filter(a.chunks, InOrg(org)) == Filter(b.chunks, InOrg(org))
  }

  lemma Narrowed<T>(a: seq<T>, b: seq<T>, wide: T -> bool, narrow: T -> bool)
    requires Filter(a, wide) == Filter(b, wide)
    requires forall x | x in a && narrow(x) :: wide(x)
    requires forall x | x in b && narrow(x) :: wide(x)
    ensures Filter(a, narrow) == Filter(b, narrow)
  {
    FilterNarrow(a, wide, narrow);
    FilterNarrow(b, wide, narrow);
  }

  lemma AgreeRows(a: Db, b: Db, org: OrgId)
    requires AgreeOn(a, b, org)
    ensures Filter(a.tickets, TicketIn(org)) == Filter(b.tickets, TicketIn(org))
    ensures Filter(a.runs, RunIn(org)) == Filter(b.runs, RunIn(org))
    ensures Filter(a.deliveries, DeliveryIn(org)) == Filter(b.deliveries, DeliveryIn(org))
    ensures Filter(a.chunks, InOrg(org)) == Filter(b.chunks, InOrg(org))
  {
    hide Filter;
  }

  /** Databases that agree on an organisation's rows give it the same search results and the same metrics. */
  lemma SameRowsSameAnswers(e: Embedder, a: Db, b: Db, org: OrgId, query: string, threshold: real, topK: int)
    requires e.dim > 0 && AgreeOn(a, b, org)
    ensures Search(e, a.chunks, org, query, threshold, topK) == Search(e, b.chunks, org, query, threshold, topK)
    ensures Compute(a, org) == Compute(b, org)
  {
    hide Filter, Rank, Rate, AgreeOn;
    AgreeRows(a, b, org);
    forall s: TicketStatus ensures CountStatus(a, org, s) == CountStatus(b, org, s) {
      Narrowed(a.tickets, b.tickets, TicketIn(org), TicketWith(org, s));
    }
    Narrowed(a.runs, b.runs, RunIn(org), RunWith(org, Completed));
    Narrowed(a.runs, b.runs, RunIn(org), RunWith(org, Failed));
    Narrowed(a.runs, b.runs, RunIn(org), RunTo(org, ToApproval));
    Narrowed(a.runs, b.runs, RunIn(org), RunTo(org, ToHuman));
    Narrowed(a.runs, b.runs, RunIn(org), RunHit(org));
    Narrowed(a.deliveries, b.deliveries, DeliveryIn(org), FailedDelivery(org));
    assert ByStatus(a, org) == ByStatus(b, org);
  }

  /** The organisation on whose behalf a call runs, if it runs at all. */
  function ActingOrg(db: Db, step: Step): Option<OrgId> {
    match step
    case CreateTicketStep(org, _, _, _, _) => Some(org)
    case AddDocumentStep(org, _, _, _) => Some(org)
    case StartRunStep(org, _, _) => Some(org)
    case ExecuteRunStep(r, _) => if r < |db.runs| then Some(db.runs[r].org) else None
    case ApproveStep(org, _, _, _, _) => Some(org)
    case RejectStep(org, _, _, _) => Some(org)
    case EditDraftStep(org, _, _, _) => Some(org)
    case UpsertConfigStep(org, _, _, _) => Some(org)
    case DeliverStep(d, _) => if d < |db.deliveries| then Some(db.deliveries[d].org) else None
  }

  lemma AppendForeign<T>(s: seq<T>, more: seq<T>, p: T -> bool)
    requires forall x | x in more :: !p(x)
    ensures Filter(s + more, p) == Filter(s, p)
  {
    FilterConcat(s, more, p);
    FilterNone(more, p);
  }

  lemma CommitAgrees(cfg: Settings, db: Db, p: Patch, org: OrgId)
    requires Applies(db, p) && PatchOk(cfg, p) && p.loaded == db.tickets[p.ticket] && p.loaded.org != org
    requires RunWriteOk(cfg, db, p.run) && (p.run.WriteRun? ==> db.runs[p.run.run].org != org)
    ensures AgreeOn(db, CommitPatch(db, p), org)
  {
    hide Filter, EventOk, RunOk;
    FilterUpdate(db.tickets, p.ticket, MergeTicket(db.tickets[p.ticket], p.loaded, p.row), TicketIn(org));
    AppendForeign(db.events, [p.event], EventIn(org));
    AppendForeign(db.audit, p.audits, AuditIn(org));
    if p.run.WriteRun? {
      FilterUpdate(db.runs, p.run.run, p.run.row, RunIn(org));
    }
  }

  lemma AgreeThen(a: Db, b: Db, c: Db, org: OrgId)
    requires AgreeOn(a, b, org) && AgreeOn(b, c, org)
    ensures AgreeOn(a, c, org)
  {}

  lemma DeliverAgrees(cfg: Settings, db: Db, d: Id, response: Response, org: OrgId)
    requires d < |db.deliveries| ==> db.deliveries[d].org != org
    ensures AgreeOn(db, DeliverOnce(cfg, db, d, response).0, org)
  {
    hide Filter;
    if d < |db.deliveries| && db.deliveries[d].webhook < |db.webhooks| {
      var row := AttemptedRow(db.deliveries[d], response, cfg.maxRetries);
      FilterUpdate(db.deliveries, d, row, DeliveryIn(org));
      AppendForeign(db.audit, if Delivered(response) then [SentAudit(d, row)] else [], AuditIn(org));
    }
  }

  lemma EnqueueAgrees(cfg: Settings, db: Db, t: Id, event: NoticeKind, env: NotifyEnv, org: OrgId)
    requires t < |db.tickets| && db.tickets[t].org != org
    ensures AgreeOn(db, Enqueue(cfg, db, t, event, env).0, org)
  {
    hide Filter, DeliverOnce, FindWebhook;
    var ticket := db.tickets[t];
    var w := FindWebhook(db.webhooks, ticket.org);
    if !env.fault.BeforeInsert? && w.Some? && db.webhooks[w.value].isActive {
      var id := |db.deliveries|;
      var row := Delivery(w.value, ticket.org, event, TicketPayload(t, ticket, event, id), Pending, 0, None, None);
      var added := db.(deliveries := db.deliveries + [row]);
      AppendForeign(db.deliveries, [row], DeliveryIn(org));
      DeliverAgrees(cfg, added, id, env.response, org);
      if !env.fault.AfterInsert? && cfg.dispatchEnabled && cfg.deliveryEager {
        AgreeThen(db, added, DeliverOnce(cfg, added, id, env.response).0, org);
      }
    }
  }

  lemma FailRunAgrees(db: Db, r: Id, error: Error, org: OrgId)
    requires r < |db.runs| && db.runs[r].org != org
    ensures AgreeOn(db, FailRun(db, r, error), org)
  {
    hide Filter;
    FilterUpdate(db.runs, r, db.runs[r].(status := Failed, error := Some(error)), RunIn(org));
  }

  lemma ExecuteRunAgrees(cfg: Settings, db: Db, r: Id, env: RunEnv, org: OrgId)
    requires cfg.embedder.dim > 0 && RunsRefer(db) && (r < |db.runs| ==> db.runs[r].org != org)
    ensures AgreeOn(db, ExecuteRun(cfg, db, r, env), org)
  {
    hide ExecutePatch, Enqueue, PatchOk, RunWriteOk, FailRun, AgreeOn, MergeTicket;
    if r < |db.runs| {
      var t := db.runs[r].ticket;
      ExecutePatchOk(cfg, db, r, db.tickets[t], env);
      match ExecutePatch(cfg, db, r, db.tickets[t], env) {
        case Err(e) => FailRunAgrees(db, r, e, org);
        case Ok(p) =>
          var moved := CommitPatch(db, p);
          CommitAgrees(cfg, db, p, org);
          CommitKeepsOrgs(cfg, db, p);
          AfterRunAgrees(cfg, moved, r, t, PatchEscalates(p), env, org);
          AgreeThen(db, moved, AfterRunCommit(cfg, moved, r, t, PatchEscalates(p), env), org);
      }
    } else {
      AgreeSelf(db, org);
    }
  }

  lemma AgreeSelf(db: Db, org: OrgId)
    ensures AgreeOn(db, db, org)
  {}

  lemma CommitKeepsOrgs(cfg: Settings, db: Db, p: Patch)
    requires Applies(db, p) && RunWriteOk(cfg, db, p.run)
    ensures var db' := CommitPatch(db, p);
            && |db'.tickets| == |db.tickets| && |db'.runs| == |db.runs|
            && (forall t | 0 <= t < |db.tickets| :: db'.tickets[t].org == db.tickets[t].org)
            && (forall r | 0 <= r < |db.runs| :: db'.runs[r].org == db.runs[r].org)
  {
    hide RunOk;
  }

  lemma AfterRunAgrees(cfg: Settings, db: Db, r: Id, t: Id, escalated: bool, env: RunEnv, org: OrgId)
    requires r < |db.runs| && t < |db.tickets| && db.runs[r].org != org && db.tickets[t].org != org
    ensures AgreeOn(db, AfterRunCommit(cfg, db, r, t, escalated, env), org)
  {
    hide Enqueue, FailRun, AgreeOn;
    if env.refreshFault.Some? {
      FailRunAgrees(db, r, Fault(env.refreshFault.value), org);
    } else if escalated {
      var (notified, error) := Enqueue(cfg, db, t, TicketEscalatedNotice, env.notify);
      EnqueueAgrees(cfg, db, t, TicketEscalatedNotice, env.notify, org);
      EnqueueKeeps(cfg, db, t, TicketEscalatedNotice, env.notify);
      if error.Some? {
        FailRunAgrees(notified, r, error.value, org);
        AgreeThen(db, notified, FailRun(notified, r, error.value), org);
      }
    } else {
      AgreeSelf(db, org);
    }
  }

  lemma ApproveAgrees(cfg: Settings, db: Db, t: Id, actor: UserId, edited: Option<string>, notify: NotifyEnv, org: OrgId)
    requires t < |db.tickets| && db.tickets[t].org != org
    ensures AgreeOn(db, Approve(cfg, db, t, actor, edited, notify), org)
  {
    hide Enqueue, PatchOk, AgreeOn, ApprovePatch, MergeTicket;
    ApprovePatchOk(cfg, t, db.tickets[t], actor, edited);
    match ApprovePatch(t, db.tickets[t], actor, edited) {
      case Err(_) => AgreeSelf(db, org);
      case Ok(p) =>
        var moved := CommitPatch(db, p);
        CommitAgrees(cfg, db, p, org);
        CommitKeepsOrgs(cfg, db, p);
        EnqueueAgrees(cfg, moved, t, TicketApprovedNotice, notify, org);
        AgreeThen(db, moved, Enqueue(cfg, moved, t, TicketApprovedNotice, notify).0, org);
    }
  }

  lemma CreateTicketAgrees(db: Db, other: OrgId, actor: UserId, title: string, description: string, priority: Priority, org: OrgId)
    requires other != org
    ensures AgreeOn(db, CreateTicket(db, other, actor, title, description, priority), org)
  {
    hide Filter;
    var db' := CreateTicket(db, other, actor, title, description, priority);
    AppendForeign(db.tickets, [db'.tickets[|db.tickets|]], TicketIn(org));
    AppendForeign(db.events, [db'.events[|db.events|]], EventIn(org));
    AppendForeign(db.audit, [db'.audit[|db.audit|]], AuditIn(org));
  }

  lemma StartRunAgrees(db: Db, t: Id, actor: Option<UserId>, org: OrgId)
    requires t < |db.tickets| && db.tickets[t].org != org
    ensures AgreeOn(db, StartRun(db, t, actor), org)
  {
    hide Filter;
    var db' := StartRun(db, t, actor);
    AppendForeign(db.runs, [db'.runs[|db.runs|]], RunIn(org));
    AppendForeign(db.audit, [db'.audit[|db.audit|]], AuditIn(org));
  }

  lemma AddDocumentAgrees(cfg: Settings, db: Db, other: OrgId, actor: UserId, title: string, content: string, org: OrgId)
    requires cfg.embedder.dim > 0 && other != org
    ensures AgreeOn(db, AddDocument(cfg, db, other, actor, title, content), org)
  {
    hide Filter, Embedder.Embed;
    var db' := AddDocument(cfg, db, other, actor, title, content);
    AppendForeign(db.documents, [db'.documents[|db.documents|]], DocumentIn(org));
    AppendForeign(db.chunks, db'.chunks[|db.chunks|..], InOrg(org));
    assert db'.chunks == db.chunks + db'.chunks[|db.chunks|..];
  }

  lemma UpsertAgrees(db: Db, other: OrgId, url: string, secret: string, isActive: bool, org: OrgId)
    requires other != org
    ensures AgreeOn(db, UpsertConfig(db, other, url, secret, isActive), org)
  {
    hide Filter, FindWebhook;
    match FindWebhook(db.webhooks, other) {
      case None => AppendForeign(db.webhooks, [Webhook(other, url, secret, isActive)], WebhookIn(org));
      case Some(w) =>
        FilterUpdate(db.webhooks, w, db.webhooks[w].(url := url, secret := secret, isActive := isActive), WebhookIn(org));
    }
  }

  /** A call for another organisation leaves this one's rows as they are. */
  lemma ApplyAgrees(cfg: Settings, db: Db, step: Step, org: OrgId)
    requires cfg.embedder.dim > 0 && RunsRefer(db) && ActingOrg(db, step) != Some(org)
    ensures AgreeOn(db, Apply(cfg, db, step), org)
  {
    hide AgreeOn, CreateTicket, AddDocument, StartRun, ExecuteRun, Approve, RejectPatch,
      EditPatch, UpsertConfig, DeliverOnce, PatchOk, MergeTicket;
    AgreeSelf(db, org);
    match step {
      case CreateTicketStep(o, actor, title, description, priority) =>
        CreateTicketAgrees(db, o, actor, title, description, priority, org);
      case AddDocumentStep(o, actor, title, content) => AddDocumentAgrees(cfg, db, o, actor, title, content, org);
      case StartRunStep(o, actor, t) => if Visible(db, o, t) { StartRunAgrees(db, t, Some(actor), org); }
      case ExecuteRunStep(r, env) => ExecuteRunAgrees(cfg, db, r, env, org);
      case ApproveStep(o, actor, t, edited, notify) =>
        if Visible(db, o, t) { ApproveAgrees(cfg, db, t, actor, edited, notify, org); }
      case RejectStep(o, actor, t, reason) =>
        if Visible(db, o, t) {
          RejectPatchOk(cfg, t, db.tickets[t], actor, reason);
          var p := RejectPatch(t, db.tickets[t], actor, reason);
          if p.Ok? { CommitAgrees(cfg, db, p.value, org); }
        }
      case EditDraftStep(o, actor, t, content) =>
        if Visible(db, o, t) {
          EditPatchOk(cfg, t, db.tickets[t], actor, content);
          var p := EditPatch(t, db.tickets[t], actor, content);
          if p.Ok? { CommitAgrees(cfg, db, p.value, org); }
        }
      case UpsertConfigStep(o, url, secret, isActive) => UpsertAgrees(db, o, url, secret, isActive, org);
      case DeliverStep(d, response) => DeliverAgrees(cfg, db, d, response, org);
    }
  }

  ghost predicate OnlyOthersAct(cfg: Settings, db: Db, steps: seq<Step>, org: OrgId)
    requires cfg.embedder.dim > 0
    decreases |steps|
  {
    steps == [] || (ActingOrg(db, steps[0]) != Some(org) && OnlyOthersAct(cfg, Apply(cfg, db, steps[0]), steps[1..], org))
  }

  lemma {:induction false} OthersPreserveRows(cfg: Settings, db: Db, steps: seq<Step>, org: OrgId)
    requires cfg.embedder.dim > 0 && Inv(cfg, db) && OnlyOthersAct(cfg, db, steps, org)
    ensures AgreeOn(db, Execute(cfg, db, steps), org)
    decreases |steps|
  {
    hide Apply, AgreeOn, Inv;
    if steps == [] {
      AgreeSelf(db, org);
    } else {
      InvRefers(cfg, db);
      ApplyAgrees(cfg, db, steps[0], org);
      ApplyKeepsInv(cfg, db, steps[0]);
      OthersPreserveRows(cfg, Apply(cfg, db, steps[0]), steps[1..], org);
      AgreeThen(db, Apply(cfg, db, steps[0]), Execute(cfg, db, steps), org);
    }
  }

  lemma InvRefers(cfg: Settings, db: Db)
    requires Inv(cfg, db)
    ensures RunsRefer(db)
  {}

  /** Whatever other organisations do, in any order, this one's search results and metrics stay the same. */
  lemma NonInterference(cfg: Settings, before: seq<Step>, others: seq<Step>, org: OrgId, query: string, threshold: real, topK: int)
    requires cfg.embedder.dim > 0
    requires OnlyOthersAct(cfg, Execute(cfg, EMPTY_DB, before), others, org)
    ensures var db := Execute(cfg, EMPTY_DB, before);
            var db' := Execute(cfg, db, others);
            && Search(cfg.embedder, db'.chunks, org, query, threshold, topK) == Search(cfg.embedder, db.chunks, org, query, threshold, topK)
            && Compute(db', org) == Compute(db, org)
  {
    hide AgreeOn, Inv, Execute, Search, Compute, OnlyOthersAct;
    ReachableInv(cfg, before);
    var db := Execute(cfg, EMPTY_DB, before);
    OthersPreserveRows(cfg, db, others, org);
    SameRowsSameAnswers(cfg.embedder, db, Execute(cfg, db, others), org, query, threshold, topK);
  }
}
