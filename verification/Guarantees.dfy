/** What the invariant means for a reader: histories, human approval, audit counts, atomic runs, webhook notices. */
module Guarantees {
  import opened Sequences
  import opened Text
  import opened Models
  import opened Agent
  import opened Transactions
  import opened History
  import opened Machine
  import opened Embedding
  import Chunking

  lemma TicketOkAfter(cfg: Settings, steps: seq<Step>, t: Id)
    requires cfg.embedder.dim > 0 && t < |Execute(cfg, EMPTY_DB, steps).tickets|
    ensures TicketOk(cfg, ViewOf(Execute(cfg, EMPTY_DB, steps), t))
  {
    hide TicketOk, ViewOf, Execute;
    ReachableInv(cfg, steps);
  }

  // ----- the history of a ticket

  /** After any serial run, a ticket's status events lead from `new` over legal edges to its current status. */
  lemma HistoryIsLegalPath(cfg: Settings, steps: seq<Step>, t: Id)
    requires cfg.embedder.dim > 0 && t < |Execute(cfg, EMPTY_DB, steps).tickets|
    ensures var db := Execute(cfg, EMPTY_DB, steps);
            var h := StatusEvents(Filter(db.events, OfTicket(t)));
            && Path(h, db.tickets[t].status)
            && Reachable(db.tickets[t].status)
            && forall e | e in h :: Reachable(e.to.value)
  {
    hide Filter, Execute, LogOk, FinalOk, NoticeOk;
    TicketOkAfter(cfg, steps, t);
    var v := ViewOf(Execute(cfg, EMPTY_DB, steps), t);
    LogShapes(cfg, v);
    assert FinalOk(v);
    FinalShapes(v);
  }

  lemma LogShapes(cfg: Settings, v: View)
    requires LogOk(cfg, v)
    ensures forall e | e in StatusEvents(v.events) :: e.to.Some? && Reachable(e.to.value)
  {
    hide Filter, CanTransition;
  }

  lemma FinalShapes(v: View)
    requires FinalOk(v)
    ensures Reachable(v.row.status)
  {}

  // ----- a final response is a human's

  /** The agent's entry into waiting_approval directly before the only approval. */
  ghost predicate HumanApproved(cfg: Settings, v: View) {
    var h, agent, drafts := StatusEvents(v.events), Filter(v.events, IsKind(AgentRunEvent)), Filter(v.audits, IsAudit(DraftGenerated));
    && |h| >= 2
    && h[|h| - 1].kind == ApprovedEvent && h[|h| - 1].actor.Some? && h[|h| - 1].from == Some(WaitingApproval)
    && h[|h| - 2].kind == AgentRunEvent && h[|h| - 2].to == Some(WaitingApproval)
    && agent != [] && agent[|agent| - 1] == h[|h| - 2]
    && |drafts| == |agent| && drafts[|drafts| - 1].meta.ConfidenceMeta?
    && drafts[|drafts| - 1].meta.confidence >= cfg.confidenceThreshold
    && |Filter(v.events, IsKind(ApprovedEvent))| == 1
  }

  lemma AgentEventsInPath(cfg: Settings, v: View)
    requires LogOk(cfg, v)
    ensures Filter(StatusEvents(v.events), IsKind(AgentRunEvent)) == Filter(v.events, IsKind(AgentRunEvent))
  {
    hide Filter, CanTransition;
    FilterNarrow(v.events, HasTarget(), IsKind(AgentRunEvent));
  }

  lemma LastTwo(h: seq<TicketEvent>, f: TicketEvent -> bool)
    requires |h| >= 2 && f(h[|h| - 2]) && !f(h[|h| - 1])
    ensures Filter(h, f) != [] && Filter(h, f)[|Filter(h, f)| - 1] == h[|h| - 2]
  {
    hide Filter;
    var x, y := h[|h| - 2], h[|h| - 1];
    var rest, most := h[..|h| - 2], h[..|h| - 1];
    FilterAppend(most, y, f);
    FilterAppend(rest, x, f);
    assert most + [y] == h && rest + [x] == most;
    assert Filter(h, f) == Filter(rest, f) + [x];
  }

  lemma EventsAreOk(cfg: Settings, v: View)
    requires LogOk(cfg, v)
    ensures forall e | e in v.events :: EventOk(e)
    ensures SameDecisions(cfg, Filter(v.events, IsKind(AgentRunEvent)), Filter(v.audits, IsAudit(DraftGenerated)))
  {
    hide Filter, EventOk, SameActors, SameDecisions;
  }

  /** The path into `approved` ends with an agent run and the approval. */
  lemma PathIntoApproved(h: seq<TicketEvent>)
    requires Path(h, Approved) && forall e | e in h :: EventOk(e)
    ensures |h| >= 2
    ensures var last, before := h[|h| - 1], h[|h| - 2];
            && last.kind == ApprovedEvent && last.actor.Some? && last.from == Some(WaitingApproval)
            && before.kind == AgentRunEvent && before.to == Some(WaitingApproval)
  {
    hide CanTransition;
    assert EventOk(h[|h| - 1]);
    assert |h| >= 2;
    assert EventOk(h[|h| - 2]);
  }

  lemma ApprovedIsHuman(cfg: Settings, v: View)
    requires LogOk(cfg, v) && ChainOk(v) && FinalOk(v) && v.row.status == Approved
    ensures HumanApproved(cfg, v)
  {
    hide Filter, CanTransition, LogOk, Path, EventOk, Blank;
    var h := StatusEvents(v.events);
    EventsAreOk(cfg, v);
    PathIntoApproved(h);
    AgentEventsInPath(cfg, v);
    LastTwo(h, IsKind(AgentRunEvent));
  }

  /**
   * Human in the loop, over every serial run: a final response exists exactly on approved tickets, is not blank, and was
   * approved once, by a user, directly after an agent run whose audited confidence reached the threshold.
   */
  lemma FinalResponseIsApproved(cfg: Settings, steps: seq<Step>, t: Id)
    requires cfg.embedder.dim > 0 && t < |Execute(cfg, EMPTY_DB, steps).tickets|
    ensures var v := ViewOf(Execute(cfg, EMPTY_DB, steps), t);
            && (v.row.final.Some? <==> v.row.status == Approved)
            && (v.row.final.Some? ==> !Blank(v.row.final.value) && HumanApproved(cfg, v))
            && (v.row.final.None? ==> Filter(v.events, IsKind(ApprovedEvent)) == [])
  {
    hide Filter, Execute, LogOk, ChainOk, ViewOf, Blank, HumanApproved;
    TicketOkAfter(cfg, steps, t);
    var v := ViewOf(Execute(cfg, EMPTY_DB, steps), t);
    if v.row.status == Approved {
      ApprovedIsHuman(cfg, v);
    }
  }

  // ----- one call changes a ticket by at most one transaction, and logs only grow

  ghost predicate OnePatch(cfg: Settings, before: Ticket, after: Ticket) {
    after == before || exists p: Patch :: PatchOk(cfg, p) && p.loaded == before && p.row == after
  }

  ghost predicate Grows(cfg: Settings, db: Db, db': Db) {
    && db.events <= db'.events && db.audit <= db'.audit
    && |db.tickets| <= |db'.tickets|
    && forall t | 0 <= t < |db.tickets| :: OnePatch(cfg, db.tickets[t], db'.tickets[t])
  }

  lemma CommitGrows(cfg: Settings, db: Db, p: Patch)
    requires Applies(db, p) && PatchOk(cfg, p) && p.loaded == db.tickets[p.ticket]
    ensures Grows(cfg, db, CommitPatch(db, p))
  {
    hide EventOk, CanTransition, Blank, Decide;
    assert MergeTicket(p.loaded, p.loaded, p.row) == p.row;
  }

  lemma GrowsThen(cfg: Settings, a: Db, b: Db, c: Db)
    requires Grows(cfg, a, b) && c.tickets == b.tickets && b.events <= c.events && b.audit <= c.audit
    ensures Grows(cfg, a, c)
  {}

  lemma EnqueueGrows(cfg: Settings, db: Db, t: Id, event: NoticeKind, env: NotifyEnv)
    requires t < |db.tickets|
    ensures var db' := Enqueue(cfg, db, t, event, env).0;
            db'.tickets == db.tickets && db'.events == db.events && db.audit <= db'.audit
  {}

  lemma AfterRunGrows(cfg: Settings, db: Db, r: Id, t: Id, escalated: bool, env: RunEnv)
    requires r < |db.runs| && t < |db.tickets|
    ensures var db' := AfterRunCommit(cfg, db, r, t, escalated, env);
            db'.tickets == db.tickets && db'.events == db.events && db.audit <= db'.audit
  {
    hide Enqueue;
    EnqueueGrows(cfg, db, t, TicketEscalatedNotice, env.notify);
    EnqueueKeeps(cfg, db, t, TicketEscalatedNotice, env.notify);
  }

  /** Event and audit rows are never removed or changed, and a ticket changes by one transaction at a time. */
  lemma ApplyGrows(cfg: Settings, db: Db, step: Step)
    requires cfg.embedder.dim > 0
    ensures Grows(cfg, db, Apply(cfg, db, step))
  {
    hide PatchOk, CommitPatch, Enqueue, ExecutePatch, AfterRunCommit, Blank, AddDocument, RejectPatch, EditPatch;
    match step {
      case ExecuteRunStep(r, env) =>
        if r < |db.runs| && db.runs[r].ticket < |db.tickets| {
          var t := db.runs[r].ticket;
          ExecutePatchOk(cfg, db, r, db.tickets[t], env);
          var p := ExecutePatch(cfg, db, r, db.tickets[t], env);
          if p.Ok? {
            CommitGrows(cfg, db, p.value);
            CommitSizes(db, p.value);
            AfterRunGrows(cfg, CommitPatch(db, p.value), r, t, PatchEscalates(p.value), env);
            GrowsThen(cfg, db, CommitPatch(db, p.value), Apply(cfg, db, step));
          }
        }
      case ApproveStep(org, actor, t, edited, notify) =>
        if t < |db.tickets| {
          ApprovePatchOk(cfg, t, db.tickets[t], actor, edited);
          var p := ApprovePatch(t, db.tickets[t], actor, edited);
          if p.Ok? {
            CommitGrows(cfg, db, p.value);
            CommitSizes(db, p.value);
            EnqueueGrows(cfg, CommitPatch(db, p.value), t, TicketApprovedNotice, notify);
            GrowsThen(cfg, db, CommitPatch(db, p.value), Approve(cfg, db, t, actor, edited, notify));
          }
        }
      case RejectStep(org, actor, t, reason) =>
        if t < |db.tickets| {
          RejectPatchOk(cfg, t, db.tickets[t], actor, reason);
          var p := RejectPatch(t, db.tickets[t], actor, reason);
          if p.Ok? { CommitGrows(cfg, db, p.value); }
        }
      case EditDraftStep(org, actor, t, content) =>
        if t < |db.tickets| {
          EditPatchOk(cfg, t, db.tickets[t], actor, content);
          var p := EditPatch(t, db.tickets[t], actor, content);
          if p.Ok? { CommitGrows(cfg, db, p.value); }
        }
      case AddDocumentStep(_, _, _, _) => AddDocumentGrows(cfg, db, step);
      case _ =>
    }
  }

  lemma AddDocumentGrows(cfg: Settings, db: Db, step: Step)
    requires cfg.embedder.dim > 0 && step.AddDocumentStep?
    ensures var db' := Apply(cfg, db, step);
            db'.tickets == db.tickets && db'.events == db.events && db'.audit == db.audit
  {}

  lemma PatchOfApproved(cfg: Settings, before: Ticket, after: Ticket)
    requires OnePatch(cfg, before, after) && before.status == Approved
    ensures after.status == Approved && after.final == before.final
  {
    hide Blank, Decide;
    if after != before {
      var p: Patch :| PatchOk(cfg, p) && p.loaded == before && p.row == after;
    }
  }

  /** An approved ticket keeps its status and its final response through every later call. */
  lemma {:induction false} ApprovalIsFinal(cfg: Settings, db: Db, steps: seq<Step>, t: Id)
    requires cfg.embedder.dim > 0 && t < |db.tickets| && db.tickets[t].status == Approved
    ensures var db' := Execute(cfg, db, steps);
            t < |db'.tickets| && db'.tickets[t].status == Approved && db'.tickets[t].final == db.tickets[t].final
    decreases |steps|
  {
    hide Apply, OnePatch;
    if steps != [] {
      ApplyGrows(cfg, db, steps[0]);
      PatchOfApproved(cfg, db.tickets[t], Apply(cfg, db, steps[0]).tickets[t]);
      ApprovalIsFinal(cfg, Apply(cfg, db, steps[0]), steps[1..], t);
    }
  }

  /** The event and audit tables are append-only over every run. */
  lemma {:induction false} LogsAppendOnly(cfg: Settings, db: Db, steps: seq<Step>)
    requires cfg.embedder.dim > 0
    ensures db.events <= Execute(cfg, db, steps).events && db.audit <= Execute(cfg, db, steps).audit
    decreases |steps|
  {
    hide Apply, OnePatch;
    if steps != [] {
      ApplyGrows(cfg, db, steps[0]);
      LogsAppendOnly(cfg, Apply(cfg, db, steps[0]), steps[1..]);
    }
  }

  // ----- audit rows and events

  /** Along a path a status is left once for each time it was entered, except for a stay that has not ended. */
  lemma {:induction false} PathBalance(h: seq<TicketEvent>, status: TicketStatus, s: TicketStatus)
    requires Path(h, status)
    ensures |Filter(h, Reaches(s))| == |Filter(h, Leaves(s))| + if status == s then 1 else 0
    decreases |h|
  {
    hide Filter, CanTransition;
    var init, last := h[..|h| - 1], h[|h| - 1];
    assert h == init + [last];
    FilterAppend(init, last, Reaches(s));
    FilterAppend(init, last, Leaves(s));
    if |h| == 1 {
      FilterAll(init, Reaches(s));
      FilterAll(init, Leaves(s));
    } else {
      PathBalance(init, init[|init| - 1].to.value, s);
    }
  }

  function IsDecision(): TicketEvent -> bool { (e: TicketEvent) => e.kind == ApprovedEvent || e.kind == RejectedEvent }

  /** Leaving a status bears a status; only human decisions carry the kinds counted here, and they leave waiting_approval. */
  lemma DecisionEvents(cfg: Settings, v: View)
    requires LogOk(cfg, v)
    ensures forall e | e in v.events && e.from.Some? :: e.to.Some?
    ensures forall e | e in v.events && IsDecision()(e) :: e.from == Some(WaitingApproval)
  {
    hide Filter, CanTransition, SameActors, SameDecisions;
  }

  lemma DecisionsBounded(cfg: Settings, v: View)
    requires LogOk(cfg, v) && ChainOk(v)
    ensures |Filter(v.events, IsKind(ApprovedEvent))| + |Filter(v.events, IsKind(RejectedEvent))|
          + (if v.row.status == WaitingApproval then 1 else 0) <= |Filter(v.events, Reaches(WaitingApproval))|
  {
    hide Filter, LogOk, Path;
    var h, w := StatusEvents(v.events), WaitingApproval;
    DecisionEvents(cfg, v);
    PathBalance(h, v.row.status, w);
    FilterNarrow(v.events, HasTarget(), Reaches(w));
    FilterNarrow(v.events, HasTarget(), Leaves(w));
    FilterSplit(v.events, IsDecision(), IsKind(ApprovedEvent), IsKind(RejectedEvent));
    FilterFewer(v.events, IsDecision(), Leaves(w));
  }

  lemma {:induction false} AlignedFilters<A, B>(a: seq<A>, b: seq<B>, p: A -> bool, q: B -> bool)
    requires |a| == |b| && forall i | 0 <= i < |a| :: p(a[i]) == q(b[i])
    ensures |Filter(a, p)| == |Filter(b, q)|
  {
    if a != [] {
      AlignedFilters(a[..|a| - 1], b[..|b| - 1], p, q);
    }
  }

  lemma {:induction false} FilterCommutes<T>(s: seq<T>, p: T -> bool, q: T -> bool)
    ensures Filter(Filter(s, p), q) == Filter(Filter(s, q), p)
  {
    if s != [] {
      var init, x := s[..|s| - 1], s[|s| - 1];
      FilterCommutes(init, p, q);
      FilterAppend(Filter(init, p), x, q);
      FilterAppend(Filter(init, q), x, p);
    }
  }

  function RunOf(t: Id): AgentRun -> bool { (r: AgentRun) => r.ticket == t }

  lemma StartsPerTicket(db: Db, t: Id)
    requires StartsOk(db)
    ensures |Filter(Filter(db.audit, AboutTicket(t)), IsAudit(AgentRunStarted))| == |Filter(db.runs, RunOf(t))|
  {
    FilterCommutes(db.audit, AboutTicket(t), IsAudit(AgentRunStarted));
    AlignedFilters(Starts(db), db.runs, AboutTicket(t), RunOf(t));
  }

  /** Audit rows and history agree on every ticket after every serial run. */
  lemma AuditConservation(cfg: Settings, steps: seq<Step>, t: Id)
    requires cfg.embedder.dim > 0 && t < |Execute(cfg, EMPTY_DB, steps).tickets|
    ensures var db := Execute(cfg, EMPTY_DB, steps);
            var v := ViewOf(db, t);
            && |Filter(v.audits, IsAudit(RetrievalCompleted))| == |Filter(v.audits, IsAudit(DraftGenerated))|
                 == |Filter(v.events, IsKind(AgentRunEvent))|
            && |Filter(v.audits, IsAudit(TicketEscalated))| == |Filter(v.events, Reaches(Escalated))|
            && SameActors(Filter(v.events, IsKind(ApprovedEvent)), Filter(v.audits, IsAudit(ResponseApprovedAudit)))
            && SameActors(Filter(v.events, IsKind(RejectedEvent)), Filter(v.audits, IsAudit(ResponseRejectedAudit)))
            && SameDecisions(cfg, Filter(v.events, IsKind(AgentRunEvent)), Filter(v.audits, IsAudit(DraftGenerated)))
            && |Filter(v.audits, IsAudit(AgentRunStarted))| == |Filter(db.runs, RunOf(t))|
            && |Filter(v.events, IsKind(ApprovedEvent))| + |Filter(v.events, IsKind(RejectedEvent))|
                 <= |Filter(v.events, Reaches(WaitingApproval))|
  {
    hide Filter, Execute, ChainOk, FinalOk, NoticeOk, RunsOk, WellFormed, TicketsOk, StartsOk, EventOk;
    TicketOkAfter(cfg, steps, t);
    ReachableInv(cfg, steps);
    var db := Execute(cfg, EMPTY_DB, steps);
    DecisionsBounded(cfg, ViewOf(db, t));
    StartsPerTicket(db, t);
  }

  // ----- one execution of a run

  /** The run is marked failed with the error, and nothing else has changed. */
  ghost predicate OnlyRunFailed(db: Db, db': Db, r: Id, e: Error)
    requires r < |db.runs|
  {
    db' == db.(runs := db.runs[r := db.runs[r].(status := Failed, error := Some(e))])
  }

  /** The organisation has configured a webhook and left it active. */
  predicate ActiveWebhook(db: Db, org: OrgId) {
    var w := FindWebhook(db.webhooks, org);
    w.Some? && db.webhooks[w.value].isActive
  }

  /** The notification stage raises: before it inserts a row, or after it inserted one. */
  predicate NotifyRaises(db: Db, org: OrgId, env: NotifyEnv) {
    env.fault.BeforeInsert? || (env.fault.AfterInsert? && ActiveWebhook(db, org))
  }

  /**
   * What the notification stage adds to the deliveries and the audit log: one row with the ticket's columns if the
   * webhook is active, attempted once if delivery is eager.
   */
  ghost predicate Noticed(cfg: Settings, db: Db, deliveries: seq<Delivery>, audit: seq<AuditLog>, t: Id, ticket: Ticket,
                          event: NoticeKind, env: NotifyEnv)
  {
    var w, id := FindWebhook(db.webhooks, ticket.org), |db.deliveries|;
    if env.fault.BeforeInsert? || !ActiveWebhook(db, ticket.org) then deliveries == db.deliveries && audit == db.audit
    else
      var attempted := env.fault.NoFault? && cfg.dispatchEnabled && cfg.deliveryEager;
      var sent := attempted && Delivered(env.response);
      && |deliveries| == id + 1 && deliveries[..id] == db.deliveries
      && var d := deliveries[id];
      && d.webhook == w.value && d.org == ticket.org && d.event == event
      && d.payload == Payload(event, id, ticket.org, t, ticket.title, ticket.status, ticket.priority, ticket.final)
      && d.attempts == (if attempted then 1 else 0)
      && d.status == (if sent then Success else if attempted && cfg.maxRetries <= 1 then Undelivered else Pending)
      && d.lastStatusCode == (if attempted && env.response.HttpStatus? then Some(env.response.code) else None)
      && d.lastError == (if attempted && env.response.NetworkError? then Some(env.response.message) else None)
      && audit == db.audit + if sent then [AuditLog(WebhookSent, ticket.org, None, OnDelivery(id), SentMeta(event, d.lastStatusCode))] else []
  }

  lemma EnqueueNotices(cfg: Settings, db: Db, t: Id, event: NoticeKind, env: NotifyEnv)
    requires t < |db.tickets|
    ensures var db' := Enqueue(cfg, db, t, event, env).0;
            && db' == db.(deliveries := db'.deliveries, audit := db'.audit)
            && Noticed(cfg, db, db'.deliveries, db'.audit, t, db.tickets[t], event, env)
  {
    hide FindWebhook;
    assert db.audit + [] == db.audit;
  }

  /** The committed move: one legal edge, one event, the run's columns, the audit rows, and the escalation's notice. */
  ghost predicate RunMoved(cfg: Settings, db: Db, db': Db, r: Id, st: AgentState, env: RunEnv)
    requires r < |db.runs| && db.runs[r].ticket < |db.tickets|
    requires |db'.tickets| == |db.tickets| && |db'.runs| == |db.runs|
  {
    var t := db.runs[r].ticket;
    var row, row', run, run' := db.tickets[t], db'.tickets[t], db.runs[r], db'.runs[r];
    var to := TargetStatus(st.outcome);
    var audit := db.audit
      + [AuditLog(RetrievalCompleted, row.org, None, OnTicket(t), RetrievalMeta(|st.retrieved|, st.retrievalHit)),
         AuditLog(DraftGenerated, row.org, None, OnTicket(t), ConfidenceMeta(st.confidence))]
      + if to == Escalated then [AuditLog(TicketEscalated, row.org, None, OnTicket(t), ConfidenceMeta(st.confidence))] else [];
    && CanTransition(row.status, to)
    && db' == db.(tickets := db.tickets[t := row'], runs := db.runs[r := run'], events := db'.events,
                  audit := db'.audit, deliveries := db'.deliveries)
    && row' == row.(status := to, draft := st.draft, suggestedType := row'.suggestedType, suggestedPriority := row'.suggestedPriority)
    && (st.classification.Some? ==>
          row'.suggestedType == Some(st.classification.value.kind) == run'.classification
          && row'.suggestedPriority == Some(st.classification.value.priority))
    && db'.events == db.events + [TicketEvent(t, row.org, AgentRunEvent, Some(row.status), Some(to), None,
         if to == WaitingApproval then DraftReadyForApproval else LowConfidence)]
    && (if to == Escalated && env.refreshFault.None?
        then Noticed(cfg, db.(audit := audit), db'.deliveries, db'.audit, t, row', TicketEscalatedNotice, env.notify)
        else db'.deliveries == db.deliveries && db'.audit == audit)
    && run'.outcome == Some(st.outcome) && run'.confidence == Some(st.confidence)
    && run'.draft == st.draft && run'.retrievalHit == st.retrievalHit
    && |run'.chunkIds| == |st.retrieved|
    && (forall i | 0 <= i < |st.retrieved| :: run'.chunkIds[i] == st.retrieved[i].chunkId)
    && run'.promptTokens == st.promptTokens && run'.completionTokens == st.completionTokens
    && run'.latencyMs == Some(env.latencyMs) && run'.cost == Some(env.cost)
    && run'.ticket == run.ticket && run'.org == run.org
    && run'.status in {Completed, Failed}
    && (run'.status == Completed ==> run'.error == run.error)
    && (run'.status == Failed ==>
          (env.refreshFault.None? ==> !env.notify.fault.NoFault?) && run'.error == Some(Fault(if env.refreshFault.Some? then env.refreshFault.value else env.notify.fault.message)))
  }

  /** The transaction of the move, before anything that follows its commit. */
  lemma RunPatchMoves(db: Db, r: Id, st: AgentState, env: RunEnv)
    requires r < |db.runs| && db.runs[r].ticket < |db.tickets|
    requires CanTransition(db.tickets[db.runs[r].ticket].status, TargetStatus(st.outcome))
    ensures var t := db.runs[r].ticket;
            var p := RunPatch(t, db.tickets[t], r, db.runs[r], st, env.latencyMs, env.cost);
            p.Ok? && Applies(db, p.value)
            && var moved := CommitPatch(db, p.value);
            && moved == db.(tickets := db.tickets[t := moved.tickets[t]], runs := db.runs[r := moved.runs[r]],
                            events := moved.events, audit := moved.audit)
            && moved.tickets[t] == Suggested(db.tickets[t], st).(status := TargetStatus(st.outcome))
            && moved.runs[r] == FinishedRun(db.runs[r], st, env.latencyMs, env.cost)
            && moved.tickets[t].org == db.tickets[t].org && moved.runs[r].status == Completed
            && moved.events == db.events + [StatusEvent(t, db.tickets[t], TargetStatus(st.outcome), None, AgentRunEvent,
                 if st.outcome.ToApproval? then DraftReadyForApproval else LowConfidence)]
            && moved.audit == db.audit + RunAudits(t, db.tickets[t], st)
            && (PatchEscalates(p.value) <==> st.outcome == ToHuman)
  {
    hide CanTransition, ChunkIds;
  }

  /** What follows the main commit: only the run's status and error, the deliveries and the audit log can change. */
  lemma AfterRunCommitDoes(cfg: Settings, db: Db, r: Id, t: Id, escalated: bool, env: RunEnv)
    requires r < |db.runs| && t < |db.tickets|
    ensures var db' := AfterRunCommit(cfg, db, r, t, escalated, env);
            && |db'.runs| == |db.runs|
            && db' == db.(runs := db.runs[r := db'.runs[r]], deliveries := db'.deliveries, audit := db'.audit)
            && db'.runs[r] == db.runs[r].(status := db'.runs[r].status, error := db'.runs[r].error)
            && (if escalated && env.refreshFault.None?
                then Noticed(cfg, db, db'.deliveries, db'.audit, t, db.tickets[t], TicketEscalatedNotice, env.notify)
                else db'.deliveries == db.deliveries && db'.audit == db.audit)
            && (if env.refreshFault.None? && !(escalated && NotifyRaises(db, db.tickets[t].org, env.notify))
                then db'.runs[r] == db.runs[r]
                else && db'.runs[r].status == Failed
                     && (env.refreshFault.None? ==> !env.notify.fault.NoFault?)
                     && db'.runs[r].error
                        == Some(Fault(if env.refreshFault.Some? then env.refreshFault.value else env.notify.fault.message)))
  {
    hide Enqueue, Noticed, ActiveWebhook;
    EnqueueNotices(cfg, db, t, TicketEscalatedNotice, env.notify);
    EnqueueRaises(cfg, db, t, TicketEscalatedNotice, env.notify);
  }

  lemma NoticedReads(cfg: Settings, a: Db, b: Db, deliveries: seq<Delivery>, audit: seq<AuditLog>, t: Id, ticket: Ticket,
                     event: NoticeKind, env: NotifyEnv)
    requires a.webhooks == b.webhooks && a.deliveries == b.deliveries && a.audit == b.audit
    ensures Noticed(cfg, a, deliveries, audit, t, ticket, event, env) == Noticed(cfg, b, deliveries, audit, t, ticket, event, env)
  {
    hide FindWebhook;
  }

  lemma MoveThenNotice(cfg: Settings, db: Db, moved: Db, db': Db, r: Id, st: AgentState, env: RunEnv)
    requires r < |db.runs| && db.runs[r].ticket < |db.tickets|
    requires |moved.tickets| == |db.tickets| == |db'.tickets| && |moved.runs| == |db.runs| == |db'.runs|
    requires var t := db.runs[r].ticket;
             var ticket, to := db.tickets[t], TargetStatus(st.outcome);
             && CanTransition(ticket.status, to)
             && moved == db.(tickets := db.tickets[t := moved.tickets[t]], runs := db.runs[r := moved.runs[r]],
                             events := moved.events, audit := moved.audit)
             && moved.tickets[t] == Suggested(ticket, st).(status := to)
             && moved.runs[r] == FinishedRun(db.runs[r], st, env.latencyMs, env.cost)
             && moved.events == db.events + [StatusEvent(t, ticket, to, None, AgentRunEvent,
                  if st.outcome.ToApproval? then DraftReadyForApproval else LowConfidence)]
             && moved.audit == db.audit + RunAudits(t, ticket, st)
             && db' == moved.(runs := moved.runs[r := db'.runs[r]], deliveries := db'.deliveries, audit := db'.audit)
             && db'.runs[r] == moved.runs[r].(status := db'.runs[r].status, error := db'.runs[r].error)
             && (if st.outcome.ToHuman? && env.refreshFault.None?
                 then Noticed(cfg, moved, db'.deliveries, db'.audit, t, moved.tickets[t], TicketEscalatedNotice, env.notify)
                 else db'.deliveries == moved.deliveries && db'.audit == moved.audit)
             && (|| db'.runs[r] == moved.runs[r]
                 || (&& db'.runs[r].status == Failed
                     && (env.refreshFault.None? ==> !env.notify.fault.NoFault?)
                     && db'.runs[r].error
                        == Some(Fault(if env.refreshFault.Some? then env.refreshFault.value else env.notify.fault.message))))
    ensures RunMoved(cfg, db, db', r, st, env)
  {
    hide CanTransition, Noticed;
    var t := db.runs[r].ticket;
    var row, to := db.tickets[t], TargetStatus(st.outcome);
    var audit := db.audit
      + [AuditLog(RetrievalCompleted, row.org, None, OnTicket(t), RetrievalMeta(|st.retrieved|, st.retrievalHit)),
         AuditLog(DraftGenerated, row.org, None, OnTicket(t), ConfidenceMeta(st.confidence))]
      + if to == Escalated then [AuditLog(TicketEscalated, row.org, None, OnTicket(t), ConfidenceMeta(st.confidence))] else [];
    assert moved.audit == audit;
    NoticedReads(cfg, moved, db.(audit := audit), db'.deliveries, db'.audit, t, db'.tickets[t], TicketEscalatedNotice, env.notify);
  }

  /**
   * All or nothing: an execution commits the whole move exactly when the workflow and row writes succeed and the edge
   * from the loaded status is legal; otherwise it marks the run failed and nothing else. After the move the run is
   * completed unless the refresh or the escalation's notice raises.
   */
  lemma ExecuteRunIsAtomic(cfg: Settings, db: Db, r: Id, env: RunEnv)
    requires cfg.embedder.dim > 0 && r < |db.runs| && db.runs[r].ticket < |db.tickets|
    ensures var db' := ExecuteRun(cfg, db, r, env);
            var ticket := db.tickets[db.runs[r].ticket];
            var w := Workflow(cfg, db, ticket, env);
            if w.Ok? && CanTransition(ticket.status, TargetStatus(w.value.outcome)) then
              && |db'.tickets| == |db.tickets| && |db'.runs| == |db.runs|
              && RunMoved(cfg, db, db', r, w.value, env)
              && (db'.runs[r].status == Completed <==>
                    env.refreshFault.None? && (w.value.outcome == ToApproval || !NotifyRaises(db, ticket.org, env.notify)))
            else OnlyRunFailed(db, db', r, if w.Err? then w.error else InvalidTransition(ticket.status, TargetStatus(w.value.outcome)))
  {
    hide Workflow, Enqueue, CanTransition, FindWebhook, CommitPatch, RunPatch, AfterRunCommit, Noticed, RunMoved, RunAudits, Suggested, FinishedRun;
    var t := db.runs[r].ticket;
    var ticket := db.tickets[t];
    match Workflow(cfg, db, ticket, env) {
      case Err(e) => assert ExecuteRun(cfg, db, r, env) == FailRun(db, r, e);
      case Ok(st) =>
        var to := TargetStatus(st.outcome);
        if CanTransition(ticket.status, to) {
          RunPatchMoves(db, r, st, env);
          var p := RunPatch(t, ticket, r, db.runs[r], st, env.latencyMs, env.cost).value;
          var moved := CommitPatch(db, p);
          AfterRunCommitDoes(cfg, moved, r, t, PatchEscalates(p), env);
          assert ExecuteRun(cfg, db, r, env) == AfterRunCommit(cfg, moved, r, t, PatchEscalates(p), env);
          MoveThenNotice(cfg, db, moved, ExecuteRun(cfg, db, r, env), r, st, env);
        } else {
          IllegalRun(t, ticket, r, db.runs[r], st, env);
          assert ExecuteRun(cfg, db, r, env) == FailRun(db, r, InvalidTransition(ticket.status, to));
        }
    }
  }

  lemma IllegalRun(t: Id, ticket: Ticket, r: Id, run: AgentRun, st: AgentState, env: RunEnv)
    requires !CanTransition(ticket.status, TargetStatus(st.outcome))
    ensures RunPatch(t, ticket, r, run, st, env.latencyMs, env.cost) == Err(InvalidTransition(ticket.status, TargetStatus(st.outcome)))
  {
    hide CanTransition;
  }

  lemma EnqueueRaises(cfg: Settings, db: Db, t: Id, event: NoticeKind, env: NotifyEnv)
    requires t < |db.tickets|
    ensures Enqueue(cfg, db, t, event, env).1
         == if NotifyRaises(db, db.tickets[t].org, env) then Some(Fault(env.fault.message)) else None
  {}

  // ----- reading back and human decisions

  /** A new ticket can be read by its organisation alone, as it was sent, with a one-step history; older tickets stay. */
  lemma CreateThenRead(
    cfg: Settings, db: Db, org: OrgId, other: OrgId, actor: UserId, title: string, description: string, priority: Priority)
    requires cfg.embedder.dim > 0 && WellFormed(db)
    ensures var db', t := Apply(cfg, db, CreateTicketStep(org, actor, title, description, priority)), |db.tickets|;
            var v := ViewOf(db', t);
            && (Visible(db', other, t) <==> other == org)
            && v.row.title == title && v.row.description == description && v.row.priority == priority
            && v.row.createdBy == actor && v.row.draft.None? && v.row.final.None?
            && |v.events| == 1 && v.events[0].actor == Some(actor) && Path(StatusEvents(v.events), v.row.status)
            && |v.audits| == 1 && v.audits[0].event == TicketCreated && v.audits[0].actor == Some(actor)
            && v.notices == []
            && forall u | 0 <= u < |db.tickets| :: ViewOf(db', u) == ViewOf(db, u)
  {
    hide Filter, ViewOf;
    var db', t := CreateTicket(db, org, actor, title, description, priority), |db.tickets|;
    forall u | 0 <= u <= t ensures u < t ==> ViewOf(db', u) == ViewOf(db, u) {
      ViewOfCreateTicket(db, org, actor, title, description, priority, u);
    }
    ViewOfCreateTicket(db, org, actor, title, description, priority, t);
    SelectOne(db'.events[|db.events|], HasTarget());
  }

  /** Starting a run succeeds exactly on a ticket of the caller's organisation that is not closed, and leaves a running run. */
  lemma StartThenRead(cfg: Settings, db: Db, org: OrgId, actor: UserId, t: Id)
    requires cfg.embedder.dim > 0
    ensures var db' := Apply(cfg, db, StartRunStep(org, actor, t));
            if t < |db.tickets| && db.tickets[t].org == org && db.tickets[t].status != Closed then
              && |db'.runs| == |db.runs| + 1 && db'.runs[..|db.runs|] == db.runs
              && var run := db'.runs[|db.runs|];
              && run.ticket == t && run.org == org && run.status == Running && run.error.None?
              && run.classification.None? && run.chunkIds == [] && !run.retrievalHit && run.draft.None?
              && run.confidence.None? && run.outcome.None? && run.latencyMs.None? && run.cost.None?
              && run.promptTokens == 0 && run.completionTokens == 0
              && db'.audit == db.audit + [AuditLog(AgentRunStarted, org, Some(actor), OnTicket(t), RunMeta(|db.runs|))]
              && db' == db.(runs := db'.runs, audit := db'.audit)
            else db' == db
  {}

  /**
   * Ingesting succeeds exactly for content that is not blank: the document is stored as sent, and n words give one chunk
   * up to 120 words and one more for each further 100 begun.
   */
  lemma AddDocumentThenRead(cfg: Settings, db: Db, org: OrgId, actor: UserId, title: string, content: string)
    requires cfg.embedder.dim > 0
    ensures var db', n := Apply(cfg, db, AddDocumentStep(org, actor, title, content)), |Words(content)|;
            if n > 0 then
              && db' == db.(documents := db'.documents, chunks := db'.chunks)
              && |db'.documents| == |db.documents| + 1 && db'.documents[..|db.documents|] == db.documents
              && var document := db'.documents[|db.documents|];
              && document.org == org && document.title == title && document.content == content && document.createdBy == actor
              && db.chunks <= db'.chunks
              && |db'.chunks| == |db.chunks| + (if n <= 120 then 1 else 1 + (n - 120 + 99) / 100)
              && forall i | |db.chunks| <= i < |db'.chunks| ::
                   && db'.chunks[i].id == i && db'.chunks[i].document == |db.documents| && db'.chunks[i].org == org
                   && db'.chunks[i].index == i - |db.chunks|
            else db' == db
  {
    hide Words, Chunking.Chunks, Chunking.Windows, Blank, Embedder.Embed;
    BlankIffNoWords(content);
    if Words(content) != [] {
      Chunking.ChunksAreWindows(content, 120, 20);
      Chunking.WordsAreWords(content);
      Chunking.WindowsHoldWords(Words(content), 120, 100);
      Chunking.WordsOfJoinAll(Chunking.Windows(Words(content), 120, 100));
      Chunking.WindowCount(Words(content), 120, 100);
    }
  }

  /**
   * An approval by a user of the ticket's organisation succeeds exactly on a waiting ticket with a non-blank answer,
   * which is the edited text if one was sent and the draft otherwise, and is announced; a refused approval commits nothing.
   */
  lemma ApproveDecides(cfg: Settings, db: Db, org: OrgId, actor: UserId, t: Id, edited: Option<string>, notify: NotifyEnv)
    requires cfg.embedder.dim > 0
    ensures var db' := Apply(cfg, db, ApproveStep(org, actor, t, edited, notify));
            if t < |db.tickets| && db.tickets[t].org == org && db.tickets[t].status == WaitingApproval
               && !(edited.None? && db.tickets[t].draft.None?)
               && !Blank(if edited.Some? then edited.value else db.tickets[t].draft.value) then
              && db'.tickets == db.tickets[t := db.tickets[t].(status := Approved,
                   final := if edited.Some? then edited else db.tickets[t].draft)]
              && db'.events == db.events + [TicketEvent(t, org, ApprovedEvent, Some(WaitingApproval), Some(Approved), Some(actor),
                   ResponseApproved(edited.Some?))]
              && var audit := db.audit + [AuditLog(ResponseApprovedAudit, org, Some(actor), OnTicket(t), EditedMeta(edited.Some?))];
              && Noticed(cfg, db.(audit := audit), db'.deliveries, db'.audit, t, db'.tickets[t], TicketApprovedNotice, notify)
              && db' == db.(tickets := db'.tickets, events := db'.events, audit := db'.audit, deliveries := db'.deliveries)
            else db' == db
  {
    hide Enqueue, Noticed, Blank;
    BlankEmpty();
    if t < |db.tickets| {
      match ApprovePatch(t, db.tickets[t], actor, edited) {
        case Err(_) =>
        case Ok(p) =>
          var moved := CommitPatch(db, p);
          EnqueueNotices(cfg, moved, t, TicketApprovedNotice, notify);
          var db' := Enqueue(cfg, moved, t, TicketApprovedNotice, notify).0;
          NoticedReads(cfg, moved, db.(audit := moved.audit), db'.deliveries, db'.audit, t, moved.tickets[t], TicketApprovedNotice, notify);
      }
    }
  }

  lemma BlankEmpty()
    ensures Blank("")
  {}

  /** A rejection succeeds exactly on a waiting ticket, and an edit exactly with non-blank content, in any status. */
  lemma RejectAndEditDecide(cfg: Settings, db: Db, org: OrgId, actor: UserId, t: Id, reason: Option<string>, content: string)
    requires cfg.embedder.dim > 0 && t < |db.tickets| && db.tickets[t].org == org
    ensures var db' := Apply(cfg, db, RejectStep(org, actor, t, reason));
            if db.tickets[t].status == WaitingApproval then
              && db'.tickets == db.tickets[t := db.tickets[t].(status := Rejected)]
              && db'.events == db.events + [TicketEvent(t, org, RejectedEvent, Some(WaitingApproval), Some(Rejected), Some(actor),
                   Reason(reason))]
              && db'.audit == db.audit + [AuditLog(ResponseRejectedAudit, org, Some(actor), OnTicket(t), ReasonMeta(reason))]
            else db' == db
    ensures var db' := Apply(cfg, db, EditDraftStep(org, actor, t, content));
            if !Blank(content) then
              && db'.tickets == db.tickets[t := db.tickets[t].(draft := Some(content))]
              && db'.events == db.events + [TicketEvent(t, org, EditedEvent, None, None, Some(actor), DraftEdited)]
              && db'.audit == db.audit
            else db' == db
  {
    hide Blank;
    assert db.audit + [] == db.audit;
  }

  // ----- webhook notices

  /** Every stored notice traces to a status change of its ticket, and its payload is that ticket's final state. */
  lemma NoticesTrace(cfg: Settings, steps: seq<Step>, t: Id)
    requires cfg.embedder.dim > 0 && t < |Execute(cfg, EMPTY_DB, steps).tickets|
    ensures var v := ViewOf(Execute(cfg, EMPTY_DB, steps), t);
            && |Filter(v.notices, IsNotice(TicketApprovedNotice))| <= |Filter(v.events, IsKind(ApprovedEvent))| <= 1
            && |Filter(v.notices, IsNotice(TicketEscalatedNotice))| <= |Filter(v.events, Reaches(Escalated))|
            && (forall p | p in v.notices && p.event == TicketApprovedNotice ::
                  p.status == Approved && v.row.status == Approved && p.final.Some? && p.final == v.row.final)
            && (forall p | p in v.notices && p.event == TicketEscalatedNotice :: p.status == Escalated && p.final == None)
  {
    hide Filter, Execute, LogOk, ChainOk, ViewOf, Blank;
    TicketOkAfter(cfg, steps, t);
    var v := ViewOf(Execute(cfg, EMPTY_DB, steps), t);
    assert forall p | p in v.notices :: PayloadOk(v.row, p);
  }

  lemma {:induction false} FoundWebhook(webhooks: seq<Webhook>, org: OrgId, i: nat)
    requires i < |webhooks| && webhooks[i].org == org
    requires forall a, b | 0 <= a < b < |webhooks| :: webhooks[a].org != webhooks[b].org
    ensures FindWebhook(webhooks, org) == Some(i)
  {
    if i < |webhooks| - 1 {
      FoundWebhook(webhooks[..|webhooks| - 1], org, i);
    }
  }

  /** A notice is stored exactly when the stage is reached and the organisation's webhook is active, with the ticket as it then is. */
  lemma NoticeIffActive(cfg: Settings, db: Db, t: Id, event: NoticeKind, env: NotifyEnv)
    requires t < |db.tickets| && OneWebhookPerOrg(db)
    ensures var db' := Enqueue(cfg, db, t, event, env).0;
            var ticket := db.tickets[t];
            var stored := exists i | 0 <= i < |db.webhooks| :: db.webhooks[i].org == db.tickets[t].org && db.webhooks[i].isActive;
            if stored && !env.fault.BeforeInsert? then
              && |db'.deliveries| == |db.deliveries| + 1
              && db'.deliveries[|db.deliveries|].payload == Payload(event, |db.deliveries|, ticket.org, t, ticket.title,
                   ticket.status, ticket.priority, ticket.final)
              && (!(cfg.dispatchEnabled && cfg.deliveryEager) ==>
                    db'.deliveries[|db.deliveries|].status == Pending && db'.deliveries[|db.deliveries|].attempts == 0)
            else db' == db
  {
    hide FindWebhook;
    var org := db.tickets[t].org;
    if i :| 0 <= i < |db.webhooks| && db.webhooks[i].org == org && db.webhooks[i].isActive {
      FoundWebhook(db.webhooks, org, i);
    }
  }

  /** Configuring a webhook and reading it back gives the values just stored, and still one row for the organisation. */
  lemma UpsertThenRead(db: Db, org: OrgId, url: string, secret: string, isActive: bool)
    requires OneWebhookPerOrg(db)
    ensures var db' := UpsertConfig(db, org, url, secret, isActive);
            var w := FindWebhook(db'.webhooks, org);
            OneWebhookPerOrg(db') && w.Some? && db'.webhooks[w.value] == Webhook(org, url, secret, isActive)
  {
    hide FindWebhook;
    var db' := UpsertConfig(db, org, url, secret, isActive);
    var i := match FindWebhook(db.webhooks, org) case Some(w) => w case None => |db.webhooks|;
    FoundWebhook(db'.webhooks, org, i);
  }

  /** Payloads never change once stored. */
  lemma ApplyKeepsPayloads(cfg: Settings, db: Db, step: Step)
    requires cfg.embedder.dim > 0
    ensures Payloads(db.deliveries) <= Payloads(Apply(cfg, db, step).deliveries)
  {
    hide CommitPatch, ExecutePatch, Blank, AddDocument, RejectPatch, EditPatch, ApprovePatch, FindWebhook;
    match step {
      case ExecuteRunStep(r, env) =>
        if r < |db.runs| && db.runs[r].ticket < |db.tickets| {
          var t := db.runs[r].ticket;
          ExecutePatchOk(cfg, db, r, db.tickets[t], env);
          var p := ExecutePatch(cfg, db, r, db.tickets[t], env);
          if p.Ok? {
            CommitKeepsDeliveries(db, p.value);
            EnqueuePayloads(cfg, CommitPatch(db, p.value), t, TicketEscalatedNotice, env.notify);
          }
        }
      case ApproveStep(org, actor, t, edited, notify) =>
        if t < |db.tickets| {
          ApprovePatchOk(cfg, t, db.tickets[t], actor, edited);
          var p := ApprovePatch(t, db.tickets[t], actor, edited);
          if p.Ok? {
            CommitKeepsDeliveries(db, p.value);
            EnqueuePayloads(cfg, CommitPatch(db, p.value), t, TicketApprovedNotice, notify);
          }
        }
      case RejectStep(org, actor, t, reason) =>
        if t < |db.tickets| {
          RejectPatchOk(cfg, t, db.tickets[t], actor, reason);
          var p := RejectPatch(t, db.tickets[t], actor, reason);
          if p.Ok? { CommitKeepsDeliveries(db, p.value); }
        }
      case EditDraftStep(org, actor, t, content) =>
        if t < |db.tickets| {
          EditPatchOk(cfg, t, db.tickets[t], actor, content);
          var p := EditPatch(t, db.tickets[t], actor, content);
          if p.Ok? { CommitKeepsDeliveries(db, p.value); }
        }
      case AddDocumentStep(org, actor, title, content) => AddDocumentKeepsDeliveries(cfg, db, org, actor, title, content);
      case _ =>
    }
  }

  lemma AddDocumentKeepsDeliveries(cfg: Settings, db: Db, org: OrgId, actor: UserId, title: string, content: string)
    requires cfg.embedder.dim > 0
    ensures AddDocument(cfg, db, org, actor, title, content).deliveries == db.deliveries
  {}

  lemma CommitKeepsDeliveries(db: Db, p: Patch)
    requires Applies(db, p)
    ensures CommitPatch(db, p).deliveries == db.deliveries && |CommitPatch(db, p).tickets| == |db.tickets| && |CommitPatch(db, p).runs| == |db.runs|
  {}

  lemma EnqueuePayloads(cfg: Settings, db: Db, t: Id, event: NoticeKind, env: NotifyEnv)
    requires t < |db.tickets|
    ensures Payloads(db.deliveries) <= Payloads(Enqueue(cfg, db, t, event, env).0.deliveries)
  {
    hide FindWebhook;
  }

  /** The payload of a delivery stays the same through every later edit, run and delivery attempt. */
  lemma {:induction false} PayloadsStable(cfg: Settings, db: Db, steps: seq<Step>)
    requires cfg.embedder.dim > 0
    ensures Payloads(db.deliveries) <= Payloads(Execute(cfg, db, steps).deliveries)
    decreases |steps|
  {
    hide Apply, Payloads;
    if steps != [] {
      ApplyKeepsPayloads(cfg, db, steps[0]);
      PayloadsStable(cfg, Apply(cfg, db, steps[0]), steps[1..]);
    }
  }
}
