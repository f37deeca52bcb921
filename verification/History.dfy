/**
 * One ticket's share of the tables, and what its history, audit rows and notices say about each other.
 * LogOk survives any interleaving; ChainOk and FinalOk need each transaction to commit on the row it loaded.
 */
module History {
  import opened Sequences
  import opened Text
  import opened Models
  import opened Agent
  import opened Transactions

  datatype View = View(row: Ticket, events: seq<TicketEvent>, audits: seq<AuditLog>, notices: seq<Payload>)

  function OfTicket(t: Id): TicketEvent -> bool { (e: TicketEvent) => e.ticket == t }
  function AboutTicket(t: Id): AuditLog -> bool { (a: AuditLog) => a.target == OnTicket(t) }
  function ForTicket(t: Id): Payload -> bool { (p: Payload) => p.ticket == t }

  function Payloads(deliveries: seq<Delivery>): (r: seq<Payload>)
    ensures |r| == |deliveries|
    ensures forall i | 0 <= i < |r| :: r[i] == deliveries[i].payload
  {
    seq(|deliveries|, i requires 0 <= i < |deliveries| => deliveries[i].payload)
  }

  function ViewOf(db: Db, t: Id): View
    requires t < |db.tickets|
  {
    View(db.tickets[t], Filter(db.events, OfTicket(t)), Filter(db.audit, AboutTicket(t)),
         Filter(Payloads(db.deliveries), ForTicket(t)))
  }

  function LocalCommit(v: View, p: Patch): View {
    View(MergeTicket(v.row, p.loaded, p.row), v.events + [p.event], v.audits + p.audits, v.notices)
  }

  // ----- selections from one ticket's rows

  function IsKind(k: EventKind): TicketEvent -> bool { (e: TicketEvent) => e.kind == k }
  function HasTarget(): TicketEvent -> bool { (e: TicketEvent) => e.to.Some? }
  function Reaches(s: TicketStatus): TicketEvent -> bool { (e: TicketEvent) => e.to == Some(s) }
  function Leaves(s: TicketStatus): TicketEvent -> bool { (e: TicketEvent) => e.from == Some(s) }
  function IsAudit(a: AuditEvent): AuditLog -> bool { (r: AuditLog) => r.event == a }
  function IsNotice(n: NoticeKind): Payload -> bool { (p: Payload) => p.event == n }

  function StatusEvents(events: seq<TicketEvent>): seq<TicketEvent> { Filter(events, HasTarget()) }

  // ----- the invariants of one ticket

  /** The shapes a stored event can have. */
  ghost predicate EventOk(e: TicketEvent) {
    match e.kind
    case CreatedEvent => e.from == None && e.to == Some(New) && e.actor.Some?
    case EditedEvent => e.from == None && e.to == None && e.actor.Some?
    case AgentRunEvent =>
      && e.from.Some? && e.to.Some? && e.actor == None
      && e.to.value in {WaitingApproval, Escalated} && CanTransition(e.from.value, e.to.value)
    case ApprovedEvent => e.from == Some(WaitingApproval) && e.to == Some(Approved) && e.actor.Some?
    case RejectedEvent => e.from == Some(WaitingApproval) && e.to == Some(Rejected) && e.actor.Some?
  }

  ghost predicate SameActors(events: seq<TicketEvent>, audits: seq<AuditLog>) {
    && |events| == |audits|
    && forall k | 0 <= k < |events| :: events[k].actor == audits[k].actor
  }

  /** Each agent event went where the confidence audited with it sends it. */
  ghost predicate SameDecisions(cfg: Settings, events: seq<TicketEvent>, drafts: seq<AuditLog>) {
    && |events| == |drafts|
    && forall k | 0 <= k < |events| ::
         && drafts[k].meta.ConfidenceMeta?
         && events[k].to == Some(TargetStatus(Decide(cfg, drafts[k].meta.confidence)))
  }

  ghost predicate LogOk(cfg: Settings, v: View) {
    && (forall e | e in v.events :: EventOk(e))
    && v.events != [] && v.events[0].kind == CreatedEvent && |Filter(v.events, IsKind(CreatedEvent))| == 1
    && SameActors(Filter(v.events, IsKind(ApprovedEvent)), Filter(v.audits, IsAudit(ResponseApprovedAudit)))
    && SameActors(Filter(v.events, IsKind(RejectedEvent)), Filter(v.audits, IsAudit(ResponseRejectedAudit)))
    && SameDecisions(cfg, Filter(v.events, IsKind(AgentRunEvent)), Filter(v.audits, IsAudit(DraftGenerated)))
    && |Filter(v.audits, IsAudit(RetrievalCompleted))| == |Filter(v.audits, IsAudit(DraftGenerated))|
    && |Filter(v.audits, IsAudit(TicketEscalated))| == |Filter(v.events, Reaches(Escalated))|
  }

  /** The status-bearing events form a path of legal edges from `new` to the current status. */
  ghost predicate Path(h: seq<TicketEvent>, status: TicketStatus) {
    && h != [] && h[0].from == None && h[0].to == Some(New)
    && (forall k | 1 <= k < |h| ::
          h[k].from.Some? && h[k].to.Some? && h[k].from == h[k - 1].to && CanTransition(h[k].from.value, h[k].to.value))
    && h[|h| - 1].to == Some(status)
  }

  ghost predicate ChainOk(v: View) { Path(StatusEvents(v.events), v.row.status) }

  ghost predicate Reachable(s: TicketStatus) { s in {New, WaitingApproval, Escalated, Rejected, Approved} }

  ghost predicate FinalOk(v: View) {
    && Reachable(v.row.status)
    && (v.row.final.Some? <==> v.row.status == Approved)
    && (v.row.final.Some? ==> !Blank(v.row.final.value))
    && |Filter(v.events, IsKind(ApprovedEvent))| == if v.row.status == Approved then 1 else 0
  }

  /** Notices never outnumber the events they announce, and carry the ticket's final state. */
  ghost predicate NoticeCounts(v: View, slackApproved: nat, slackEscalated: nat) {
    && |Filter(v.notices, IsNotice(TicketApprovedNotice))| + slackApproved <= |Filter(v.events, IsKind(ApprovedEvent))|
    && |Filter(v.notices, IsNotice(TicketEscalatedNotice))| + slackEscalated <= |Filter(v.events, Reaches(Escalated))|
  }

  ghost predicate PayloadOk(row: Ticket, p: Payload) {
    match p.event
    case TicketApprovedNotice => p.status == Approved && row.status == Approved && p.final == row.final
    case TicketEscalatedNotice => p.status == Escalated && p.final == None
  }

  ghost predicate NoticeOk(v: View) {
    && NoticeCounts(v, 0, 0)
    && forall p | p in v.notices :: PayloadOk(v.row, p)
  }

  ghost predicate TicketOk(cfg: Settings, v: View) { LogOk(cfg, v) && ChainOk(v) && FinalOk(v) && NoticeOk(v) }

  // ----- what a transaction may contain

  ghost predicate PatchOk(cfg: Settings, p: Patch) {
    var e := p.event;
    && e.ticket == p.ticket && e.org == p.loaded.org && EventOk(e)
    && (forall a | a in p.audits :: a.target == OnTicket(p.ticket) && a.org == p.loaded.org)
    && (e.to.Some? ==> e.from == Some(p.loaded.status) && e.to == Some(p.row.status))
    && p.row == p.loaded.(status := p.row.status, suggestedType := p.row.suggestedType,
                          suggestedPriority := p.row.suggestedPriority, draft := p.row.draft, final := p.row.final)
    && match e.kind
       case CreatedEvent => false
       case EditedEvent => p.audits == [] && p.row.status == p.loaded.status && p.row.final == p.loaded.final
       case ApprovedEvent =>
         && |p.audits| == 1 && p.audits[0].event == ResponseApprovedAudit && p.audits[0].actor == e.actor
         && p.row.final.Some? && !Blank(p.row.final.value)
       case RejectedEvent =>
         && |p.audits| == 1 && p.audits[0].event == ResponseRejectedAudit && p.audits[0].actor == e.actor
         && p.row.final == p.loaded.final
       case AgentRunEvent =>
         && p.row.final == p.loaded.final
         && |p.audits| == (if e.to == Some(Escalated) then 3 else 2)
         && p.audits[0].event == RetrievalCompleted && p.audits[1].event == DraftGenerated
         && p.audits[1].meta.ConfidenceMeta? && e.to == Some(TargetStatus(Decide(cfg, p.audits[1].meta.confidence)))
         && (|p.audits| == 3 ==> p.audits[2].event == TicketEscalated)
  }

  lemma ApprovePatchOk(cfg: Settings, t: Id, loaded: Ticket, actor: UserId, edited: Option<string>)
    ensures var p := ApprovePatch(t, loaded, actor, edited);
            p.Ok? ==> PatchOk(cfg, p.value) && p.value.event.kind == ApprovedEvent && p.value.run == NoRun
                      && p.value.ticket == t && p.value.loaded == loaded
  {}

  lemma RejectPatchOk(cfg: Settings, t: Id, loaded: Ticket, actor: UserId, reason: Option<string>)
    ensures var p := RejectPatch(t, loaded, actor, reason);
            p.Ok? ==> PatchOk(cfg, p.value) && p.value.event.kind == RejectedEvent && p.value.run == NoRun
                      && p.value.ticket == t && p.value.loaded == loaded
  {}

  lemma EditPatchOk(cfg: Settings, t: Id, loaded: Ticket, actor: UserId, content: string)
    ensures var p := EditPatch(t, loaded, actor, content);
            p.Ok? ==> PatchOk(cfg, p.value) && p.value.event.kind == EditedEvent && p.value.run == NoRun
                      && p.value.ticket == t && p.value.loaded == loaded
  {}

  lemma RunPatchOk(cfg: Settings, t: Id, loaded: Ticket, r: Id, run: AgentRun, st: AgentState, latencyMs: int, cost: real)
    requires Decided(cfg, st)
    ensures var p := RunPatch(t, loaded, r, run, st, latencyMs, cost);
            p.Ok? ==> PatchOk(cfg, p.value) && p.value.event.kind == AgentRunEvent && p.value.ticket == t && p.value.loaded == loaded
  {}

  // ----- appending one transaction to one ticket

  lemma AppendEvent(v: View, p: Patch, f: TicketEvent -> bool)
    ensures Filter(LocalCommit(v, p).events, f) == Filter(v.events, f) + (if f(p.event) then [p.event] else [])
  {
    FilterAppend(v.events, p.event, f);
  }

  lemma AppendAudits(v: View, p: Patch, f: AuditLog -> bool)
    requires |p.audits| <= 3
    ensures Filter(LocalCommit(v, p).audits, f)
         == Filter(v.audits, f)
            + (if |p.audits| > 0 && f(p.audits[0]) then [p.audits[0]] else [])
            + (if |p.audits| > 1 && f(p.audits[1]) then [p.audits[1]] else [])
            + (if |p.audits| > 2 && f(p.audits[2]) then [p.audits[2]] else [])
  {
    var a, n := p.audits, |p.audits|;
    if n == 0 {
      assert v.audits + a == v.audits;
    } else if n == 1 {
      assert v.audits + a == v.audits + [a[0]];
      FilterAppend(v.audits, a[0], f);
    } else if n == 2 {
      assert v.audits + a == v.audits + [a[0]] + [a[1]];
      FilterAppend(v.audits, a[0], f);
      FilterAppend(v.audits + [a[0]], a[1], f);
    } else {
      assert v.audits + a == v.audits + [a[0]] + [a[1]] + [a[2]];
      FilterAppend(v.audits, a[0], f);
      FilterAppend(v.audits + [a[0]], a[1], f);
      FilterAppend(v.audits + [a[0]] + [a[1]], a[2], f);
    }
  }

  lemma CommitKeepsActors(cfg: Settings, v: View, p: Patch, k: EventKind, a: AuditEvent)
    requires PatchOk(cfg, p) && SameActors(Filter(v.events, IsKind(k)), Filter(v.audits, IsAudit(a)))
    requires (k, a) == (ApprovedEvent, ResponseApprovedAudit) || (k, a) == (RejectedEvent, ResponseRejectedAudit)
    ensures SameActors(Filter(LocalCommit(v, p).events, IsKind(k)), Filter(LocalCommit(v, p).audits, IsAudit(a)))
  {
    hide Filter, MergeTicket, CanTransition, Decide, Blank;
    AppendEvent(v, p, IsKind(k));
    AppendAudits(v, p, IsAudit(a));
  }

  lemma CommitKeepsDecisions(cfg: Settings, v: View, p: Patch)
    requires PatchOk(cfg, p)
    requires SameDecisions(cfg, Filter(v.events, IsKind(AgentRunEvent)), Filter(v.audits, IsAudit(DraftGenerated)))
    requires |Filter(v.audits, IsAudit(RetrievalCompleted))| == |Filter(v.audits, IsAudit(DraftGenerated))|
    ensures var v' := LocalCommit(v, p);
            && SameDecisions(cfg, Filter(v'.events, IsKind(AgentRunEvent)), Filter(v'.audits, IsAudit(DraftGenerated)))
            && |Filter(v'.audits, IsAudit(RetrievalCompleted))| == |Filter(v'.audits, IsAudit(DraftGenerated))|
  {
    hide Filter, MergeTicket, CanTransition, Decide, Blank, EventOk;
    AppendEvent(v, p, IsKind(AgentRunEvent));
    AppendAudits(v, p, IsAudit(RetrievalCompleted));
    AppendAudits(v, p, IsAudit(DraftGenerated));
  }

  lemma CommitKeepsEscalations(cfg: Settings, v: View, p: Patch)
    requires PatchOk(cfg, p) && |Filter(v.audits, IsAudit(TicketEscalated))| == |Filter(v.events, Reaches(Escalated))|
    ensures var v' := LocalCommit(v, p);
            |Filter(v'.audits, IsAudit(TicketEscalated))| == |Filter(v'.events, Reaches(Escalated))|
  {
    hide Filter, MergeTicket, CanTransition, Blank;
    AppendEvent(v, p, Reaches(Escalated));
    AppendAudits(v, p, IsAudit(TicketEscalated));
  }

  /** Events and audit rows keep agreeing whatever row the transaction had loaded. */
  lemma CommitKeepsLog(cfg: Settings, v: View, p: Patch)
    requires LogOk(cfg, v) && PatchOk(cfg, p)
    ensures LogOk(cfg, LocalCommit(v, p))
  {
    hide Filter, MergeTicket, CanTransition, Decide, SameActors, SameDecisions;
    AppendEvent(v, p, IsKind(CreatedEvent));
    CommitKeepsActors(cfg, v, p, ApprovedEvent, ResponseApprovedAudit);
    CommitKeepsActors(cfg, v, p, RejectedEvent, ResponseRejectedAudit);
    CommitKeepsDecisions(cfg, v, p);
    CommitKeepsEscalations(cfg, v, p);
  }

  /** The path goes on exactly when the transaction had loaded the current status. */
  lemma ChainIffFresh(cfg: Settings, v: View, p: Patch)
    requires ChainOk(v) && PatchOk(cfg, p) && p.event.to.Some?
    ensures ChainOk(LocalCommit(v, p)) <==> p.loaded.status == v.row.status
  {
    hide Filter, CanTransition;
    AppendEvent(v, p, HasTarget());
    MovesStatus(cfg, p);
    var h, h' := StatusEvents(v.events), StatusEvents(LocalCommit(v, p).events);
    assert h' == h + [p.event];
    assert h'[|h|] == p.event;
    assert forall k | 0 <= k < |h| :: h'[k] == h[k];
  }

  lemma MovesStatus(cfg: Settings, p: Patch)
    requires PatchOk(cfg, p) && p.event.to.Some?
    ensures CanTransition(p.loaded.status, p.row.status) && p.row.status != p.loaded.status
  {}

  /** An edit leaves the path alone. */
  lemma EditKeepsChain(cfg: Settings, v: View, p: Patch)
    requires ChainOk(v) && PatchOk(cfg, p) && p.event.to.None?
    ensures ChainOk(LocalCommit(v, p))
  {
    hide Filter, CanTransition;
    AppendEvent(v, p, HasTarget());
  }

  /** A set final response is never cleared, whatever row the transaction had loaded. */
  lemma CommitKeepsFinal(cfg: Settings, v: View, p: Patch)
    requires PatchOk(cfg, p) && v.row.final.Some?
    ensures LocalCommit(v, p).row.final.Some?
  {}

  /** On a freshly loaded row every invariant of the ticket survives, and the announced event is new. */
  lemma FreshCommitKeepsTicket(cfg: Settings, v: View, p: Patch)
    requires TicketOk(cfg, v) && PatchOk(cfg, p) && p.loaded == v.row
    ensures TicketOk(cfg, LocalCommit(v, p)) && LocalCommit(v, p).row == p.row
    ensures NoticeCounts(LocalCommit(v, p), if p.event.kind == ApprovedEvent then 1 else 0,
                                            if p.event.to == Some(Escalated) then 1 else 0)
  {
    hide Filter, LogOk, ChainOk, Blank;
    CommitKeepsLog(cfg, v, p);
    if p.event.to.Some? {
      ChainIffFresh(cfg, v, p);
      MovesStatus(cfg, p);
    } else {
      EditKeepsChain(cfg, v, p);
    }
    AppendEvent(v, p, IsKind(ApprovedEvent));
    AppendEvent(v, p, Reaches(Escalated));
  }
}
