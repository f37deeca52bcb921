/**
 * Calls that overlap. A call loads its ticket, and later commits what it computed from that copy on whatever the row
 * has become: there is no lock and no version check. Notices go out in a step of their own.
 */
module Interleaving {
  import opened Sequences
  import opened Text
  import opened Models
  import opened Agent
  import opened Transactions
  import opened History
  import opened Machine
  import opened Guarantees

  datatype Call =
    | ApproveCall(actor: UserId, edited: Option<string>)
    | RejectCall(actor: UserId, reason: Option<string>)
    | EditCall(actor: UserId, content: string)
    | RunCall(run: Id, env: RunEnv)

  /** A call in flight, with the ticket as it was loaded. */
  datatype Open = Open(ticket: Id, loaded: Ticket, call: Call)

  datatype Conc = Conc(db: Db, open: seq<Open>)

  datatype ConcStep =
    | Begin(org: OrgId, ticket: Id, call: Call)
    | Finish(i: nat)
    | Notice(ticket: Id, event: NoticeKind, env: NotifyEnv)
    | Whole(step: Step)

  /** Calls that touch no existing ticket row run in one piece. */
  predicate Atomic(step: Step) {
    step.CreateTicketStep? || step.AddDocumentStep? || step.StartRunStep? || step.UpsertConfigStep? || step.DeliverStep?
  }

  /**
   * The run a call executes exists and is the ticket's. A request that executes its run inline has loaded the ticket
   * before it starts the run, so a call may be open before its run exists.
   */
  predicate Ready(db: Db, o: Open) {
    o.call.RunCall? ==> o.call.run < |db.runs| && db.runs[o.call.run].ticket == o.ticket
  }

  function CallPatch(cfg: Settings, db: Db, o: Open): Result<Patch, Error>
    requires cfg.embedder.dim > 0 && Ready(db, o)
  {
    match o.call
    case ApproveCall(actor, edited) => ApprovePatch(o.ticket, o.loaded, actor, edited)
    case RejectCall(actor, reason) => RejectPatch(o.ticket, o.loaded, actor, reason)
    case EditCall(actor, content) => EditPatch(o.ticket, o.loaded, actor, content)
    case RunCall(r, env) => ExecutePatch(cfg, db, r, o.loaded, env)
  }

  ghost predicate OpenOk(db: Db, o: Open) {
    && o.ticket < |db.tickets| && o.loaded.org == db.tickets[o.ticket].org
    && (o.loaded.final.Some? ==> db.tickets[o.ticket].final.Some?)
  }

  /** A failed run call marks its run; other refused calls leave nothing. */
  function FinishDb(cfg: Settings, db: Db, o: Open): Db
    requires cfg.embedder.dim > 0 && Ready(db, o)
  {
    match CallPatch(cfg, db, o)
    case Err(e) => if o.call.RunCall? then FailRun(db, o.call.run, e) else db
    case Ok(p) =>
      if !Applies(db, p) then db
      else if o.call.RunCall? && o.call.env.refreshFault.Some? then
        FailRun(CommitPatch(db, p), o.call.run, Fault(o.call.env.refreshFault.value))
      else CommitPatch(db, p)
  }

  function Without(open: seq<Open>, i: nat): seq<Open>
    requires i < |open|
  {
    open[..i] + open[i + 1..]
  }

  function Next(cfg: Settings, c: Conc, step: ConcStep): Conc
    requires cfg.embedder.dim > 0
  {
    match step
    case Begin(org, t, call) =>
      if Visible(c.db, org, t) then c.(open := c.open + [Open(t, c.db.tickets[t], call)]) else c
    case Finish(i) =>
      if i < |c.open| && Ready(c.db, c.open[i])
      then Conc(FinishDb(cfg, c.db, c.open[i]), Without(c.open, i)) else c
    case Notice(t, event, env) =>
      if t < |c.db.tickets| then c.(db := Enqueue(cfg, c.db, t, event, env).0) else c
    case Whole(s) => if Atomic(s) then c.(db := Apply(cfg, c.db, s)) else c
  }

  function Run(cfg: Settings, c: Conc, steps: seq<ConcStep>): Conc
    requires cfg.embedder.dim > 0
    decreases |steps|
  {
    if steps == [] then c else Run(cfg, Next(cfg, c, steps[0]), steps[1..])
  }

  const START := Conc(EMPTY_DB, [])

  /** A call opens exactly on a ticket of the caller's organisation, with the row as it is stored at that moment. */
  lemma BeginLoads(cfg: Settings, c: Conc, org: OrgId, t: Id, call: Call)
    requires cfg.embedder.dim > 0
    ensures var c' := Next(cfg, c, Begin(org, t, call));
            && c'.db == c.db
            && c'.open == c.open + if t < |c.db.tickets| && c.db.tickets[t].org == org then [Open(t, c.db.tickets[t], call)] else []
  {
    assert c.open + [] == c.open;
  }

  // ----- what survives every interleaving

  /** The last status event always names the current status, even where the path before it is broken. */
  ghost predicate LastIsCurrent(v: View) {
    var h := StatusEvents(v.events);
    h != [] && h[|h| - 1].to == Some(v.row.status) && h[0].from == None && h[0].to == Some(New)
  }

  ghost predicate ViewOk(cfg: Settings, v: View) {
    && LogOk(cfg, v) && LastIsCurrent(v)
    && (v.row.status == Approved ==> v.row.final.Some?)
    && (v.row.final.Some? ==> !Blank(v.row.final.value))
    && (v.row.final.Some? <==> Filter(v.events, IsKind(ApprovedEvent)) != [])
  }

  ghost predicate ViewsOk(cfg: Settings, db: Db) {
    forall t | 0 <= t < |db.tickets| :: ViewOk(cfg, ViewOf(db, t))
  }

  ghost predicate AllOpenOk(c: Conc) {
    forall i | 0 <= i < |c.open| :: OpenOk(c.db, c.open[i])
  }

  ghost predicate WeakInv(cfg: Settings, c: Conc) {
    WellFormed(c.db) && ViewsOk(cfg, c.db) && AllOpenOk(c)
  }

  lemma LocalCommitKeepsView(cfg: Settings, v: View, p: Patch)
    requires ViewOk(cfg, v) && PatchOk(cfg, p) && (p.loaded.final.Some? ==> v.row.final.Some?)
    ensures ViewOk(cfg, LocalCommit(v, p))
  {
    hide Filter, LogOk, Blank;
    CommitKeepsLog(cfg, v, p);
    AppendEvent(v, p, HasTarget());
    AppendEvent(v, p, IsKind(ApprovedEvent));
    if p.event.to.Some? {
      MovesStatus(cfg, p);
    }
  }

  lemma CallPatchOk(cfg: Settings, db: Db, o: Open)
    requires cfg.embedder.dim > 0 && OpenOk(db, o) && Ready(db, o)
    ensures var p := CallPatch(cfg, db, o);
            p.Ok? ==>
              && PatchOk(cfg, p.value) && p.value.ticket == o.ticket && p.value.loaded == o.loaded && Applies(db, p.value)
              && (p.value.run.WriteRun? ==>
                    && o.call.RunCall? && p.value.run.run == o.call.run
                    && p.value.run.row.ticket == o.ticket && p.value.run.row.org == db.runs[o.call.run].org)
  {
    hide PatchOk, ApprovePatch, RejectPatch, EditPatch, ExecutePatch;
    match o.call {
      case ApproveCall(actor, edited) => ApprovePatchOk(cfg, o.ticket, o.loaded, actor, edited);
      case RejectCall(actor, reason) => RejectPatchOk(cfg, o.ticket, o.loaded, actor, reason);
      case EditCall(actor, content) => EditPatchOk(cfg, o.ticket, o.loaded, actor, content);
      case RunCall(r, env) => ExecutePatchOk(cfg, db, r, o.loaded, env);
    }
  }

  lemma CommitKeepsReferences(cfg: Settings, db: Db, p: Patch)
    requires WellFormed(db) && Applies(db, p) && PatchOk(cfg, p) && p.loaded.org == db.tickets[p.ticket].org
    requires p.run.WriteRun? ==> p.run.row.ticket == db.runs[p.run.run].ticket && p.run.row.org == db.runs[p.run.run].org
    ensures WellFormed(CommitPatch(db, p))
  {
    hide PatchOk, WellFormed;
    PatchRefers(cfg, p);
    CommitRefers(db, p);
  }

  lemma FailRunKeepsViews(db: Db, r: Id, e: Error)
    requires r < |db.runs|
    ensures var db' := FailRun(db, r, e);
            && (WellFormed(db) ==> WellFormed(db'))
            && db'.tickets == db.tickets && |db'.runs| == |db.runs|
            && (forall t | 0 <= t < |db.tickets| :: ViewOf(db', t) == ViewOf(db, t))
            && (forall k | 0 <= k < |db.runs| :: db'.runs[k].ticket == db.runs[k].ticket)
  {
    hide Filter;
  }

  /** What finishing an open call does to the views: at most one transaction on its own ticket. */
  lemma FinishEffect(cfg: Settings, db: Db, o: Open, t: Id)
    requires cfg.embedder.dim > 0 && OpenOk(db, o) && Ready(db, o) && t < |db.tickets|
    ensures var db', p := FinishDb(cfg, db, o), CallPatch(cfg, db, o);
            && |db'.tickets| == |db.tickets|
            && ViewOf(db', t) == if p.Ok? && t == o.ticket then LocalCommit(ViewOf(db, t), p.value) else ViewOf(db, t)
  {
    hide PatchOk, ViewOf, LocalCommit, CallPatch, MergeTicket, FailRun;
    CallPatchOk(cfg, db, o);
    match CallPatch(cfg, db, o) {
      case Err(e) => if o.call.RunCall? { FailRunKeepsViews(db, o.call.run, e); }
      case Ok(p) =>
        ViewOfCommit(cfg, db, p, t);
        CommitSizes(db, p);
        if o.call.RunCall? && o.call.env.refreshFault.Some? {
          FailRunKeepsViews(CommitPatch(db, p), o.call.run, Fault(o.call.env.refreshFault.value));
        }
    }
  }

  lemma FinishReferences(cfg: Settings, db: Db, o: Open)
    requires cfg.embedder.dim > 0 && OpenOk(db, o) && Ready(db, o) && WellFormed(db)
    ensures var db' := FinishDb(cfg, db, o);
            && WellFormed(db') && |db'.tickets| == |db.tickets| && |db'.runs| == |db.runs|
            && (forall t | 0 <= t < |db.tickets| :: db'.tickets[t].org == db.tickets[t].org)
            && (forall t | 0 <= t < |db.tickets| && db.tickets[t].final.Some? :: db'.tickets[t].final.Some?)
            && (forall k | 0 <= k < |db.runs| :: db'.runs[k].ticket == db.runs[k].ticket)
  {
    hide PatchOk, WellFormed, CallPatch, FailRun;
    CallPatchOk(cfg, db, o);
    if CallPatch(cfg, db, o).Ok? && db.tickets[o.ticket].final.Some? {
      CommitKeepsFinal(cfg, View(db.tickets[o.ticket], [], [], []), CallPatch(cfg, db, o).value);
    }
    match CallPatch(cfg, db, o) {
      case Err(e) => if o.call.RunCall? { FailRunKeepsViews(db, o.call.run, e); }
      case Ok(p) =>
        CommitKeepsReferences(cfg, db, p);
        CommitSizes(db, p);
        if o.call.RunCall? && o.call.env.refreshFault.Some? {
          FailRunKeepsViews(CommitPatch(db, p), o.call.run, Fault(o.call.env.refreshFault.value));
        }
    }
  }

  lemma FinishKeepsWeakInv(cfg: Settings, c: Conc, i: nat)
    requires cfg.embedder.dim > 0 && WeakInv(cfg, c) && i < |c.open| && Ready(c.db, c.open[i])
    ensures WeakInv(cfg, Next(cfg, c, Finish(i)))
  {
    hide WellFormed, ViewOk, ViewOf, LocalCommit, FinishDb, CallPatch, PatchOk;
    var o := c.open[i];
    assert OpenOk(c.db, o);
    CallPatchOk(cfg, c.db, o);
    FinishReferences(cfg, c.db, o);
    var db' := FinishDb(cfg, c.db, o);
    forall t | 0 <= t < |db'.tickets| ensures ViewOk(cfg, ViewOf(db', t)) {
      FinishEffect(cfg, c.db, o, t);
      assert ViewOk(cfg, ViewOf(c.db, t));
      if CallPatch(cfg, c.db, o).Ok? && t == o.ticket {
        RowOfView(c.db, t);
        LocalCommitKeepsView(cfg, ViewOf(c.db, t), CallPatch(cfg, c.db, o).value);
      }
    }
    forall j | 0 <= j < |Without(c.open, i)| ensures OpenOk(db', Without(c.open, i)[j]) {
      assert OpenOk(c.db, c.open[if j < i then j else j + 1]);
    }
  }

  /** Notices leave tickets, events and their audit rows alone. */
  lemma EnqueueEffect(cfg: Settings, db: Db, t: Id, event: NoticeKind, env: NotifyEnv, u: Id)
    requires WellFormed(db) && t < |db.tickets| && u < |db.tickets|
    ensures var db' := Enqueue(cfg, db, t, event, env).0;
            && WellFormed(db') && db'.tickets == db.tickets && db'.events == db.events && db'.runs == db.runs
            && ViewOf(db', u).audits == ViewOf(db, u).audits
  {
    hide Filter, FindWebhook, DeliverOnce;
    EnqueueKeeps(cfg, db, t, event, env);
    var ticket := db.tickets[t];
    var w := FindWebhook(db.webhooks, ticket.org);
    if !env.fault.BeforeInsert? && w.Some? && db.webhooks[w.value].isActive {
      var id := |db.deliveries|;
      var row := Delivery(w.value, ticket.org, event, TicketPayload(t, ticket, event, id), Pending, 0, None, None);
      var added := db.(deliveries := db.deliveries + [row]);
      InsertWellFormed(db, row);
      DeliverWellFormed(cfg, added, id, env.response);
      DeliverAudits(cfg, added, id, env.response, u);
    }
  }

  lemma InsertWellFormed(db: Db, row: Delivery)
    requires WellFormed(db) && DeliveryRefers(db, row) && row.payload.delivery == |db.deliveries|
    ensures WellFormed(db.(deliveries := db.deliveries + [row]))
  {}

  lemma DeliverAudits(cfg: Settings, db: Db, d: Id, response: Response, u: Id)
    requires u < |db.tickets|
    ensures var db' := DeliverOnce(cfg, db, d, response).0;
            && db'.tickets == db.tickets && db'.events == db.events && db'.runs == db.runs
            && Filter(db'.audit, AboutTicket(u)) == Filter(db.audit, AboutTicket(u))
  {
    hide Filter;
    assert db.audit + [] == db.audit;
    if d < |db.deliveries| && db.deliveries[d].webhook < |db.webhooks| && Delivered(response) {
      FilterAppend(db.audit, SentAudit(d, AttemptedRow(db.deliveries[d], response, cfg.maxRetries)), AboutTicket(u));
    }
  }

  /** The parts of a view that the weak invariant reads. */
  lemma ViewOkReads(cfg: Settings, v: View, w: View)
    requires ViewOk(cfg, v) && w.row == v.row && w.events == v.events
    requires w.audits == v.audits || exists a :: Uncounted(a) && w.audits == v.audits + [a]
    ensures ViewOk(cfg, w)
  {
    hide Filter;
    var v' := v.(notices := w.notices);
    LogIgnoresNotices(cfg, v, v');
    if w.audits != v.audits {
      var a :| Uncounted(a) && w.audits == v.audits + [a];
      AppendUncounted(cfg, v', a);
      assert w == v'.(audits := v'.audits + [a]);
    } else {
      assert w == v';
    }
  }

  lemma SameTicketsKeepWeak(cfg: Settings, c: Conc, db': Db)
    requires WeakInv(cfg, c) && SameTickets(c.db, db') && WellFormed(db')
    ensures WeakInv(cfg, c.(db := db'))
  {
    hide WellFormed, ViewOf, ViewOk;
    forall t | 0 <= t < |db'.tickets| ensures ViewOk(cfg, ViewOf(db', t)) {
      assert ViewOk(cfg, ViewOf(c.db, t));
      ViewOfSameTickets(c.db, db', t);
      ViewOkReads(cfg, ViewOf(c.db, t), ViewOf(db', t));
    }
    forall i | 0 <= i < |c.open| ensures OpenOk(db', c.open[i]) {
      assert OpenOk(c.db, c.open[i]);
    }
  }

  lemma WholeKeepsWeakInv(cfg: Settings, c: Conc, s: Step)
    requires cfg.embedder.dim > 0 && WeakInv(cfg, c) && Atomic(s)
    ensures WeakInv(cfg, c.(db := Apply(cfg, c.db, s)))
  {
    hide WellFormed, ViewOf, ViewOk, SameTickets, CreateTicket, AddDocument, StartRun, UpsertConfig, DeliverOnce, Blank;
    match s {
      case CreateTicketStep(org, actor, title, description, priority) =>
        CreateKeepsWeakInv(cfg, c, org, actor, title, description, priority);
      case AddDocumentStep(org, actor, title, content) =>
        AddDocumentWellFormed(cfg, c.db, org, actor, title, content);
        if !Blank(content) { SameTicketsKeepWeak(cfg, c, Apply(cfg, c.db, s)); }
      case StartRunStep(org, actor, t) =>
        if Visible(c.db, org, t) {
          StartRunWellFormed(c.db, t, Some(actor));
          if c.db.tickets[t].status != Closed { SameTicketsKeepWeak(cfg, c, Apply(cfg, c.db, s)); }
        }
      case UpsertConfigStep(org, url, secret, isActive) =>
        UpsertWellFormed(c.db, org, url, secret, isActive);
        SameTicketsKeepWeak(cfg, c, Apply(cfg, c.db, s));
      case DeliverStep(d, response) =>
        DeliverWellFormed(cfg, c.db, d, response);
        SameTicketsKeepWeak(cfg, c, Apply(cfg, c.db, s));
    }
  }

  lemma CreateKeepsWeakInv(cfg: Settings, c: Conc, org: OrgId, actor: UserId, title: string, description: string, priority: Priority)
    requires WeakInv(cfg, c)
    ensures WeakInv(cfg, c.(db := CreateTicket(c.db, org, actor, title, description, priority)))
  {
    hide WellFormed, ViewOf, ViewOk;
    var db' := CreateTicket(c.db, org, actor, title, description, priority);
    CreateTicketWellFormed(c.db, org, actor, title, description, priority);
    forall t | 0 <= t < |db'.tickets| ensures ViewOk(cfg, ViewOf(db', t)) {
      ViewOfCreateTicket(c.db, org, actor, title, description, priority, t);
      if t < |c.db.tickets| {
        assert ViewOk(cfg, ViewOf(c.db, t));
      } else {
        NewViewOk(cfg, db'.tickets[t], db'.events[|c.db.events|], db'.audit[|c.db.audit|]);
      }
    }
    forall i | 0 <= i < |c.open| ensures OpenOk(db', c.open[i]) {
      assert OpenOk(c.db, c.open[i]);
    }
  }

  lemma NewViewOk(cfg: Settings, row: Ticket, event: TicketEvent, audit: AuditLog)
    requires row.status == New && row.final == None && audit.event == TicketCreated
    requires event.kind == CreatedEvent && event.from == None && event.to == Some(New) && event.actor.Some?
    ensures ViewOk(cfg, View(row, [event], [audit], [])) && ChainOk(View(row, [event], [audit], []))
  {
    hide Filter, LogOk;
    NewTicketOk(cfg, row, event, audit);
    FilterAll([event], HasTarget());
    SelectOne(event, IsKind(ApprovedEvent));
  }

  lemma NotifyKeepsWeakInv(cfg: Settings, c: Conc, t: Id, event: NoticeKind, env: NotifyEnv)
    requires WeakInv(cfg, c) && t < |c.db.tickets|
    ensures WeakInv(cfg, c.(db := Enqueue(cfg, c.db, t, event, env).0))
  {
    hide WellFormed, ViewOk, Filter, Enqueue;
    var db' := Enqueue(cfg, c.db, t, event, env).0;
    EnqueueEffect(cfg, c.db, t, event, env, t);
    forall u | 0 <= u < |db'.tickets| ensures ViewOk(cfg, ViewOf(db', u)) {
      assert ViewOk(cfg, ViewOf(c.db, u));
      EnqueueEffect(cfg, c.db, t, event, env, u);
      ViewOkReads(cfg, ViewOf(c.db, u), ViewOf(db', u));
    }
    forall i | 0 <= i < |c.open| ensures OpenOk(db', c.open[i]) {
      assert OpenOk(c.db, c.open[i]);
    }
  }

  lemma NextKeepsWeakInv(cfg: Settings, c: Conc, step: ConcStep)
    requires cfg.embedder.dim > 0 && WeakInv(cfg, c)
    ensures WeakInv(cfg, Next(cfg, c, step))
  {
    hide WellFormed, ViewsOk, FinishDb, Enqueue, Apply;
    match step {
      case Begin(org, t, call) =>
      case Finish(i) => if i < |c.open| && Ready(c.db, c.open[i]) { FinishKeepsWeakInv(cfg, c, i); }
      case Notice(t, event, env) => if t < |c.db.tickets| { NotifyKeepsWeakInv(cfg, c, t, event, env); }
      case Whole(s) => if Atomic(s) { WholeKeepsWeakInv(cfg, c, s); }
    }
  }

  lemma {:induction false} RunKeepsWeakInv(cfg: Settings, c: Conc, steps: seq<ConcStep>)
    requires cfg.embedder.dim > 0 && WeakInv(cfg, c)
    ensures WeakInv(cfg, Run(cfg, c, steps))
    decreases |steps|
  {
    hide WeakInv, Next;
    if steps != [] {
      NextKeepsWeakInv(cfg, c, steps[0]);
      RunKeepsWeakInv(cfg, Next(cfg, c, steps[0]), steps[1..]);
    }
  }

  lemma StartWeakInv(cfg: Settings)
    ensures WeakInv(cfg, START)
  {}

  /**
   * Under every interleaving each stored event is a legal edge of its kind with a human actor on approvals and
   * rejections, events and audit rows agree, and an approved ticket has a non-blank final response.
   */
  lemma EveryInterleavingKeepsLogs(cfg: Settings, steps: seq<ConcStep>, t: Id)
    requires cfg.embedder.dim > 0 && t < |Run(cfg, START, steps).db.tickets|
    ensures var v := ViewOf(Run(cfg, START, steps).db, t);
            && LogOk(cfg, v) && LastIsCurrent(v)
            && (v.row.status == Approved ==> v.row.final.Some?)
            && (v.row.final.Some? ==> !Blank(v.row.final.value))
            && (v.row.final.Some? <==> Filter(v.events, IsKind(ApprovedEvent)) != [])
  {
    hide Run, ViewOf, LogOk, LastIsCurrent, Blank, WellFormed, AllOpenOk;
    StartWeakInv(cfg);
    RunKeepsWeakInv(cfg, START, steps);
    assert ViewOk(cfg, ViewOf(Run(cfg, START, steps).db, t));
  }

  // ----- what one step does to one ticket

  /** The committed status moves of a step on a ticket: the status loaded, if there is a move. */
  function MoveOf(cfg: Settings, c: Conc, step: ConcStep, t: Id): Option<Patch>
    requires cfg.embedder.dim > 0
  {
    if !step.Finish? || step.i >= |c.open| then None
    else
      var o := c.open[step.i];
      if !Ready(c.db, o) then None
      else
        match CallPatch(cfg, c.db, o)
        case Err(_) => None
        case Ok(p) => if o.ticket == t then Some(p) else None
  }

  /** Only a commit on the ticket changes its row or its events. */
  lemma NextEffect(cfg: Settings, c: Conc, step: ConcStep, t: Id)
    requires cfg.embedder.dim > 0 && WeakInv(cfg, c) && t < |c.db.tickets|
    ensures var c', p := Next(cfg, c, step), MoveOf(cfg, c, step, t);
            && t < |c'.db.tickets|
            && (p.Some? ==> PatchOk(cfg, p.value) && ViewOf(c'.db, t) == LocalCommit(ViewOf(c.db, t), p.value))
            && (p.None? ==> c'.db.tickets[t] == c.db.tickets[t] && ViewOf(c'.db, t).events == ViewOf(c.db, t).events)
  {
    hide ViewsOk, FinishDb, Enqueue, Apply, CallPatch, PatchOk, LocalCommit, Filter;
    match step {
      case Begin(org, u, call) =>
      case Finish(i) =>
        if i < |c.open| && Ready(c.db, c.open[i]) {
          var o := c.open[i];
          assert OpenOk(c.db, o);
          CallPatchOk(cfg, c.db, o);
          FinishEffect(cfg, c.db, o, t);
        }
      case Notice(u, event, env) => if u < |c.db.tickets| { EnqueueEffect(cfg, c.db, u, event, env, t); }
      case Whole(s) => if Atomic(s) { WholeEffect(cfg, c.db, s, t); }
    }
  }

  lemma WholeEffect(cfg: Settings, db: Db, s: Step, t: Id)
    requires cfg.embedder.dim > 0 && WellFormed(db) && Atomic(s) && t < |db.tickets|
    ensures var db' := Apply(cfg, db, s);
            t < |db'.tickets| && db'.tickets[t] == db.tickets[t] && ViewOf(db', t).events == ViewOf(db, t).events
  {
    hide Filter, AddDocument, Blank, FindWebhook;
    if s.CreateTicketStep? {
      ViewOfCreateTicket(db, s.org, s.actor, s.title, s.description, s.priority, t);
    } else if s.AddDocumentStep? {
      AddDocumentWellFormed(cfg, db, s.org, s.actor, s.title, s.content);
    }
  }

  /** No step of any interleaving clears a final response. */
  lemma FinalNeverCleared(cfg: Settings, c: Conc, step: ConcStep, t: Id)
    requires cfg.embedder.dim > 0 && WeakInv(cfg, c) && t < |c.db.tickets| && c.db.tickets[t].final.Some?
    ensures t < |Next(cfg, c, step).db.tickets| && Next(cfg, c, step).db.tickets[t].final.Some?
  {
    hide WeakInv, Next, MoveOf, PatchOk, LocalCommit;
    NextEffect(cfg, c, step, t);
    var p := MoveOf(cfg, c, step, t);
    if p.Some? {
      CommitKeepsFinal(cfg, ViewOf(c.db, t), p.value);
      RowOfView(Next(cfg, c, step).db, t);
    }
  }

  // ----- when the full history chain holds

  ghost predicate ChainAt(db: Db, t: Id) { t < |db.tickets| ==> ChainOk(ViewOf(db, t)) }

  /** A commit on the ticket that moves its status had loaded the status it now finds. */
  ghost predicate FreshStep(cfg: Settings, c: Conc, step: ConcStep, t: Id)
    requires cfg.embedder.dim > 0
  {
    var p := MoveOf(cfg, c, step, t);
    p.Some? && p.value.event.to.Some? && t < |c.db.tickets| ==> p.value.loaded.status == c.db.tickets[t].status
  }

  ghost predicate AllFresh(cfg: Settings, c: Conc, steps: seq<ConcStep>, t: Id)
    requires cfg.embedder.dim > 0
    decreases |steps|
  {
    steps == [] || (FreshStep(cfg, c, steps[0], t) && AllFresh(cfg, Next(cfg, c, steps[0]), steps[1..], t))
  }

  /** A broken path stays broken. */
  lemma BrokenStaysBroken(cfg: Settings, v: View, p: Patch)
    requires ViewOk(cfg, v) && PatchOk(cfg, p) && ChainOk(LocalCommit(v, p))
    ensures ChainOk(v)
  {
    hide Filter, LogOk, CanTransition, Blank;
    AppendEvent(v, p, HasTarget());
    var h, h' := StatusEvents(v.events), StatusEvents(LocalCommit(v, p).events);
    assert forall k | 0 <= k < |h| :: h'[k] == h[k];
  }

  lemma CommitChain(cfg: Settings, v: View, p: Patch)
    requires ViewOk(cfg, v) && PatchOk(cfg, p)
    ensures ChainOk(LocalCommit(v, p)) <==> ChainOk(v) && (p.event.to.Some? ==> p.loaded.status == v.row.status)
  {
    hide ViewOk, PatchOk, ChainOk, LocalCommit;
    if ChainOk(LocalCommit(v, p)) {
      BrokenStaysBroken(cfg, v, p);
    }
    if ChainOk(v) {
      if p.event.to.Some? { ChainIffFresh(cfg, v, p); } else { EditKeepsChain(cfg, v, p); }
    }
  }

  lemma NextChain(cfg: Settings, c: Conc, step: ConcStep, t: Id)
    requires cfg.embedder.dim > 0 && WeakInv(cfg, c)
    ensures ChainAt(Next(cfg, c, step).db, t) <==> ChainAt(c.db, t) && FreshStep(cfg, c, step, t)
  {
    hide Next, MoveOf, PatchOk, LocalCommit, ChainOk, ViewOf, ViewOk, WellFormed, AllOpenOk;
    if t < |c.db.tickets| {
      NextEffect(cfg, c, step, t);
      var p := MoveOf(cfg, c, step, t);
      var v, v' := ViewOf(c.db, t), ViewOf(Next(cfg, c, step).db, t);
      assert ViewOk(cfg, v);
      RowOfView(c.db, t);
      RowOfView(Next(cfg, c, step).db, t);
      if p.Some? {
        CommitChain(cfg, v, p.value);
      } else {
        ChainReads(v, v');
      }
    } else {
      NewTicketChain(cfg, c, step, t);
    }
  }

  lemma ChainReads(v: View, w: View)
    requires v.row == w.row && v.events == w.events
    ensures ChainOk(v) == ChainOk(w)
  {}

  lemma NewTicketChain(cfg: Settings, c: Conc, step: ConcStep, t: Id)
    requires cfg.embedder.dim > 0 && WeakInv(cfg, c) && t >= |c.db.tickets|
    ensures ChainAt(Next(cfg, c, step).db, t)
  {
    hide FinishDb, Enqueue, ViewsOk, ViewOf, ChainOk, DeliverOnce, AddDocument, Blank, WellFormed;
    match step {
      case Begin(org, u, call) =>
      case Finish(i) => if i < |c.open| && Ready(c.db, c.open[i]) { assert OpenOk(c.db, c.open[i]); FinishReferences(cfg, c.db, c.open[i]); }
      case Notice(u, event, env) => if u < |c.db.tickets| { EnqueueKeeps(cfg, c.db, u, event, env); }
      case Whole(s) =>
        if Atomic(s) {
          match s {
            case CreateTicketStep(org, actor, title, description, priority) =>
              var db' := CreateTicket(c.db, org, actor, title, description, priority);
              if t == |c.db.tickets| {
                ViewOfCreateTicket(c.db, org, actor, title, description, priority, t);
                NewViewOk(cfg, db'.tickets[t], db'.events[|c.db.events|], db'.audit[|c.db.audit|]);
              }
            case AddDocumentStep(org, actor, title, content) =>
              AddDocumentWellFormed(cfg, c.db, org, actor, title, content);
              AddDocumentKeepsTickets(cfg, c.db, org, actor, title, content);
            case StartRunStep(org, actor, u) =>
            case UpsertConfigStep(org, url, secret, isActive) =>
            case DeliverStep(d, response) => DeliverKeepsTickets(cfg, c.db, d, response);
          }
        }
    }
  }

  lemma AddDocumentKeepsTickets(cfg: Settings, db: Db, org: OrgId, actor: UserId, title: string, content: string)
    requires cfg.embedder.dim > 0
    ensures AddDocument(cfg, db, org, actor, title, content).tickets == db.tickets
  {}

  lemma DeliverKeepsTickets(cfg: Settings, db: Db, d: Id, response: Response)
    ensures DeliverOnce(cfg, db, d, response).0.tickets == db.tickets
  {}

  /**
   * The exact condition, for every interleaving: a ticket's history is a legal path to its status if and only if each
   * committed move had loaded the status it found, which a version check before the commit would test.
   */
  lemma {:induction false} ChainIffAllFresh(cfg: Settings, c: Conc, steps: seq<ConcStep>, t: Id)
    requires cfg.embedder.dim > 0 && WeakInv(cfg, c)
    ensures ChainAt(Run(cfg, c, steps).db, t) <==> ChainAt(c.db, t) && AllFresh(cfg, c, steps, t)
    decreases |steps|
  {
    hide WeakInv, Next, ChainAt, FreshStep;
    if steps != [] {
      NextChain(cfg, c, steps[0], t);
      NextKeepsWeakInv(cfg, c, steps[0]);
      ChainIffAllFresh(cfg, Next(cfg, c, steps[0]), steps[1..], t);
    }
  }

  // ----- no overlap on a ticket

  /** At every moment at most one call is open on the ticket. */
  ghost predicate NoOverlap(cfg: Settings, c: Conc, steps: seq<ConcStep>, t: Id)
    requires cfg.embedder.dim > 0
    decreases |steps|
  {
    && (forall i, j | 0 <= i < j < |c.open| :: !(c.open[i].ticket == t && c.open[j].ticket == t))
    && (steps == [] || NoOverlap(cfg, Next(cfg, c, steps[0]), steps[1..], t))
  }

  ghost predicate OpenFresh(c: Conc, t: Id) {
    t < |c.db.tickets| ==> forall i | 0 <= i < |c.open| && c.open[i].ticket == t :: c.open[i].loaded == c.db.tickets[t]
  }

  lemma NextOpenFresh(cfg: Settings, c: Conc, step: ConcStep, t: Id)
    requires cfg.embedder.dim > 0 && WeakInv(cfg, c) && OpenFresh(c, t)
    requires forall i, j | 0 <= i < j < |c.open| :: !(c.open[i].ticket == t && c.open[j].ticket == t)
    ensures OpenFresh(Next(cfg, c, step), t)
  {
    hide WellFormed, ViewsOk, FinishDb, Enqueue, Apply, CallPatch, ViewOf, PatchOk, LocalCommit;
    if t < |c.db.tickets| {
      NextEffect(cfg, c, step, t);
      if step.Finish? && step.i < |c.open| && Ready(c.db, c.open[step.i]) {
        var i := step.i;
        assert OpenOk(c.db, c.open[i]);
        forall j | 0 <= j < |Without(c.open, i)| && Without(c.open, i)[j].ticket == t
          ensures Without(c.open, i)[j].loaded == Next(cfg, c, step).db.tickets[t]
        {
          var k := if j < i then j else j + 1;
          assert c.open[k].ticket == t;
          assert c.open[i].ticket != t;
        }
      }
    } else {
      assert forall i | 0 <= i < |c.open| :: OpenOk(c.db, c.open[i]);
      NewTicketUnopened(cfg, c, step, t);
    }
  }

  lemma NewTicketUnopened(cfg: Settings, c: Conc, step: ConcStep, t: Id)
    requires cfg.embedder.dim > 0 && t >= |c.db.tickets| && AllOpenOk(c)
    ensures forall i | 0 <= i < |Next(cfg, c, step).open| :: Next(cfg, c, step).open[i].ticket != t
  {
    hide FinishDb, Enqueue, Apply;
    assert forall i | 0 <= i < |c.open| :: OpenOk(c.db, c.open[i]);
  }

  lemma OpenFreshStep(cfg: Settings, c: Conc, step: ConcStep, t: Id)
    requires cfg.embedder.dim > 0 && WeakInv(cfg, c) && OpenFresh(c, t)
    ensures FreshStep(cfg, c, step, t)
  {
    hide WellFormed, ViewsOk, CallPatch, PatchOk;
    if step.Finish? && step.i < |c.open| && Ready(c.db, c.open[step.i]) {
      assert OpenOk(c.db, c.open[step.i]);
      CallPatchOk(cfg, c.db, c.open[step.i]);
    }
  }

  lemma {:induction false} NoOverlapIsFresh(cfg: Settings, c: Conc, steps: seq<ConcStep>, t: Id)
    requires cfg.embedder.dim > 0 && WeakInv(cfg, c) && OpenFresh(c, t) && NoOverlap(cfg, c, steps, t)
    ensures AllFresh(cfg, c, steps, t)
    decreases |steps|
  {
    hide WeakInv, Next, FreshStep, OpenFresh;
    if steps != [] {
      OpenFreshStep(cfg, c, steps[0], t);
      NextOpenFresh(cfg, c, steps[0], t);
      NextKeepsWeakInv(cfg, c, steps[0]);
      NoOverlapIsFresh(cfg, Next(cfg, c, steps[0]), steps[1..], t);
    }
  }

  /** If no two calls on a ticket overlap, its full history chain holds, whatever happens on other tickets. */
  lemma NoOverlapKeepsChain(cfg: Settings, steps: seq<ConcStep>, t: Id)
    requires cfg.embedder.dim > 0 && NoOverlap(cfg, START, steps, t) && t < |Run(cfg, START, steps).db.tickets|
    ensures ChainOk(ViewOf(Run(cfg, START, steps).db, t))
  {
    hide Run, NoOverlap, WeakInv, AllFresh, ChainOk, ViewOf;
    StartWeakInv(cfg);
    NoOverlapIsFresh(cfg, START, steps, t);
    ChainIffAllFresh(cfg, START, steps, t);
  }

  // ----- what a stale commit writes

  /** The value a column takes: what the call wrote, unless that is what it had loaded. */
  function Over<T(==)>(now: T, loaded: T, written: T): T {
    if written != loaded then written else now
  }

  /**
   * A human call that finishes over a newer row changes the status it decides and the text it writes, and keeps every
   * other column as it finds it.
   */
  lemma StaleColumns(cfg: Settings, c: Conc, i: nat)
    requires cfg.embedder.dim > 0 && WeakInv(cfg, c) && i < |c.open| && !c.open[i].call.RunCall?
    requires CallPatch(cfg, c.db, c.open[i]).Ok?
    ensures var o, db' := c.open[i], Next(cfg, c, Finish(i)).db;
            && o.ticket < |c.db.tickets|
            && var now, loaded := c.db.tickets[o.ticket], o.loaded;
            db'.tickets == c.db.tickets[o.ticket :=
              match o.call
              case ApproveCall(_, edited) =>
                now.(status := Approved, final := Over(now.final, loaded.final, if edited.Some? then edited else loaded.draft))
              case RejectCall(_, _) => now.(status := Rejected)
              case EditCall(_, content) => now.(draft := Over(now.draft, loaded.draft, Some(content)))
              case RunCall(_, _) => now]
  {
    hide Blank;
    BlankEmpty();
    assert OpenOk(c.db, c.open[i]);
  }

  /** A run that finishes over a newer row changes the status and, where they differ from the loaded ones, the three suggestions. */
  lemma StaleRunColumns(cfg: Settings, c: Conc, i: nat)
    requires cfg.embedder.dim > 0 && WeakInv(cfg, c) && i < |c.open| && c.open[i].call.RunCall? && Ready(c.db, c.open[i])
    requires CallPatch(cfg, c.db, c.open[i]).Ok?
    ensures var o, db' := c.open[i], Next(cfg, c, Finish(i)).db;
            && o.ticket < |c.db.tickets|
            && var now, loaded, w := c.db.tickets[o.ticket], o.loaded, Workflow(cfg, c.db, o.loaded, o.call.env);
            && w.Ok? && w.value.classification.Some?
            && db'.tickets == c.db.tickets[o.ticket := now.(
                 status := TargetStatus(w.value.outcome),
                 suggestedType := Over(now.suggestedType, loaded.suggestedType, Some(w.value.classification.value.kind)),
                 suggestedPriority := Over(now.suggestedPriority, loaded.suggestedPriority, Some(w.value.classification.value.priority)),
                 draft := Over(now.draft, loaded.draft, w.value.draft))]
  {
    hide RunWorkflow, RunAudits, FinishedRun;
    var o := c.open[i];
    assert OpenOk(c.db, o);
    WorkflowDecided(cfg, c.db.chunks, o.call.env.llm, o.loaded.org, o.loaded.title, o.loaded.description);
    OwnStatus(o.loaded.status);
  }

  lemma OwnStatus(s: TicketStatus)
    ensures !CanTransition(s, s)
  {}

  // ----- why the condition is needed

  function Approval(t: Id, loaded: Ticket, actor: UserId, text: string): Open {
    Open(t, loaded, ApproveCall(actor, Some(text)))
  }

  /** A call that loaded a waiting ticket approves it, whatever the ticket has become. */
  lemma FinishApproval(cfg: Settings, c: Conc, t: Id, loaded: Ticket, actor: UserId, text: string)
    requires cfg.embedder.dim > 0 && WeakInv(cfg, c) && t < |c.db.tickets| && c.open != []
    requires c.open[0] == Approval(t, loaded, actor, text)
    requires loaded.status == WaitingApproval && loaded.final == None && !Blank(text)
    ensures var c' := Next(cfg, c, Finish(0));
            && WeakInv(cfg, c') && t < |c'.db.tickets| && c'.open == Without(c.open, 0)
            && c'.db.tickets[t].status == Approved && c'.db.tickets[t].final == Some(text)
            && |Filter(ViewOf(c'.db, t).events, IsKind(ApprovedEvent))| == |Filter(ViewOf(c.db, t).events, IsKind(ApprovedEvent))| + 1
            && (ChainOk(ViewOf(c'.db, t)) <==> ChainOk(ViewOf(c.db, t)) && c.db.tickets[t].status == WaitingApproval)
  {
    hide WeakInv, Filter, ViewOf, ChainOk, PatchOk, FinishDb, Blank;
    var p := ApprovePatch(t, loaded, actor, Some(text)).value;
    assert MoveOf(cfg, c, Finish(0), t) == Some(p);
    NextKeepsWeakInv(cfg, c, Finish(0));
    NextEffect(cfg, c, Finish(0), t);
    NextChain(cfg, c, Finish(0), t);
    AppendEvent(ViewOf(c.db, t), p, IsKind(ApprovedEvent));
    RowOfView(c.db, t);
    RowOfView(Next(cfg, c, Finish(0)).db, t);
  }

  /** Two operators who both load a waiting ticket both approve it: the second answer replaces the first and the path breaks. */
  lemma DoubleApproval(cfg: Settings, c: Conc, t: Id, first: UserId, second: UserId, text1: string, text2: string)
    requires cfg.embedder.dim > 0 && WeakInv(cfg, c) && c.open == [] && t < |c.db.tickets|
    requires c.db.tickets[t].status == WaitingApproval && c.db.tickets[t].final == None && !Blank(text1) && !Blank(text2)
    ensures var org := c.db.tickets[t].org;
            var end := Run(cfg, c, [Begin(org, t, ApproveCall(first, Some(text1))), Begin(org, t, ApproveCall(second, Some(text2))),
                                    Finish(0), Finish(0)]);
            && t < |end.db.tickets|
            && |Filter(ViewOf(end.db, t).events, IsKind(ApprovedEvent))| == |Filter(ViewOf(c.db, t).events, IsKind(ApprovedEvent))| + 2
            && end.db.tickets[t].final == Some(text2)
            && !ChainOk(ViewOf(end.db, t))
  {
    hide Filter, WeakInv, ViewOf, ChainOk, FinishDb, Blank;
    var row := c.db.tickets[t];
    var b1, b2 := Begin(row.org, t, ApproveCall(first, Some(text1))), Begin(row.org, t, ApproveCall(second, Some(text2)));
    var o1, o2 := Approval(t, row, first, text1), Approval(t, row, second, text2);
    var c2 := Conc(c.db, [o1, o2]);
    assert Next(cfg, Next(cfg, c, b1), b2) == c2;
    NextKeepsWeakInv(cfg, c, b1);
    NextKeepsWeakInv(cfg, Next(cfg, c, b1), b2);
    var c3 := Next(cfg, c2, Finish(0));
    FinishApproval(cfg, c2, t, row, first, text1);
    assert Without(c2.open, 0) == [o2];
    FinishApproval(cfg, c3, t, row, second, text2);
    RunOfFour(cfg, c, b1, b2, Finish(0), Finish(0));
  }

  lemma RunStep(cfg: Settings, c: Conc, s: ConcStep, rest: seq<ConcStep>)
    requires cfg.embedder.dim > 0
    ensures Run(cfg, c, [s] + rest) == Run(cfg, Next(cfg, c, s), rest)
    ensures Run(cfg, c, []) == c
  {
    hide Next;
    assert ([s] + rest)[1..] == rest;
  }

  lemma RunOfFour(cfg: Settings, c: Conc, a: ConcStep, b: ConcStep, d: ConcStep, e: ConcStep)
    requires cfg.embedder.dim > 0
    ensures Run(cfg, c, [a, b, d, e]) == Next(cfg, Next(cfg, Next(cfg, Next(cfg, c, a), b), d), e)
  {
    hide Next, Run;
    assert [a, b, d, e] == [a] + [b, d, e] && [b, d, e] == [b] + [d, e] && [d, e] == [d] + [e] && [e] == [e] + [];
    RunStep(cfg, c, a, [b, d, e]);
    RunStep(cfg, Next(cfg, c, a), b, [d, e]);
    RunStep(cfg, Next(cfg, Next(cfg, c, a), b), d, [e]);
    RunStep(cfg, Next(cfg, Next(cfg, Next(cfg, c, a), b), d), e, []);
    RunStep(cfg, Next(cfg, Next(cfg, Next(cfg, Next(cfg, c, a), b), d), e), e, []);
  }
}
