/** What every interleaving counts right: the start rows of runs, the outcomes of completed runs, and the metrics. */
module InterleavedCounts {
  import opened Sequences
  import opened Text
  import opened Models
  import opened Agent
  import opened Transactions
  import opened History
  import opened Machine
  import opened Guarantees
  import opened Interleaving
  import opened MetricsService

  // ----- one start row for each run

  lemma StartsSame(db: Db, db': Db)
    requires StartsOk(db) && Starts(db') == Starts(db) && |db'.runs| == |db.runs|
    requires forall r | 0 <= r < |db.runs| :: db'.runs[r].ticket == db.runs[r].ticket
    ensures StartsOk(db')
  {
    hide Filter, Starts;
  }

  lemma PatchStartsNothing(cfg: Settings, p: Patch)
    requires PatchOk(cfg, p)
    ensures forall a | a in p.audits :: a.event != AgentRunStarted
  {
    hide EventOk, CanTransition, Blank;
  }

  lemma FinishKeepsStarts(cfg: Settings, db: Db, o: Open)
    requires cfg.embedder.dim > 0 && OpenOk(db, o) && Ready(db, o) && WellFormed(db) && StartsOk(db)
    ensures StartsOk(FinishDb(cfg, db, o))
  {
    hide PatchOk, CallPatch, MergeTicket, Filter, Starts, WellFormed, StartsOk;
    CallPatchOk(cfg, db, o);
    FinishReferences(cfg, db, o);
    var p := CallPatch(cfg, db, o);
    if p.Ok? {
      PatchStartsNothing(cfg, p.value);
      StartsAfter(db, p.value.audits);
      StartsOfAudit(FinishDb(cfg, db, o), db.audit + p.value.audits);
    } else {
      StartsOfAudit(FinishDb(cfg, db, o), db.audit);
    }
    StartsOfAudit(db, db.audit);
    StartsSame(db, FinishDb(cfg, db, o));
  }

  lemma StartsOfAudit(db: Db, audit: seq<AuditLog>)
    requires db.audit == audit
    ensures Starts(db) == Filter(audit, IsAudit(AgentRunStarted))
  {}

  lemma DeliverStarts(cfg: Settings, db: Db, d: Id, response: Response)
    ensures var db' := DeliverOnce(cfg, db, d, response).0;
            db'.runs == db.runs && Starts(db') == Starts(db)
  {
    if d < |db.deliveries| && db.deliveries[d].webhook < |db.webhooks| {
      StartsAfter(db, if Delivered(response) then [SentAudit(d, AttemptedRow(db.deliveries[d], response, cfg.maxRetries))] else []);
    }
  }

  lemma NoticeStarts(cfg: Settings, db: Db, t: Id, event: NoticeKind, env: NotifyEnv)
    requires t < |db.tickets|
    ensures var db' := Enqueue(cfg, db, t, event, env).0;
            db'.runs == db.runs && Starts(db') == Starts(db)
  {
    hide FindWebhook, Filter, DeliverOnce;
    var ticket := db.tickets[t];
    var w := FindWebhook(db.webhooks, ticket.org);
    if !env.fault.BeforeInsert? && w.Some? && db.webhooks[w.value].isActive {
      var id := |db.deliveries|;
      var row := Delivery(w.value, ticket.org, event, TicketPayload(t, ticket, event, id), Pending, 0, None, None);
      DeliverStarts(cfg, db.(deliveries := db.deliveries + [row]), id, env.response);
    }
  }

  lemma CreateStarts(db: Db, org: OrgId, actor: UserId, title: string, description: string, priority: Priority)
    ensures var db' := CreateTicket(db, org, actor, title, description, priority);
            db'.runs == db.runs && Starts(db') == Starts(db)
  {
    hide Filter;
    FilterAppend(db.audit, CreateTicket(db, org, actor, title, description, priority).audit[|db.audit|], IsAudit(AgentRunStarted));
  }

  lemma StartRunKeepsStarts(db: Db, t: Id, actor: Option<UserId>)
    requires t < |db.tickets| && StartsOk(db)
    ensures StartsOk(StartRun(db, t, actor))
  {
    hide Filter;
    FilterAppend(db.audit, StartRun(db, t, actor).audit[|db.audit|], IsAudit(AgentRunStarted));
  }

  lemma AddDocumentStarts(cfg: Settings, db: Db, org: OrgId, actor: UserId, title: string, content: string)
    requires cfg.embedder.dim > 0
    ensures var db' := AddDocument(cfg, db, org, actor, title, content);
            db'.runs == db.runs && Starts(db') == Starts(db)
  {}

  lemma UpsertStarts(db: Db, org: OrgId, url: string, secret: string, isActive: bool)
    ensures var db' := UpsertConfig(db, org, url, secret, isActive);
            db'.runs == db.runs && Starts(db') == Starts(db)
  {}

  lemma WholeKeepsStarts(cfg: Settings, db: Db, s: Step)
    requires cfg.embedder.dim > 0 && StartsOk(db) && Atomic(s)
    ensures StartsOk(Apply(cfg, db, s))
  {
    hide StartsOk, Starts, CreateTicket, AddDocument, StartRun, UpsertConfig, DeliverOnce, Blank;
    match s {
      case CreateTicketStep(org, actor, title, description, priority) =>
        CreateStarts(db, org, actor, title, description, priority);
        StartsSame(db, Apply(cfg, db, s));
      case AddDocumentStep(org, actor, title, content) =>
        AddDocumentStarts(cfg, db, org, actor, title, content);
        StartsSame(db, Apply(cfg, db, s));
      case StartRunStep(org, actor, t) =>
        if Visible(db, org, t) { StartRunKeepsStarts(db, t, Some(actor)); }
      case UpsertConfigStep(org, url, secret, isActive) =>
        UpsertStarts(db, org, url, secret, isActive);
        StartsSame(db, Apply(cfg, db, s));
      case DeliverStep(d, response) =>
        DeliverStarts(cfg, db, d, response);
        StartsSame(db, Apply(cfg, db, s));
    }
  }

  lemma NextKeepsStarts(cfg: Settings, c: Conc, step: ConcStep)
    requires cfg.embedder.dim > 0 && WeakInv(cfg, c) && StartsOk(c.db)
    ensures StartsOk(Next(cfg, c, step).db)
  {
    hide WellFormed, ViewsOk, StartsOk, Starts, FinishDb, Enqueue, Apply;
    match step {
      case Begin(org, t, call) =>
      case Finish(i) =>
        if i < |c.open| && Ready(c.db, c.open[i]) { assert OpenOk(c.db, c.open[i]); FinishKeepsStarts(cfg, c.db, c.open[i]); }
      case Notice(t, event, env) =>
        if t < |c.db.tickets| {
          NoticeStarts(cfg, c.db, t, event, env);
          StartsSame(c.db, Enqueue(cfg, c.db, t, event, env).0);
        }
      case Whole(s) => if Atomic(s) { WholeKeepsStarts(cfg, c.db, s); }
    }
  }

  lemma {:induction false} RunKeepsStarts(cfg: Settings, c: Conc, steps: seq<ConcStep>)
    requires cfg.embedder.dim > 0 && WeakInv(cfg, c) && StartsOk(c.db)
    ensures StartsOk(Run(cfg, c, steps).db)
    decreases |steps|
  {
    hide WeakInv, Next, StartsOk;
    if steps != [] {
      NextKeepsWeakInv(cfg, c, steps[0]);
      NextKeepsStarts(cfg, c, steps[0]);
      RunKeepsStarts(cfg, Next(cfg, c, steps[0]), steps[1..]);
    }
  }

  lemma EmptyStarts()
    ensures StartsOk(START.db)
  {}

  /** Under every interleaving a ticket has one start row for each of its runs. */
  lemma EveryInterleavingCountsRuns(cfg: Settings, steps: seq<ConcStep>, t: Id)
    requires cfg.embedder.dim > 0
    ensures var db := Run(cfg, START, steps).db;
            |Filter(Filter(db.audit, AboutTicket(t)), IsAudit(AgentRunStarted))| == |Filter(db.runs, RunOf(t))|
  {
    hide Run, WeakInv, StartsOk, Filter;
    StartWeakInv(cfg);
    EmptyStarts();
    RunKeepsStarts(cfg, START, steps);
    StartsPerTicket(Run(cfg, START, steps).db, t);
  }

  // ----- completed runs have the outcome of their confidence

  /** A finished call writes a sound run row, also over columns that another execution of the run has written. */
  lemma FinishKeepsRuns(cfg: Settings, db: Db, o: Open)
    requires cfg.embedder.dim > 0 && OpenOk(db, o) && Ready(db, o) && RunsOk(cfg, db)
    ensures RunsOk(cfg, FinishDb(cfg, db, o))
  {
    hide RunOk, MergeTicket, PatchOk, CallPatch;
    CallPatchOk(cfg, db, o);
    match CallPatch(cfg, db, o) {
      case Err(e) => if o.call.RunCall? { FailedRunOk(cfg, db.runs[o.call.run], e); }
      case Ok(p) =>
        FinishedRunOk(cfg, db, o);
        if o.call.RunCall? && o.call.env.refreshFault.Some? {
          FailedRunOk(cfg, CommitPatch(db, p).runs[o.call.run], Fault(o.call.env.refreshFault.value));
        }
    }
  }

  lemma FailedRunOk(cfg: Settings, run: AgentRun, e: Error)
    ensures RunOk(cfg, run) ==> RunOk(cfg, run.(status := Failed, error := Some(e)))
  {}

  lemma FinishedRunOk(cfg: Settings, db: Db, o: Open)
    requires cfg.embedder.dim > 0 && OpenOk(db, o) && Ready(db, o) && CallPatch(cfg, db, o).Ok?
    ensures var w := CallPatch(cfg, db, o).value.run;
            w.WriteRun? ==> RunOk(cfg, w.row)
  {
    hide RunOk, PatchOk, ApprovePatch, RejectPatch, EditPatch, ExecutePatch;
    CallPatchOk(cfg, db, o);
    if o.call.RunCall? {
      ExecutePatchOk(cfg, db, o.call.run, o.loaded, o.call.env);
    }
  }

  lemma SameRunsOk(cfg: Settings, db: Db, db': Db)
    requires RunsOk(cfg, db) && db'.runs == db.runs
    ensures RunsOk(cfg, db')
  {}

  lemma StartRunKeepsRuns(cfg: Settings, db: Db, t: Id, actor: Option<UserId>)
    requires t < |db.tickets| && RunsOk(cfg, db)
    ensures RunsOk(cfg, StartRun(db, t, actor))
  {}

  lemma NextKeepsRuns(cfg: Settings, c: Conc, step: ConcStep)
    requires cfg.embedder.dim > 0 && WeakInv(cfg, c) && RunsOk(cfg, c.db)
    ensures RunsOk(cfg, Next(cfg, c, step).db)
  {
    hide WellFormed, ViewsOk, RunsOk, Starts, FinishDb, Enqueue, CreateTicket, AddDocument, StartRun, UpsertConfig, DeliverOnce, Blank;
    var db, db' := c.db, Next(cfg, c, step).db;
    match step {
      case Begin(org, t, call) =>
      case Finish(i) => if i < |c.open| && Ready(db, c.open[i]) { assert OpenOk(db, c.open[i]); FinishKeepsRuns(cfg, db, c.open[i]); }
      case Notice(t, event, env) => if t < |db.tickets| { NoticeStarts(cfg, db, t, event, env); SameRunsOk(cfg, db, db'); }
      case Whole(s) =>
        if Atomic(s) {
          match s {
            case CreateTicketStep(org, actor, title, description, priority) =>
              CreateStarts(db, org, actor, title, description, priority);
              SameRunsOk(cfg, db, db');
            case AddDocumentStep(org, actor, title, content) =>
              AddDocumentStarts(cfg, db, org, actor, title, content);
              SameRunsOk(cfg, db, db');
            case StartRunStep(org, actor, t) => if Visible(db, org, t) { StartRunKeepsRuns(cfg, db, t, Some(actor)); }
            case UpsertConfigStep(org, url, secret, isActive) =>
              UpsertStarts(db, org, url, secret, isActive);
              SameRunsOk(cfg, db, db');
            case DeliverStep(d, response) =>
              DeliverStarts(cfg, db, d, response);
              SameRunsOk(cfg, db, db');
          }
        }
    }
  }

  lemma {:induction false} RunKeepsRuns(cfg: Settings, c: Conc, steps: seq<ConcStep>)
    requires cfg.embedder.dim > 0 && WeakInv(cfg, c) && RunsOk(cfg, c.db)
    ensures RunsOk(cfg, Run(cfg, c, steps).db)
    decreases |steps|
  {
    hide WeakInv, Next, RunsOk;
    if steps != [] {
      NextKeepsWeakInv(cfg, c, steps[0]);
      NextKeepsRuns(cfg, c, steps[0]);
      RunKeepsRuns(cfg, Next(cfg, c, steps[0]), steps[1..]);
    }
  }

  lemma StatusIsReachable(cfg: Settings, v: View)
    requires ViewOk(cfg, v)
    ensures Reachable(v.row.status)
  {
    hide Filter, LogOk, Blank;
    LogShapes(cfg, v);
    assert StatusEvents(v.events)[|StatusEvents(v.events)| - 1] in StatusEvents(v.events);
  }

  /** The metrics agree with the machine under every interleaving, as they do after every serial run. */
  lemma EveryInterleavingMetrics(cfg: Settings, steps: seq<ConcStep>, org: OrgId)
    requires cfg.embedder.dim > 0
    ensures MetricsOk(cfg, Run(cfg, START, steps).db, org)
  {
    hide Run, RunsOk, MetricsOk, ViewOf, ViewOk, WellFormed, AllOpenOk;
    StartWeakInv(cfg);
    RunsAtStart(cfg);
    RunKeepsWeakInv(cfg, START, steps);
    RunKeepsRuns(cfg, START, steps);
    var db := Run(cfg, START, steps).db;
    forall t | 0 <= t < |db.tickets| ensures Reachable(db.tickets[t].status) {
      assert ViewOk(cfg, ViewOf(db, t));
      StatusIsReachable(cfg, ViewOf(db, t));
      RowOfView(db, t);
    }
    MetricsFollow(cfg, db, org);
  }

  lemma RunsAtStart(cfg: Settings)
    ensures RunsOk(cfg, START.db)
  {}
}
