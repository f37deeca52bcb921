/**
 * Human approval when calls overlap: it is final on every ticket whose moves all found the status they had loaded, and
 * on an approved ticket exactly then. What needs no such condition is proved for every interleaving.
 */
module Finality {
  import opened Sequences
  import opened Text
  import opened Models
  import opened Agent
  import opened Transactions
  import opened History
  import opened Machine
  import opened Guarantees
  import opened Interleaving

  // ----- a legal history has one approval exactly if it ends in one

  /** No stored event leaves `approved`, so a legal path enters it once, at its end, or never. */
  lemma {:induction false} PathApprovals(h: seq<TicketEvent>, status: TicketStatus)
    requires Path(h, status) && forall e | e in h :: EventOk(e)
    ensures |Filter(h, IsKind(ApprovedEvent))| == if status == Approved then 1 else 0
    ensures Reachable(status)
    decreases |h|
  {
    hide Filter;
    var init, last := h[..|h| - 1], h[|h| - 1];
    assert h == init + [last];
    assert EventOk(last);
    FilterAppend(init, last, IsKind(ApprovedEvent));
    if |h| == 1 {
      FilterNone(init, IsKind(ApprovedEvent));
    } else {
      var k := |h| - 1;
      assert h[k].from.Some? && h[k].from == h[k - 1].to && CanTransition(h[k].from.value, h[k].to.value);
      assert init[k - 1] == h[k - 1];
      assert forall j | 0 <= j < k :: init[j] == h[j];
      PathApprovals(init, last.from.value);
    }
  }

  /** In every interleaving, a ticket whose history is a legal path has all the guarantees of an approval. */
  lemma ChainGivesFinality(cfg: Settings, v: View)
    requires ViewOk(cfg, v) && ChainOk(v)
    ensures FinalOk(v) && (v.row.final.Some? ==> HumanApproved(cfg, v))
  {
    hide Filter, LogOk, Path, EventOk, Blank, HumanApproved;
    EventsAreOk(cfg, v);
    PathApprovals(StatusEvents(v.events), v.row.status);
    ApprovalsMove(v);
    FilterNarrow(v.events, HasTarget(), IsKind(ApprovedEvent));
    if v.row.status == Approved {
      ApprovedIsHuman(cfg, v);
    }
  }

  lemma ApprovalsMove(v: View)
    requires forall e | e in v.events :: EventOk(e)
    ensures forall e | e in v.events && IsKind(ApprovedEvent)(e) :: HasTarget()(e)
  {
    hide CanTransition;
  }

  lemma FreshKeepsFinality(cfg: Settings, steps: seq<ConcStep>, t: Id)
    requires cfg.embedder.dim > 0 && AllFresh(cfg, START, steps, t) && t < |Run(cfg, START, steps).db.tickets|
    ensures var v := ViewOf(Run(cfg, START, steps).db, t);
            ChainOk(v) && FinalOk(v) && (v.row.final.Some? ==> HumanApproved(cfg, v))
  {
    hide Run, AllFresh, ChainOk, ViewOf, ViewOk, FinalOk, HumanApproved, WellFormed, AllOpenOk;
    StartWeakInv(cfg);
    RunKeepsWeakInv(cfg, START, steps);
    ChainIffAllFresh(cfg, START, steps, t);
    ChainGivesFinality(cfg, ViewOf(Run(cfg, START, steps).db, t));
  }

  /**
   * If no two calls on a ticket overlap, a final response exists exactly if the ticket is approved, once, by a user,
   * directly after a confident agent run, whatever happens on other tickets.
   */
  lemma NoOverlapKeepsFinality(cfg: Settings, steps: seq<ConcStep>, t: Id)
    requires cfg.embedder.dim > 0 && NoOverlap(cfg, START, steps, t) && t < |Run(cfg, START, steps).db.tickets|
    ensures var v := ViewOf(Run(cfg, START, steps).db, t);
            FinalOk(v) && (v.row.final.Some? ==> HumanApproved(cfg, v))
  {
    hide Run, NoOverlap, WeakInv, AllFresh, ChainOk, ViewOf, FinalOk, HumanApproved;
    StartWeakInv(cfg);
    NoOverlapIsFresh(cfg, START, steps, t);
    FreshKeepsFinality(cfg, steps, t);
  }

  // ----- when an approval stays final

  function Approvals(v: View): nat { |Filter(v.events, IsKind(ApprovedEvent))| }

  /** Approved, once. */
  ghost predicate ApprovedOnce(v: View) { v.row.status == Approved && Approvals(v) == 1 }

  /** Approved more than once, or no longer approved. */
  ghost predicate Spoiled(v: View) { Approvals(v) >= 2 || (Approvals(v) == 1 && v.row.status != Approved) }

  lemma NoMoveFromApproved(cfg: Settings, p: Patch)
    requires PatchOk(cfg, p) && p.event.to.Some?
    ensures p.loaded.status != Approved
  {
    MovesStatus(cfg, p);
  }

  lemma CommitOnApproved(cfg: Settings, v: View, p: Patch)
    requires PatchOk(cfg, p)
    ensures ApprovedOnce(v) && p.event.to.None? ==>
              ApprovedOnce(LocalCommit(v, p)) && LocalCommit(v, p).row.final == v.row.final
    ensures ApprovedOnce(v) && p.event.to.Some? ==> Spoiled(LocalCommit(v, p))
    ensures Spoiled(v) ==> Spoiled(LocalCommit(v, p))
  {
    hide Filter, CanTransition, Blank;
    AppendEvent(v, p, IsKind(ApprovedEvent));
    if p.event.to.Some? {
      MovesStatus(cfg, p);
    }
  }

  lemma NextOnApproved(cfg: Settings, c: Conc, step: ConcStep, t: Id)
    requires cfg.embedder.dim > 0 && WeakInv(cfg, c) && t < |c.db.tickets|
    ensures var c' := Next(cfg, c, step);
            && t < |c'.db.tickets|
            && var v, v' := ViewOf(c.db, t), ViewOf(c'.db, t);
            && (ApprovedOnce(v) && FreshStep(cfg, c, step, t) ==> ApprovedOnce(v') && v'.row.final == v.row.final)
            && (ApprovedOnce(v) && !FreshStep(cfg, c, step, t) ==> Spoiled(v'))
            && (Spoiled(v) ==> Spoiled(v'))
  {
    hide Next, MoveOf, PatchOk, LocalCommit, ViewOf, WeakInv, ApprovedOnce, Spoiled;
    NextEffect(cfg, c, step, t);
    var v, v', p := ViewOf(c.db, t), ViewOf(Next(cfg, c, step).db, t), MoveOf(cfg, c, step, t);
    RowOfView(c.db, t);
    RowOfView(Next(cfg, c, step).db, t);
    if p.Some? {
      CommitOnApproved(cfg, v, p.value);
      if p.value.event.to.Some? { NoMoveFromApproved(cfg, p.value); }
      StatusOfOnce(v);
    } else {
      ApprovalReads(v, v');
    }
  }

  lemma StatusOfOnce(v: View)
    ensures ApprovedOnce(v) ==> v.row.status == Approved
  {}

  lemma ApprovalReads(v: View, w: View)
    requires v.row == w.row && v.events == w.events
    ensures ApprovedOnce(v) == ApprovedOnce(w) && Spoiled(v) == Spoiled(w)
  {}

  lemma {:induction false} SpoiledStays(cfg: Settings, c: Conc, steps: seq<ConcStep>, t: Id)
    requires cfg.embedder.dim > 0 && WeakInv(cfg, c) && t < |c.db.tickets| && Spoiled(ViewOf(c.db, t))
    ensures t < |Run(cfg, c, steps).db.tickets| && Spoiled(ViewOf(Run(cfg, c, steps).db, t))
    decreases |steps|
  {
    hide Next, WeakInv, ViewOf, Spoiled, FreshStep;
    if steps != [] {
      NextOnApproved(cfg, c, steps[0], t);
      NextKeepsWeakInv(cfg, c, steps[0]);
      SpoiledStays(cfg, Next(cfg, c, steps[0]), steps[1..], t);
    }
  }

  lemma SpoiledIsNotOnce(v: View)
    ensures !(Spoiled(v) && ApprovedOnce(v))
  {}

  /** A ticket approved once stays so through a run, with the same final response, exactly if no stale move commits in it. */
  lemma {:induction false} ApprovalKeptIffAllFresh(cfg: Settings, c: Conc, steps: seq<ConcStep>, t: Id)
    requires cfg.embedder.dim > 0 && WeakInv(cfg, c) && t < |c.db.tickets| && ApprovedOnce(ViewOf(c.db, t))
    ensures var end := Run(cfg, c, steps);
            && t < |end.db.tickets|
            && (ApprovedOnce(ViewOf(end.db, t)) && end.db.tickets[t].final == c.db.tickets[t].final
                <==> AllFresh(cfg, c, steps, t))
    decreases |steps|
  {
    hide Next, WeakInv, ViewOf, ApprovedOnce, Spoiled, FreshStep;
    if steps != [] {
      var next := Next(cfg, c, steps[0]);
      NextOnApproved(cfg, c, steps[0], t);
      NextKeepsWeakInv(cfg, c, steps[0]);
      RowOfView(c.db, t);
      RowOfView(next.db, t);
      if FreshStep(cfg, c, steps[0], t) {
        ApprovalKeptIffAllFresh(cfg, next, steps[1..], t);
      } else {
        SpoiledStays(cfg, next, steps[1..], t);
        SpoiledIsNotOnce(ViewOf(Run(cfg, next, steps[1..]).db, t));
      }
    }
  }

  // ----- which calls in flight endanger an approval

  /** The call can commit no status move from the copy it has loaded, whatever the store becomes. */
  predicate Idle(o: Open) {
    match o.call
    case ApproveCall(_, edited) => o.loaded.status != WaitingApproval || Blank(FinalText(o.loaded, edited))
    case RejectCall(_, _) => o.loaded.status != WaitingApproval
    case EditCall(_, _) => true
    case RunCall(_, env) => o.loaded.status in {Approved, Closed} || env.rowFault.Some?
  }

  ghost predicate Quiet(c: Conc, t: Id) {
    forall i | 0 <= i < |c.open| && c.open[i].ticket == t :: Idle(c.open[i])
  }

  lemma IdleMovesNothing(cfg: Settings, db: Db, o: Open)
    requires cfg.embedder.dim > 0 && Ready(db, o) && Idle(o) && CallPatch(cfg, db, o).Ok?
    ensures CallPatch(cfg, db, o).value.event.to.None?
  {
    hide Blank, ExecutePatch, CanTransition;
    match o.call {
      case RunCall(r, env) => IdleRunFails(cfg, db, r, o.loaded, env);
      case _ => OnlyWaitingIsDecided(o.loaded.status);
    }
  }

  lemma OnlyWaitingIsDecided(status: TicketStatus)
    ensures CanTransition(status, Approved) <==> status == WaitingApproval
    ensures CanTransition(status, Rejected) <==> status == WaitingApproval
  {}

  lemma IdleRunFails(cfg: Settings, db: Db, r: Id, loaded: Ticket, env: RunEnv)
    requires cfg.embedder.dim > 0 && r < |db.runs| && (loaded.status in {Approved, Closed} || env.rowFault.Some?)
    ensures ExecutePatch(cfg, db, r, loaded, env).Err?
  {
    hide RunWorkflow, RunAudits, Suggested, FinishedRun;
  }

  /** A human call that is not idle commits its move whenever it finishes. */
  lemma HumanMoves(cfg: Settings, db: Db, o: Open)
    requires cfg.embedder.dim > 0 && Ready(db, o) && !o.call.RunCall? && !Idle(o)
    ensures CallPatch(cfg, db, o).Ok? && CallPatch(cfg, db, o).value.event.to.Some?
  {
    hide Blank, ExecutePatch;
  }

  /** Whoever loads an approved ticket is idle, so an approval without endangering calls in flight meets no stale move. */
  lemma NextKeepsQuiet(cfg: Settings, c: Conc, step: ConcStep, t: Id)
    requires cfg.embedder.dim > 0 && t < |c.db.tickets| && c.db.tickets[t].status == Approved && Quiet(c, t)
    ensures Quiet(Next(cfg, c, step), t) && FreshStep(cfg, c, step, t)
  {
    hide CallPatch, FinishDb, Enqueue, Apply, Blank;
    if step.Finish? && step.i < |c.open| && Ready(c.db, c.open[step.i]) && c.open[step.i].ticket == t {
      if CallPatch(cfg, c.db, c.open[step.i]).Ok? {
        IdleMovesNothing(cfg, c.db, c.open[step.i]);
      }
    }
  }

  lemma {:induction false} QuietIsFresh(cfg: Settings, c: Conc, steps: seq<ConcStep>, t: Id)
    requires cfg.embedder.dim > 0 && WeakInv(cfg, c) && t < |c.db.tickets| && ApprovedOnce(ViewOf(c.db, t)) && Quiet(c, t)
    ensures AllFresh(cfg, c, steps, t)
    decreases |steps|
  {
    hide Next, WeakInv, ViewOf, ApprovedOnce, FreshStep, Quiet;
    if steps != [] {
      RowOfView(c.db, t);
      StatusOfOnce(ViewOf(c.db, t));
      NextKeepsQuiet(cfg, c, steps[0], t);
      NextOnApproved(cfg, c, steps[0], t);
      NextKeepsWeakInv(cfg, c, steps[0]);
      QuietIsFresh(cfg, Next(cfg, c, steps[0]), steps[1..], t);
    }
  }

  /** After the run the ticket is still approved, once, with the same final response. */
  ghost predicate KeptAfter(cfg: Settings, c: Conc, steps: seq<ConcStep>, t: Id)
    requires cfg.embedder.dim > 0 && t < |c.db.tickets|
  {
    var end := Run(cfg, c, steps);
    t < |end.db.tickets| && ApprovedOnce(ViewOf(end.db, t)) && end.db.tickets[t].final == c.db.tickets[t].final
  }

  /** If the calls then in flight on the ticket are idle, the approval is final, however later calls overlap. */
  lemma QuietApprovalIsFinal(cfg: Settings, c: Conc, steps: seq<ConcStep>, t: Id)
    requires cfg.embedder.dim > 0 && WeakInv(cfg, c) && t < |c.db.tickets| && ApprovedOnce(ViewOf(c.db, t)) && Quiet(c, t)
    ensures KeptAfter(cfg, c, steps, t)
  {
    hide Run, WeakInv, ViewOf, ApprovedOnce, AllFresh, Quiet;
    QuietIsFresh(cfg, c, steps, t);
    ApprovalKeptIffAllFresh(cfg, c, steps, t);
  }

  /** One call in flight whose transaction moves the status, finished next, ends the approval; runs included. */
  lemma MovingCallSpoils(cfg: Settings, c: Conc, i: nat, t: Id)
    requires cfg.embedder.dim > 0 && WeakInv(cfg, c) && t < |c.db.tickets| && ApprovedOnce(ViewOf(c.db, t))
    requires i < |c.open| && c.open[i].ticket == t && Ready(c.db, c.open[i])
    requires CallPatch(cfg, c.db, c.open[i]).Ok? && CallPatch(cfg, c.db, c.open[i]).value.event.to.Some?
    ensures !KeptAfter(cfg, c, [Finish(i)], t)
  {
    hide Run, Next, WeakInv, ViewOf, ApprovedOnce, Spoiled, CallPatch, PatchOk;
    var p := CallPatch(cfg, c.db, c.open[i]).value;
    assert MoveOf(cfg, c, Finish(i), t) == Some(p);
    NextEffect(cfg, c, Finish(i), t);
    NoMoveFromApproved(cfg, p);
    OpenLoaded(cfg, c, i);
    RowOfView(c.db, t);
    StatusOfOnce(ViewOf(c.db, t));
    NextOnApproved(cfg, c, Finish(i), t);
    assert [Finish(i)] == [Finish(i)] + [];
    RunStep(cfg, c, Finish(i), []);
    RunStep(cfg, Next(cfg, c, Finish(i)), Finish(i), []);
    SpoiledIsNotOnce(ViewOf(Next(cfg, c, Finish(i)).db, t));
  }

  lemma OpenLoaded(cfg: Settings, c: Conc, i: nat)
    requires cfg.embedder.dim > 0 && WeakInv(cfg, c) && i < |c.open| && Ready(c.db, c.open[i])
    ensures var p := CallPatch(cfg, c.db, c.open[i]);
            p.Ok? ==> p.value.loaded == c.open[i].loaded && PatchOk(cfg, p.value)
  {
    hide WellFormed, ViewsOk, CallPatch, PatchOk;
    assert OpenOk(c.db, c.open[i]);
    CallPatchOk(cfg, c.db, c.open[i]);
  }

  ghost predicate RunsIdle(c: Conc, t: Id) {
    forall i | 0 <= i < |c.open| && c.open[i].ticket == t && c.open[i].call.RunCall? :: Idle(c.open[i])
  }

  /**
   * The exact condition for the finality of an approval, which can be read off the calls in flight at that moment: when
   * these are human calls (or runs that cannot move the ticket), the approval and its response survive every
   * continuation if and only if none of them is an approval or rejection that had loaded the waiting ticket.
   */
  lemma ApprovalFinalIffQuiet(cfg: Settings, c: Conc, t: Id)
    requires cfg.embedder.dim > 0 && WeakInv(cfg, c) && t < |c.db.tickets| && ApprovedOnce(ViewOf(c.db, t))
    requires RunsIdle(c, t)
    ensures (forall steps: seq<ConcStep> :: KeptAfter(cfg, c, steps, t)) <==> Quiet(c, t)
  {
    hide KeptAfter, WeakInv, ViewOf, ApprovedOnce, CallPatch, Idle;
    if Quiet(c, t) {
      forall steps: seq<ConcStep> ensures KeptAfter(cfg, c, steps, t) {
        QuietApprovalIsFinal(cfg, c, steps, t);
      }
    } else {
      var i :| 0 <= i < |c.open| && c.open[i].ticket == t && !Idle(c.open[i]);
      HumanMoves(cfg, c.db, c.open[i]);
      MovingCallSpoils(cfg, c, i, t);
    }
  }

  /** A legal history that has reached `approved` contains one approval. */
  lemma ChainApprovedOnce(cfg: Settings, v: View)
    requires ViewOk(cfg, v) && ChainOk(v) && v.row.status == Approved
    ensures ApprovedOnce(v)
  {
    hide Filter, LogOk, Path, Blank, HumanApproved;
    ChainGivesFinality(cfg, v);
  }

  /** So an approval reached without overlap on the ticket, and with idle calls left in flight, is final from then on. */
  lemma ReachedApprovalIsFinal(cfg: Settings, before: seq<ConcStep>, after: seq<ConcStep>, t: Id)
    requires cfg.embedder.dim > 0 && NoOverlap(cfg, START, before, t) && t < |Run(cfg, START, before).db.tickets|
    requires Run(cfg, START, before).db.tickets[t].status == Approved && Quiet(Run(cfg, START, before), t)
    ensures KeptAfter(cfg, Run(cfg, START, before), after, t)
  {
    hide Run, NoOverlap, Quiet, KeptAfter, ViewOf, ChainOk, ViewOk, ApprovedOnce, WellFormed, AllOpenOk;
    var c := Run(cfg, START, before);
    StartWeakInv(cfg);
    RunKeepsWeakInv(cfg, START, before);
    NoOverlapKeepsChain(cfg, before, t);
    RowOfView(c.db, t);
    assert ViewOk(cfg, ViewOf(c.db, t));
    ChainApprovedOnce(cfg, ViewOf(c.db, t));
    QuietApprovalIsFinal(cfg, c, after, t);
  }

  // ----- what needs no condition

  /** A final response, once set, is set for ever, in every interleaving. */
  lemma {:induction false} FinalNeverClearedInRun(cfg: Settings, c: Conc, steps: seq<ConcStep>, t: Id)
    requires cfg.embedder.dim > 0 && WeakInv(cfg, c) && t < |c.db.tickets| && c.db.tickets[t].final.Some?
    ensures t < |Run(cfg, c, steps).db.tickets| && Run(cfg, c, steps).db.tickets[t].final.Some?
    decreases |steps|
  {
    hide Next, WeakInv;
    if steps != [] {
      FinalNeverCleared(cfg, c, steps[0], t);
      NextKeepsWeakInv(cfg, c, steps[0]);
      FinalNeverClearedInRun(cfg, Next(cfg, c, steps[0]), steps[1..], t);
    }
  }
}
