/** Organisation metrics (metrics_service.compute) and their agreement with the machine. */
module MetricsService {
  import opened Sequences
  import opened RealMath
  import opened Models
  import opened Transactions
  import opened History
  import opened Machine

  const FOUR_DECIMALS := 10000.0

  const STATUSES: seq<TicketStatus> :=
    [New, Triaged, DraftReady, WaitingApproval, Approved, Rejected, Escalated, Closed]

  datatype Metrics = Metrics(
    totalTickets: nat, ticketsByStatus: map<TicketStatus, nat>,
    approvalRate: real, escalationRate: real, retrievalHitRate: real, failedJobs: nat)

  function TicketIn(org: OrgId): Ticket -> bool { (t: Ticket) => t.org == org }
  function TicketWith(org: OrgId, s: TicketStatus): Ticket -> bool { (t: Ticket) => t.org == org && t.status == s }
  function RunWith(org: OrgId, s: RunStatus): AgentRun -> bool { (r: AgentRun) => r.org == org && r.status == s }
  function RunTo(org: OrgId, o: Outcome): AgentRun -> bool {
    (r: AgentRun) => r.org == org && r.status == Completed && r.outcome == Some(o)
  }
  function RunHit(org: OrgId): AgentRun -> bool {
    (r: AgentRun) => r.org == org && r.status == Completed && r.retrievalHit
  }
  function FailedDelivery(org: OrgId): Delivery -> bool { (d: Delivery) => d.org == org && d.status == Undelivered }

  function CountStatus(db: Db, org: OrgId, s: TicketStatus): nat { |Filter(db.tickets, TicketWith(org, s))| }

  /** `group by status`: only statuses that occur. */
  function ByStatus(db: Db, org: OrgId): map<TicketStatus, nat> {
    map s | s in STATUSES && CountStatus(db, org, s) > 0 :: CountStatus(db, org, s)
  }

  function Rate(numerator: nat, total: nat): real {
    if total != 0 then RoundTo(numerator as real / total as real, FOUR_DECIMALS) else 0.0
  }

  function TotalCompleted(db: Db, org: OrgId): nat { |Filter(db.runs, RunWith(org, Completed))| }

  function Compute(db: Db, org: OrgId): Metrics {
    var completed := TotalCompleted(db, org);
    Metrics(
      |Filter(db.tickets, TicketIn(org))|,
      ByStatus(db, org),
      Rate(|Filter(db.runs, RunTo(org, ToApproval))|, completed),
      Rate(|Filter(db.runs, RunTo(org, ToHuman))|, completed),
      Rate(|Filter(db.runs, RunHit(org))|, completed),
      |Filter(db.runs, RunWith(org, Failed))| + |Filter(db.deliveries, FailedDelivery(org))|)
  }

  // ----- counting

  function SumOver(m: map<TicketStatus, nat>, keys: seq<TicketStatus>): nat {
    if keys == [] then 0 else (if keys[0] in m then m[keys[0]] else 0) + SumOver(m, keys[1..])
  }

  function TicketAmong(org: OrgId, keys: seq<TicketStatus>): Ticket -> bool { (t: Ticket) => t.org == org && t.status in keys }

  lemma {:induction false} SumOfCounts(db: Db, org: OrgId, keys: seq<TicketStatus>)
    requires forall k | k in keys :: k in STATUSES
    requires forall i, j | 0 <= i < j < |keys| :: keys[i] != keys[j]
    ensures SumOver(ByStatus(db, org), keys) == |Filter(db.tickets, TicketAmong(org, keys))|
  {
    hide Filter;
    if keys == [] {
      FilterNone(db.tickets, TicketAmong(org, keys));
    } else {
      SumOfCounts(db, org, keys[1..]);
      FilterSplit(db.tickets, TicketAmong(org, keys), TicketWith(org, keys[0]), TicketAmong(org, keys[1..]));
    }
  }

  lemma EveryStatus(s: TicketStatus)
    ensures s in STATUSES
  {
    var i := match s
      case New => 0 case Triaged => 1 case DraftReady => 2 case WaitingApproval => 3
      case Approved => 4 case Rejected => 5 case Escalated => 6 case Closed => 7;
    assert STATUSES[i] == s;
  }

  lemma StatusesDiffer()
    ensures forall i, j | 0 <= i < j < |STATUSES| :: STATUSES[i] != STATUSES[j]
  {}

  /** The per-status counts add up to the number of tickets. */
  lemma StatusesAddUp(db: Db, org: OrgId)
    ensures var m := Compute(db, org);
            SumOver(m.ticketsByStatus, STATUSES) == m.totalTickets && m.ticketsByStatus.Keys <= set s | s in STATUSES
  {
    hide Filter, SumOver, Rate;
    StatusesDiffer();
    SumOfCounts(db, org, STATUSES);
    forall t: Ticket ensures TicketAmong(org, STATUSES)(t) == TicketIn(org)(t) {
      EveryStatus(t.status);
    }
    FilterSame(db.tickets, TicketAmong(org, STATUSES), TicketIn(org));
  }

  lemma OutcomesPartition(cfg: Settings, db: Db, org: OrgId)
    requires RunsOk(cfg, db)
    ensures |Filter(db.runs, RunTo(org, ToApproval))| + |Filter(db.runs, RunTo(org, ToHuman))| == TotalCompleted(db, org)
    ensures cfg.confidenceThreshold > 0.0 ==> |Filter(db.runs, RunTo(org, ToApproval))| <= |Filter(db.runs, RunHit(org))|
    ensures |Filter(db.runs, RunHit(org))| <= TotalCompleted(db, org)
  {
    hide Filter;
    assert forall x | x in db.runs :: RunOk(cfg, x);
    FilterSplit(db.runs, RunWith(org, Completed), RunTo(org, ToApproval), RunTo(org, ToHuman));
    if cfg.confidenceThreshold > 0.0 {
      FilterFewer(db.runs, RunTo(org, ToApproval), RunHit(org));
    }
    FilterFewer(db.runs, RunHit(org), RunWith(org, Completed));
  }

  function RunIn(org: OrgId): AgentRun -> bool { (r: AgentRun) => r.org == org }
  function RunOpen(org: OrgId): AgentRun -> bool { (r: AgentRun) => r.org == org && r.status != Completed }
  function DeliveryIn(org: OrgId): Delivery -> bool { (d: Delivery) => d.org == org }
  function DeliveryWith(org: OrgId, s: DeliveryStatus): Delivery -> bool { (d: Delivery) => d.org == org && d.status == s }
  function DeliveryDone(org: OrgId): Delivery -> bool { (d: Delivery) => d.org == org && d.status != Pending }

  /** Failed jobs are the runs neither running nor completed and the deliveries neither pending nor successful. */
  lemma FailedJobsRemain(db: Db, org: OrgId)
    ensures Compute(db, org).failedJobs
         == |Filter(db.runs, RunIn(org))| - TotalCompleted(db, org) - |Filter(db.runs, RunWith(org, Running))|
          + |Filter(db.deliveries, DeliveryIn(org))| - |Filter(db.deliveries, DeliveryWith(org, Pending))|
          - |Filter(db.deliveries, DeliveryWith(org, Success))|
  {
    hide Filter, Rate, ByStatus;
    FilterSplit(db.runs, RunIn(org), RunWith(org, Completed), RunOpen(org));
    FilterSplit(db.runs, RunOpen(org), RunWith(org, Running), RunWith(org, Failed));
    FilterSplit(db.deliveries, DeliveryIn(org), DeliveryWith(org, Pending), DeliveryDone(org));
    FilterSplit(db.deliveries, DeliveryDone(org), DeliveryWith(org, Success), FailedDelivery(org));
  }

  // ----- rates

  lemma RatioOrder(a: nat, b: nat, total: nat)
    requires a <= b <= total && total > 0
    ensures 0.0 <= a as real / total as real <= b as real / total as real <= 1.0
  {
    var n, q := total as real, b as real / total as real;
    QuotientOrder(0.0, a as real, n);
    QuotientOrder(1.0, b as real, n);
    QuotientOrder(q, a as real, n);
    assert q * n == b as real;
  }

  lemma RateOrder(a: nat, b: nat, total: nat)
    requires a <= b <= total
    ensures 0.0 <= Rate(a, total) <= Rate(b, total) <= 1.0
  {
    hide RoundTo;
    if total > 0 {
      RatioOrder(a, b, total);
      RateEnds();
      RoundMono(0.0, a as real / total as real, FOUR_DECIMALS);
      RoundMono(a as real / total as real, b as real / total as real, FOUR_DECIMALS);
      RoundMono(b as real / total as real, 1.0, FOUR_DECIMALS);
    }
  }

  lemma RateEnds()
    ensures RoundTo(0.0, FOUR_DECIMALS) == 0.0 && RoundTo(1.0, FOUR_DECIMALS) == 1.0
  {}

  lemma RatioSum(a: nat, b: nat, total: nat)
    requires a + b == total && total > 0
    ensures a as real / total as real + b as real / total as real == 1.0
  {
    var n := total as real;
    RatioShares(n, a as real, b as real, a as real / n, b as real / n);
  }

  lemma RatioShares(n: real, a: real, b: real, x: real, y: real)
    requires n > 0.0 && a + b == n && x == a / n && y == b / n
    ensures x + y == 1.0
  {
    assert x * n == a && y * n == b;
    QuotientOrder(x + y, n, n);
    assert (x + y) * n == x * n + y * n;
    assert n / n == 1.0;
  }

  lemma RatesSum(a: nat, b: nat, total: nat)
    requires a + b == total && total > 0
    ensures -0.0001 <= Rate(a, total) + Rate(b, total) - 1.0 <= 0.0001
  {
    hide RoundTo;
    RatioSum(a, b, total);
    RoundError(a as real / total as real, FOUR_DECIMALS);
    RoundError(b as real / total as real, FOUR_DECIMALS);
  }

  /**
   * The rates sum to one up to rounding once a run is completed; with a positive threshold no more runs reach approval
   * than hit the knowledge base; the status counts add up, and only the statuses that the services target occur.
   */
  ghost predicate MetricsOk(cfg: Settings, db: Db, org: OrgId) {
    var m := Compute(db, org);
    && (if TotalCompleted(db, org) == 0 then m.approvalRate == m.escalationRate == m.retrievalHitRate == 0.0
        else -0.0001 <= m.approvalRate + m.escalationRate - 1.0 <= 0.0001)
    && (cfg.confidenceThreshold > 0.0 ==> m.approvalRate <= m.retrievalHitRate)
    && 0.0 <= m.approvalRate <= 1.0 && 0.0 <= m.escalationRate <= 1.0 && 0.0 <= m.retrievalHitRate <= 1.0
    && SumOver(m.ticketsByStatus, STATUSES) == m.totalTickets
    && m.ticketsByStatus.Keys <= {New, WaitingApproval, Escalated, Rejected, Approved}
  }

  /** A rate is the share it counts, within half of the fourth decimal. */
  predicate RateNear(rate: real, n: nat, completed: nat) {
    if completed == 0 then rate == 0.0
    else -(completed as real) <= 20000.0 * (rate * completed as real - n as real) <= completed as real
  }

  /**
   * Every figure, by the rows it counts: the totals and the statuses that occur exactly, and the three rates as the shares
   * of the completed runs that asked for approval, that escalated, and that hit the knowledge base.
   */
  lemma MetricsCount(db: Db, org: OrgId)
    ensures var m := Compute(db, org);
            var completed := |set r: nat | r < |db.runs| && db.runs[r].org == org && db.runs[r].status == Completed|;
            && m.totalTickets == |set t: nat | t < |db.tickets| && db.tickets[t].org == org|
            && (forall s ::
                  var n := |set t: nat | t < |db.tickets| && db.tickets[t].org == org && db.tickets[t].status == s|;
                  if n > 0 then s in m.ticketsByStatus && m.ticketsByStatus[s] == n else s !in m.ticketsByStatus)
            && RateNear(m.approvalRate, |set r: nat | r < |db.runs| && db.runs[r].org == org && db.runs[r].status == Completed
                                                      && db.runs[r].outcome == Some(ToApproval)|, completed)
            && RateNear(m.escalationRate, |set r: nat | r < |db.runs| && db.runs[r].org == org && db.runs[r].status == Completed
                                                        && db.runs[r].outcome == Some(ToHuman)|, completed)
            && RateNear(m.retrievalHitRate, |set r: nat | r < |db.runs| && db.runs[r].org == org && db.runs[r].status == Completed
                                                          && db.runs[r].retrievalHit|, completed)
            && m.failedJobs == |set r: nat | r < |db.runs| && db.runs[r].org == org && db.runs[r].status == Failed|
                             + |set d: nat | d < |db.deliveries| && db.deliveries[d].org == org && db.deliveries[d].status == Undelivered|
  {
    hide Filter, Rate, RateNear;
    FilterCounts(db.tickets, TicketIn(org));
    assert Where(db.tickets, TicketIn(org)) == set t: nat | t < |db.tickets| && db.tickets[t].org == org;
    forall s: TicketStatus
      ensures CountStatus(db, org, s) == |set t: nat | t < |db.tickets| && db.tickets[t].org == org && db.tickets[t].status == s|
              && s in STATUSES
    {
      EveryStatus(s);
      FilterCounts(db.tickets, TicketWith(org, s));
      assert Where(db.tickets, TicketWith(org, s))
          == set t: nat | t < |db.tickets| && db.tickets[t].org == org && db.tickets[t].status == s;
    }
    RunCounts(db, org);
    DeliveryCounts(db, org);
    RunsWithin(db, org);
    var completed := TotalCompleted(db, org);
    RateIsNear(|Filter(db.runs, RunTo(org, ToApproval))|, completed);
    RateIsNear(|Filter(db.runs, RunTo(org, ToHuman))|, completed);
    RateIsNear(|Filter(db.runs, RunHit(org))|, completed);
  }

  lemma RunCounts(db: Db, org: OrgId)
    ensures TotalCompleted(db, org) == |set r: nat | r < |db.runs| && db.runs[r].org == org && db.runs[r].status == Completed|
    ensures |Filter(db.runs, RunWith(org, Failed))| == |set r: nat | r < |db.runs| && db.runs[r].org == org && db.runs[r].status == Failed|
    ensures forall o :: |Filter(db.runs, RunTo(org, o))|
              == |set r: nat | r < |db.runs| && db.runs[r].org == org && db.runs[r].status == Completed && db.runs[r].outcome == Some(o)|
    ensures |Filter(db.runs, RunHit(org))|
         == |set r: nat | r < |db.runs| && db.runs[r].org == org && db.runs[r].status == Completed && db.runs[r].retrievalHit|
  {
    hide Filter;
    FilterCounts(db.runs, RunWith(org, Completed));
    FilterCounts(db.runs, RunWith(org, Failed));
    FilterCounts(db.runs, RunHit(org));
    assert Where(db.runs, RunWith(org, Completed)) == set r: nat | r < |db.runs| && db.runs[r].org == org && db.runs[r].status == Completed;
    assert Where(db.runs, RunWith(org, Failed)) == set r: nat | r < |db.runs| && db.runs[r].org == org && db.runs[r].status == Failed;
    assert Where(db.runs, RunHit(org))
        == set r: nat | r < |db.runs| && db.runs[r].org == org && db.runs[r].status == Completed && db.runs[r].retrievalHit;
    forall o: Outcome
      ensures |Filter(db.runs, RunTo(org, o))|
           == |set r: nat | r < |db.runs| && db.runs[r].org == org && db.runs[r].status == Completed && db.runs[r].outcome == Some(o)|
    {
      FilterCounts(db.runs, RunTo(org, o));
      assert Where(db.runs, RunTo(org, o))
          == set r: nat | r < |db.runs| && db.runs[r].org == org && db.runs[r].status == Completed && db.runs[r].outcome == Some(o);
    }
  }

  lemma DeliveryCounts(db: Db, org: OrgId)
    ensures |Filter(db.deliveries, FailedDelivery(org))|
         == |set d: nat | d < |db.deliveries| && db.deliveries[d].org == org && db.deliveries[d].status == Undelivered|
  {
    hide Filter;
    FilterCounts(db.deliveries, FailedDelivery(org));
    assert Where(db.deliveries, FailedDelivery(org))
        == set d: nat | d < |db.deliveries| && db.deliveries[d].org == org && db.deliveries[d].status == Undelivered;
  }

  lemma RunsWithin(db: Db, org: OrgId)
    ensures |Filter(db.runs, RunTo(org, ToApproval))| <= TotalCompleted(db, org)
    ensures |Filter(db.runs, RunTo(org, ToHuman))| <= TotalCompleted(db, org)
    ensures |Filter(db.runs, RunHit(org))| <= TotalCompleted(db, org)
  {
    hide Filter;
    FilterFewer(db.runs, RunTo(org, ToApproval), RunWith(org, Completed));
    FilterFewer(db.runs, RunTo(org, ToHuman), RunWith(org, Completed));
    FilterFewer(db.runs, RunHit(org), RunWith(org, Completed));
  }

  lemma RateIsNear(n: nat, completed: nat)
    ensures RateNear(Rate(n, completed), n, completed)
  {
    hide RoundTo;
    if completed > 0 {
      var x := n as real / completed as real;
      RoundError(x, FOUR_DECIMALS);
      assert 0.5 / FOUR_DECIMALS == 0.00005 && -0.5 / FOUR_DECIMALS == -0.00005;
      NearProduct(n as real, completed as real, x, RoundTo(x, FOUR_DECIMALS));
    }
  }

  lemma NearProduct(n: real, c: real, x: real, rate: real)
    requires c > 0.0 && x == n / c && -0.00005 <= x - rate <= 0.00005
    ensures -c <= 20000.0 * (rate * c - n) <= c
  {
    assert x * c == n;
    MulMono(x - rate, 0.00005, c);
    MulMono(-0.00005, x - rate, c);
    assert (x - rate) * c == n - rate * c;
  }

  /** A run that completes counts once, for its outcome, and among the hits exactly if it retrieved something. */
  lemma CompletionCounts(db: Db, db': Db, r: Id, run: AgentRun)
    requires r < |db.runs| && db.runs[r].status != Completed && run.status == Completed && run.org == db.runs[r].org
    requires db'.runs == db.runs[r := run]
    ensures var org := run.org;
            && TotalCompleted(db', org) == TotalCompleted(db, org) + 1
            && |Filter(db'.runs, RunHit(org))| == |Filter(db.runs, RunHit(org))| + (if run.retrievalHit then 1 else 0)
            && forall o :: |Filter(db'.runs, RunTo(org, o))|
                         == |Filter(db.runs, RunTo(org, o))| + if run.outcome == Some(o) then 1 else 0
  {
    hide Filter;
    var org := run.org;
    FilterReplace(db.runs, r, run, RunWith(org, Completed));
    FilterReplace(db.runs, r, run, RunHit(org));
    forall o: Outcome
      ensures |Filter(db'.runs, RunTo(org, o))| == |Filter(db.runs, RunTo(org, o))| + if run.outcome == Some(o) then 1 else 0
    {
      FilterReplace(db.runs, r, run, RunTo(org, o));
    }
  }

  /** Each completed run has an outcome, so the metrics agree. */
  lemma MetricsFollow(cfg: Settings, db: Db, org: OrgId)
    requires RunsOk(cfg, db) && forall t | 0 <= t < |db.tickets| :: Reachable(db.tickets[t].status)
    ensures MetricsOk(cfg, db, org)
  {
    hide Filter, RoundTo, RunsOk, Rate, ByStatus;
    OutcomesPartition(cfg, db, org);
    var waiting, escalated := |Filter(db.runs, RunTo(org, ToApproval))|, |Filter(db.runs, RunTo(org, ToHuman))|;
    var hits, completed := |Filter(db.runs, RunHit(org))|, TotalCompleted(db, org);
    RateOrder(waiting, completed, completed);
    RateOrder(escalated, completed, completed);
    RateOrder(hits, completed, completed);
    if cfg.confidenceThreshold > 0.0 {
      RateOrder(waiting, hits, completed);
    }
    if completed > 0 {
      RatesSum(waiting, escalated, completed);
    } else {
      RateOfNothing(waiting);
      RateOfNothing(escalated);
      RateOfNothing(hits);
    }
    StatusesAddUp(db, org);
    StatusesReachable(db, org);
  }

  /** The metrics agree with the machine after every serial run. */
  lemma MetricsAgree(cfg: Settings, steps: seq<Step>, org: OrgId)
    requires cfg.embedder.dim > 0
    ensures MetricsOk(cfg, Execute(cfg, EMPTY_DB, steps), org)
  {
    hide Execute, RunsOk, WellFormed, StartsOk, TicketOk, MetricsOk, ViewOf;
    ReachableInv(cfg, steps);
    var db := Execute(cfg, EMPTY_DB, steps);
    forall t | 0 <= t < |db.tickets| ensures Reachable(db.tickets[t].status) {
      assert TicketOk(cfg, ViewOf(db, t));
      RowOfView(db, t);
      StatusOfTicketOk(cfg, ViewOf(db, t));
    }
    MetricsFollow(cfg, db, org);
  }

  lemma StatusOfTicketOk(cfg: Settings, v: View)
    requires TicketOk(cfg, v)
    ensures Reachable(v.row.status)
  {}

  lemma RateOfNothing(n: nat)
    ensures Rate(n, 0) == 0.0
  {}

  lemma StatusesReachable(db: Db, org: OrgId)
    requires forall t | 0 <= t < |db.tickets| :: Reachable(db.tickets[t].status)
    ensures ByStatus(db, org).Keys <= {New, WaitingApproval, Escalated, Rejected, Approved}
  {
    hide Filter;
    forall s | s in ByStatus(db, org) ensures Reachable(s) {
      var t := Filter(db.tickets, TicketWith(org, s))[0];
      assert t in Filter(db.tickets, TicketWith(org, s));
      assert t in db.tickets;
    }
  }
}
