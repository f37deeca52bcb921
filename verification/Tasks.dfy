/** The Celery retry chain of one webhook delivery (workers/tasks.py). */
module Tasks {
  import opened Models
  import opened Transactions
  import opened Text
  import opened History
  import opened Machine
  import opened Services

  function Pow2(k: nat): nat { if k == 0 then 1 else 2 * Pow2(k - 1) }

  /** The chain from its current retry counter on: the final database and the last counter value. */
  function Chain(cfg: Settings, db: Db, id: Id, responses: nat -> Response, retries: nat): (Db, nat)
    requires retries <= cfg.maxRetries
    decreases cfg.maxRetries - retries
  {
    var (next, success) := DeliverOnce(cfg, db, id, responses(retries));
    if !success && retries < cfg.maxRetries then Chain(cfg, next, id, responses, retries + 1) else (next, retries)
  }

  function Total(s: seq<real>): real { if s == [] then 0.0 else Total(s[..|s| - 1]) + s[|s| - 1] }

  /** The first countdown is the base, and each later one is twice the one before. */
  predicate Doubling(countdowns: seq<real>, base: real) {
    && (countdowns != [] ==> countdowns[0] == base)
    && forall k | 1 <= k < |countdowns| :: countdowns[k] == 2.0 * countdowns[k - 1]
  }

  /** deliver_webhook: attempt, and while it fails retry up to max_retries times with doubling countdowns. */
  method DeliverWebhook(cfg: Settings, db: Session, id: Id, responses: nat -> Response)
    returns (executions: nat, countdowns: seq<real>, waited: real)
    requires db.Clean()
    modifies db
    ensures db.Clean() && executions >= 1
    ensures (db.committed, executions - 1) == Chain(cfg, old(db.committed), id, responses, 0)
    ensures |countdowns| == executions - 1 && Doubling(countdowns, cfg.backoffBase)
    ensures waited == Total(countdowns) == cfg.backoffBase * (Pow2(executions - 1) as real - 1.0)
  {
    hide DeliverOnce, Pow2, Total, Backoff, Chain;
    var retries := 0;
    waited := 0.0;
    countdowns := [];
    NoBackoff(cfg.backoffBase);
    while true
      invariant db.Clean() && retries <= cfg.maxRetries
      invariant Chain(cfg, db.committed, id, responses, retries) == Chain(cfg, old(db.committed), id, responses, 0)
      invariant Backoff(cfg.backoffBase, countdowns, retries) && waited == Total(countdowns)
      decreases cfg.maxRetries - retries
    {
      ChainStep(cfg, db.committed, id, responses, retries);
      var success := Deliver(cfg, db, id, responses(retries));
      if success || retries >= cfg.maxRetries {
        break;
      }
      var countdown := cfg.backoffBase * Pow2(retries) as real;
      NextBackoff(cfg.backoffBase, countdowns, retries, countdown);
      countdowns := countdowns + [countdown];
      waited := waited + countdown;
      retries := retries + 1;
    }
    BackoffGives(cfg.backoffBase, countdowns, retries);
    executions := retries + 1;
  }

  lemma ChainStep(cfg: Settings, db: Db, id: Id, responses: nat -> Response, retries: nat)
    requires retries <= cfg.maxRetries
    ensures var (next, success) := DeliverOnce(cfg, db, id, responses(retries));
            Chain(cfg, db, id, responses, retries)
            == if !success && retries < cfg.maxRetries then Chain(cfg, next, id, responses, retries + 1) else (next, retries)
  {}

  /** The countdowns of the first k retries. */
  ghost predicate Backoff(base: real, countdowns: seq<real>, k: nat) {
    && |countdowns| == k && Doubling(countdowns, base)
    && (k > 0 ==> countdowns[k - 1] == base * Pow2(k - 1) as real)
    && Total(countdowns) == base * (Pow2(k) as real - 1.0)
  }

  lemma NoBackoff(base: real)
    ensures Backoff(base, [], 0) && Total([]) == 0.0
  {}

  lemma BackoffGives(base: real, countdowns: seq<real>, k: nat)
    requires Backoff(base, countdowns, k)
    ensures |countdowns| == k && Doubling(countdowns, base) && Total(countdowns) == base * (Pow2(k) as real - 1.0)
  {
    hide Pow2, Total, Doubling;
  }

  lemma NextBackoff(base: real, countdowns: seq<real>, k: nat, countdown: real)
    requires Backoff(base, countdowns, k) && countdown == base * Pow2(k) as real
    ensures Backoff(base, countdowns + [countdown], k + 1) && Total(countdowns + [countdown]) == Total(countdowns) + countdown
  {
    hide Total, Pow2;
    var p := Pow2(k) as real;
    TotalSnoc(countdowns, countdown);
    PowStep(k);
    NextProducts(base, p, Pow2(k + 1) as real, Total(countdowns), countdown);
    if k > 0 {
      PowStep(k - 1);
      TwiceBackoff(base, Pow2(k - 1) as real, p, countdowns[k - 1], countdown);
    } else {
      Pow2Adds(0, 0);
      assert countdown == base * 1.0;
    }
    var next := countdowns + [countdown];
    assert next[k] == countdown && forall i | 0 <= i < k :: next[i] == countdowns[i];
  }

  lemma TotalSnoc(s: seq<real>, x: real)
    ensures Total(s + [x]) == Total(s) + x
  {
    assert (s + [x])[..|s|] == s;
  }

  lemma PowStep(k: nat)
    ensures Pow2(k + 1) == 2 * Pow2(k) && Pow2(k + 1) as real == 2.0 * Pow2(k) as real
  {}

  lemma NextProducts(base: real, p: real, twice: real, total: real, countdown: real)
    requires twice == 2.0 * p && total == base * (p - 1.0) && countdown == base * p
    ensures total + countdown == base * (twice - 1.0)
  {
    BackoffStep(base, p);
  }

  lemma TwiceBackoff(base: real, p: real, twice: real, before: real, countdown: real)
    requires twice == 2.0 * p && before == base * p && countdown == base * twice
    ensures countdown == 2.0 * before
  {}

  lemma {:induction false} Pow2Adds(a: nat, b: nat)
    ensures Pow2(0) == 1 && Pow2(1) == 2 && Pow2(a + b) == Pow2(a) * Pow2(b)
  {
    assert Pow2(1) == 2 * Pow2(0);
    if a > 0 {
      Pow2Adds(a - 1, b);
      assert Pow2(a + b) == 2 * Pow2(a - 1 + b);
      assert (2 * Pow2(a - 1)) * Pow2(b) == 2 * (Pow2(a - 1) * Pow2(b));
    }
  }

  lemma BackoffStep(base: real, p: real)
    ensures base * (p - 1.0) + base * p == base * (2.0 * p - 1.0)
  {}

  /** The last answer of each kind is kept, and without one its column stays. */
  ghost predicate LastAnswers(row: Delivery, row': Delivery, responses: nat -> Response, first: nat, last: nat) {
    && (forall k | first <= k <= last && responses(k).HttpStatus? && (forall m | k < m <= last :: responses(m).NetworkError?) ::
          row'.lastStatusCode == Some(responses(k).code))
    && (forall k | first <= k <= last && responses(k).NetworkError? && (forall m | k < m <= last :: responses(m).HttpStatus?) ::
          row'.lastError == Some(responses(k).message))
    && ((forall k | first <= k <= last :: responses(k).NetworkError?) ==> row'.lastStatusCode == row.lastStatusCode)
    && ((forall k | first <= k <= last :: responses(k).HttpStatus?) ==> row'.lastError == row.lastError)
  }

  lemma OneAnswer(row: Delivery, responses: nat -> Response, k: nat, maxRetries: nat)
    ensures LastAnswers(row, AttemptedRow(row, responses(k), maxRetries), responses, k, k)
  {}

  lemma MoreAnswers(row: Delivery, row': Delivery, responses: nat -> Response, first: nat, last: nat, maxRetries: nat)
    requires first < last && LastAnswers(AttemptedRow(row, responses(first), maxRetries), row', responses, first + 1, last)
    ensures LastAnswers(row, row', responses, first, last)
  {
    var mid := AttemptedRow(row, responses(first), maxRetries);
    assert responses(first).HttpStatus? ==> mid.lastStatusCode == Some(responses(first).code) && mid.lastError == row.lastError;
    assert responses(first).NetworkError? ==> mid.lastError == Some(responses(first).message) && mid.lastStatusCode == row.lastStatusCode;
  }

  /** What a chain that stops at counter `last` has done to the delivery. */
  ghost predicate ChainDone(cfg: Settings, db: Db, id: Id, responses: nat -> Response, first: nat, db': Db, last: nat)
    requires id < |db.deliveries|
  {
    && first <= last <= cfg.maxRetries
    && (forall k | first <= k < last :: !Delivered(responses(k)))
    && (last == cfg.maxRetries || Delivered(responses(last)))
    && id < |db'.deliveries|
    && var row, row' := db.deliveries[id], db'.deliveries[id];
    && row'.attempts == row.attempts + (last - first) + 1
    && row'.status == (if Delivered(responses(last)) then Success else Undelivered)
    && LastAnswers(row, row', responses, first, last)
    && row'.payload == row.payload && row'.webhook == row.webhook && row'.org == row.org && row'.event == row.event
    && db' == db.(deliveries := db.deliveries[id := row'],
                  audit := db.audit + if Delivered(responses(last))
                    then [AuditLog(WebhookSent, row.org, None, OnDelivery(id), SentMeta(row.event, Some(responses(last).code)))]
                    else [])
  }

  /** One attempt on an existing delivery. */
  lemma OneAttempt(cfg: Settings, db: Db, id: Id, response: Response)
    requires id < |db.deliveries| && db.deliveries[id].webhook < |db.webhooks|
    ensures var (db', success) := DeliverOnce(cfg, db, id, response);
            var row, row' := db.deliveries[id], AttemptedRow(db.deliveries[id], response, cfg.maxRetries);
            && success == Delivered(response)
            && db' == db.(deliveries := db.deliveries[id := row'],
                          audit := db.audit + if success
                            then [AuditLog(WebhookSent, row.org, None, OnDelivery(id), SentMeta(row.event, Some(response.code)))]
                            else [])
            && row'.attempts == row.attempts + 1
            && row'.status == (if success then Success else if row'.attempts >= cfg.maxRetries then Undelivered else row.status)
            && row'.payload == row.payload && row'.webhook == row.webhook && row'.org == row.org && row'.event == row.event
  {}

  lemma {:induction false} ChainFrom(cfg: Settings, db: Db, id: Id, responses: nat -> Response, retries: nat)
    requires retries <= cfg.maxRetries && id < |db.deliveries| && db.deliveries[id].webhook < |db.webhooks|
    requires db.deliveries[id].attempts >= retries
    ensures var (db', last) := Chain(cfg, db, id, responses, retries);
            ChainDone(cfg, db, id, responses, retries, db', last)
    decreases cfg.maxRetries - retries
  {
    hide DeliverOnce, AttemptedRow, ChainDone, Chain;
    OneAttempt(cfg, db, id, responses(retries));
    ChainStep(cfg, db, id, responses, retries);
    var (next, success) := DeliverOnce(cfg, db, id, responses(retries));
    if !success && retries < cfg.maxRetries {
      ChainFrom(cfg, next, id, responses, retries + 1);
      var (end, last) := Chain(cfg, next, id, responses, retries + 1);
      DoneMore(cfg, db, id, responses, retries, end, last);
    } else {
      DoneAtOnce(cfg, db, id, responses, retries);
    }
  }

  lemma DoneAtOnce(cfg: Settings, db: Db, id: Id, responses: nat -> Response, k: nat)
    requires k <= cfg.maxRetries && id < |db.deliveries| && db.deliveries[id].webhook < |db.webhooks|
    requires db.deliveries[id].attempts >= k && (Delivered(responses(k)) || k == cfg.maxRetries)
    ensures ChainDone(cfg, db, id, responses, k, DeliverOnce(cfg, db, id, responses(k)).0, k)
  {
    hide LastAnswers, DeliverOnce, AttemptedRow;
    OneAttempt(cfg, db, id, responses(k));
    OneAnswer(db.deliveries[id], responses, k, cfg.maxRetries);
  }

  lemma DoneMore(cfg: Settings, db: Db, id: Id, responses: nat -> Response, k: nat, end: Db, last: nat)
    requires k < cfg.maxRetries && id < |db.deliveries| && db.deliveries[id].webhook < |db.webhooks| && !Delivered(responses(k))
    requires var next := DeliverOnce(cfg, db, id, responses(k)).0;
             id < |next.deliveries| && ChainDone(cfg, next, id, responses, k + 1, end, last)
    ensures ChainDone(cfg, db, id, responses, k, end, last)
  {
    hide LastAnswers, DeliverOnce, AttemptedRow;
    OneAttempt(cfg, db, id, responses(k));
    var next := DeliverOnce(cfg, db, id, responses(k)).0;
    assert next.audit == db.audit;
    MoreAnswers(db.deliveries[id], end.deliveries[id], responses, k, last, cfg.maxRetries);
  }

  /**
   * For every sequence of answers a chain on an existing delivery stops after at most max_retries + 1 executions, each
   * counted as one attempt; it ends in success exactly when the last answer was 2xx, with one audit row, and otherwise
   * in failure, never pending.
   */
  lemma ChainOutcome(cfg: Settings, db: Db, id: Id, responses: nat -> Response)
    requires id < |db.deliveries| && db.deliveries[id].webhook < |db.webhooks|
    ensures var (db', last) := Chain(cfg, db, id, responses, 0);
            ChainDone(cfg, db, id, responses, 0, db', last)
  {
    ChainFrom(cfg, db, id, responses, 0);
  }

  /** Without the delivery row or its webhook every execution reports failure and nothing is written. */
  lemma {:induction false} ChainOnNothing(cfg: Settings, db: Db, id: Id, responses: nat -> Response, retries: nat)
    requires retries <= cfg.maxRetries && (id >= |db.deliveries| || db.deliveries[id].webhook >= |db.webhooks|)
    ensures Chain(cfg, db, id, responses, retries) == (db, cfg.maxRetries)
    decreases cfg.maxRetries - retries
  {
    if retries < cfg.maxRetries {
      ChainOnNothing(cfg, db, id, responses, retries + 1);
    }
  }

  /** The chain keeps within the documented max_retries executions exactly when one of that many answers is 2xx. */
  lemma WithinBoundIff(cfg: Settings, db: Db, id: Id, responses: nat -> Response)
    requires id < |db.deliveries| && db.deliveries[id].webhook < |db.webhooks|
    ensures Chain(cfg, db, id, responses, 0).1 + 1 <= cfg.maxRetries
            <==> exists k | 0 <= k < cfg.maxRetries :: Delivered(responses(k))
  {
    ChainFrom(cfg, db, id, responses, 0);
  }

  function Attempts(cfg: Settings, db: Db, id: Id, responses: nat -> Response, n: nat): Db {
    if n == 0 then db else DeliverOnce(cfg, Attempts(cfg, db, id, responses, n - 1), id, responses(n - 1)).0
  }

  lemma {:induction false} ChainContinues(cfg: Settings, db: Db, id: Id, responses: nat -> Response, retries: nat)
    requires retries <= cfg.maxRetries
    ensures var (end, last) := Chain(cfg, Attempts(cfg, db, id, responses, retries), id, responses, retries);
            retries <= last && end == Attempts(cfg, db, id, responses, last + 1)
    decreases cfg.maxRetries - retries
  {
    hide DeliverOnce;
    var (_, success) := DeliverOnce(cfg, Attempts(cfg, db, id, responses, retries), id, responses(retries));
    if !success && retries < cfg.maxRetries {
      ChainContinues(cfg, db, id, responses, retries + 1);
    }
  }

  lemma {:induction false} FailedAttempts(cfg: Settings, db: Db, id: Id, responses: nat -> Response, n: nat)
    requires id < |db.deliveries| && db.deliveries[id].webhook < |db.webhooks| && db.deliveries[id].attempts == 0
    requires db.deliveries[id].status == Pending && forall k | 0 <= k < n :: !Delivered(responses(k))
    ensures var db' := Attempts(cfg, db, id, responses, n);
            && id < |db'.deliveries| && db'.webhooks == db.webhooks
            && db'.deliveries[id].webhook == db.deliveries[id].webhook && db'.deliveries[id].attempts == n
            && db'.deliveries[id].status == if n >= cfg.maxRetries && n > 0 then Undelivered else Pending
  {
    if n > 0 {
      FailedAttempts(cfg, db, id, responses, n - 1);
    }
  }

  /** After n attempts, n of which the chain makes, the row is marked failed. */
  ghost predicate FailedAfter(cfg: Settings, db: Db, id: Id, responses: nat -> Response, n: nat) {
    && 0 < n <= Chain(cfg, db, id, responses, 0).1
    && id < |Attempts(cfg, db, id, responses, n).deliveries|
    && Attempts(cfg, db, id, responses, n).deliveries[id].status == Undelivered
  }

  /**
   * A new delivery is marked failed and still ends in success exactly when none of the first max_retries answers is 2xx
   * and the next one is: the execution beyond the documented bound overturns the failure.
   */
  lemma FailureOverturnedIff(cfg: Settings, db: Db, id: Id, responses: nat -> Response)
    requires id < |db.deliveries| && db.deliveries[id].webhook < |db.webhooks|
    requires db.deliveries[id].attempts == 0 && db.deliveries[id].status == Pending
    ensures var (end, last) := Chain(cfg, db, id, responses, 0);
            && end == Attempts(cfg, db, id, responses, last + 1)
            && id < |end.deliveries|
            && ((exists n :: FailedAfter(cfg, db, id, responses, n)) && end.deliveries[id].status == Success
                <==> && cfg.maxRetries >= 1 && Delivered(responses(cfg.maxRetries))
                     && forall k | 0 <= k < cfg.maxRetries :: !Delivered(responses(k)))
  {
    hide DeliverOnce;
    ChainContinues(cfg, db, id, responses, 0);
    ChainFrom(cfg, db, id, responses, 0);
    var (end, last) := Chain(cfg, db, id, responses, 0);
    forall n: nat | n <= last
      ensures id < |Attempts(cfg, db, id, responses, n).deliveries|
              && (Attempts(cfg, db, id, responses, n).deliveries[id].status == Undelivered <==> n >= cfg.maxRetries && n > 0)
    {
      FailedAttempts(cfg, db, id, responses, n);
    }
    if cfg.maxRetries >= 1 && last == cfg.maxRetries {
      assert FailedAfter(cfg, db, id, responses, last);
    }
  }

  // ----- other calls between the attempts

  /** The chain with other calls between its attempts: gaps(k) run after attempt k failed. */
  function BusyChain(cfg: Settings, db: Db, id: Id, responses: nat -> Response, gaps: nat -> seq<Step>, retries: nat): (Db, nat)
    requires cfg.embedder.dim > 0 && retries <= cfg.maxRetries
    decreases cfg.maxRetries - retries
  {
    var (next, success) := DeliverOnce(cfg, db, id, responses(retries));
    if !success && retries < cfg.maxRetries
    then BusyChain(cfg, Execute(cfg, next, gaps(retries)), id, responses, gaps, retries + 1)
    else (next, retries)
  }

  /** The call is not an attempt of this delivery. */
  predicate Foreign(step: Step, id: Id) { step.DeliverStep? ==> step.delivery != id }

  /** The delivery exists with its webhook. */
  predicate Deliverable(db: Db, id: Id) { id < |db.deliveries| && db.deliveries[id].webhook < |db.webhooks| }

  lemma EnqueueKeepsRow(cfg: Settings, db: Db, t: Id, event: NoticeKind, env: NotifyEnv, id: Id)
    requires t < |db.tickets| && Deliverable(db, id)
    ensures var db' := Enqueue(cfg, db, t, event, env).0;
            Deliverable(db', id) && db'.deliveries[id] == db.deliveries[id]
  {
    hide FindWebhook;
  }

  lemma CommitKeepsRow(db: Db, p: Patch, id: Id)
    requires Applies(db, p) && Deliverable(db, id)
    ensures var db' := CommitPatch(db, p);
            && Deliverable(db', id) && db'.deliveries[id] == db.deliveries[id]
            && |db'.tickets| == |db.tickets| && |db'.runs| == |db.runs|
  {}

  lemma ExecuteRunKeepsRow(cfg: Settings, db: Db, r: Id, env: RunEnv, id: Id)
    requires cfg.embedder.dim > 0 && Deliverable(db, id)
    ensures var db' := ExecuteRun(cfg, db, r, env);
            Deliverable(db', id) && db'.deliveries[id] == db.deliveries[id]
  {
    hide ExecutePatch, Enqueue, CommitPatch;
    if r < |db.runs| && db.runs[r].ticket < |db.tickets| {
      var t := db.runs[r].ticket;
      ExecutePatchOk(cfg, db, r, db.tickets[t], env);
      var p := ExecutePatch(cfg, db, r, db.tickets[t], env);
      if p.Ok? {
        var moved := CommitPatch(db, p.value);
        CommitKeepsRow(db, p.value, id);
        EnqueueKeepsRow(cfg, moved, t, TicketEscalatedNotice, env.notify, id);
        EnqueueKeeps(cfg, moved, t, TicketEscalatedNotice, env.notify);
      }
    }
  }

  lemma ApproveKeepsRow(cfg: Settings, db: Db, t: Id, actor: UserId, edited: Option<string>, notify: NotifyEnv, id: Id)
    requires t < |db.tickets| && Deliverable(db, id)
    ensures var db' := Approve(cfg, db, t, actor, edited, notify);
            Deliverable(db', id) && db'.deliveries[id] == db.deliveries[id]
  {
    hide ApprovePatch, Enqueue, CommitPatch;
    ApprovePatchOk(cfg, t, db.tickets[t], actor, edited);
    var p := ApprovePatch(t, db.tickets[t], actor, edited);
    if p.Ok? {
      CommitKeepsRow(db, p.value, id);
      EnqueueKeepsRow(cfg, CommitPatch(db, p.value), t, TicketApprovedNotice, notify, id);
    }
  }

  /** No call but its own attempts writes a delivery row. */
  lemma ForeignKeepsRow(cfg: Settings, db: Db, step: Step, id: Id)
    requires cfg.embedder.dim > 0 && Deliverable(db, id) && Foreign(step, id)
    ensures var db' := Apply(cfg, db, step);
            Deliverable(db', id) && db'.deliveries[id] == db.deliveries[id]
  {
    hide ExecuteRun, Approve, RejectPatch, EditPatch, CommitPatch, AddDocument, FindWebhook, Blank;
    match step {
      case ExecuteRunStep(r, env) => ExecuteRunKeepsRow(cfg, db, r, env, id);
      case ApproveStep(org, actor, t, edited, notify) =>
        if t < |db.tickets| { ApproveKeepsRow(cfg, db, t, actor, edited, notify, id); }
      case RejectStep(org, actor, t, reason) =>
        if t < |db.tickets| {
          RejectPatchOk(cfg, t, db.tickets[t], actor, reason);
          var p := RejectPatch(t, db.tickets[t], actor, reason);
          if p.Ok? { CommitKeepsRow(db, p.value, id); }
        }
      case EditDraftStep(org, actor, t, content) =>
        if t < |db.tickets| {
          EditPatchOk(cfg, t, db.tickets[t], actor, content);
          var p := EditPatch(t, db.tickets[t], actor, content);
          if p.Ok? { CommitKeepsRow(db, p.value, id); }
        }
      case AddDocumentStep(org, actor, title, content) => AddDocumentKeepsRows(cfg, db, org, actor, title, content);
      case _ =>
    }
  }

  lemma AddDocumentKeepsRows(cfg: Settings, db: Db, org: OrgId, actor: UserId, title: string, content: string)
    requires cfg.embedder.dim > 0
    ensures var db' := AddDocument(cfg, db, org, actor, title, content);
            db'.deliveries == db.deliveries && db'.webhooks == db.webhooks
  {}

  lemma {:induction false} ForeignRunKeepsRow(cfg: Settings, db: Db, steps: seq<Step>, id: Id)
    requires cfg.embedder.dim > 0 && Deliverable(db, id) && forall s | s in steps :: Foreign(s, id)
    ensures var db' := Execute(cfg, db, steps);
            Deliverable(db', id) && db'.deliveries[id] == db.deliveries[id]
    decreases |steps|
  {
    hide Apply, Foreign, Deliverable;
    if steps != [] {
      assert steps[0] in steps;
      ForeignKeepsRow(cfg, db, steps[0], id);
      ForeignRunKeepsRow(cfg, Apply(cfg, db, steps[0]), steps[1..], id);
      assert forall s | s in steps[1..] :: s in steps;
    }
  }

  lemma AttemptRow(cfg: Settings, db: Db, id: Id, response: Response)
    requires Deliverable(db, id)
    ensures var (db', success) := DeliverOnce(cfg, db, id, response);
            && Deliverable(db', id) && db'.deliveries[id] == AttemptedRow(db.deliveries[id], response, cfg.maxRetries)
            && success == Delivered(response)
  {}

  /**
   * The outcome of a delivery does not depend on the calls that run between its attempts: the row, and the number of
   * executions, are those of the chain alone.
   */
  lemma {:induction false} BusyChainSameRow(
      cfg: Settings, busy: Db, quiet: Db, id: Id, responses: nat -> Response, gaps: nat -> seq<Step>, retries: nat)
    requires cfg.embedder.dim > 0 && retries <= cfg.maxRetries
    requires Deliverable(busy, id) && Deliverable(quiet, id) && busy.deliveries[id] == quiet.deliveries[id]
    requires forall k | retries <= k < cfg.maxRetries :: forall s | s in gaps(k) :: Foreign(s, id)
    ensures var (busyEnd, busyLast) := BusyChain(cfg, busy, id, responses, gaps, retries);
            var (end, last) := Chain(cfg, quiet, id, responses, retries);
            && busyLast == last && Deliverable(busyEnd, id) && Deliverable(end, id)
            && busyEnd.deliveries[id] == end.deliveries[id]
    decreases cfg.maxRetries - retries
  {
    hide DeliverOnce, Execute, AttemptedRow, Deliverable, Foreign;
    AttemptRow(cfg, busy, id, responses(retries));
    AttemptRow(cfg, quiet, id, responses(retries));
    var (next, success) := DeliverOnce(cfg, busy, id, responses(retries));
    if !success && retries < cfg.maxRetries {
      ForeignRunKeepsRow(cfg, next, gaps(retries), id);
      BusyChainSameRow(cfg, Execute(cfg, next, gaps(retries)), DeliverOnce(cfg, quiet, id, responses(retries)).0, id, responses,
        gaps, retries + 1);
    }
  }
}
