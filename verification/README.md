# AgentDesk: a verified model of the ticket machine and the grounding pipeline

AgentDesk answers support tickets with an AI draft that a person must approve. This project models the two parts of
its backend that carry that promise, and proves what holds of them over every input and every run.

**The ticket machine.** The eight tables the services share (tickets, ticket events, agent runs, audit rows, webhooks,
deliveries, documents, chunks) are one value, `Models.Db`. `Services` holds the services as imperative methods over a
`Session` with a committed and a working copy, assigning rows one by one with explicit commit and rollback. Each method
is proved to leave the committed database that a function in `Transactions` describes. About that function `History`,
`Machine`, `Guarantees`, `Tasks`, `MetricsService` and `Tenancy` prove the invariants and what they mean.
`Interleaving` splits each call on a ticket into a load and a later commit, and proves what survives every interleaving
and the exact condition for the history path; `Finality` does the same for the finality of an approval, and
`InterleavedCounts` carries the counts and metrics over. A call may be open before the run it executes exists, as when
a request that runs the agent inline has loaded the ticket first.

**The grounding pipeline.** `Text` (tokeniser and word scanner), `Chunking`, `Embedding`, `Retrieval` and `Agent` follow
a document from its words to the decision on a ticket, and `Thresholds` finds the settings for which the decision means
what it should, over any rows; `StoredConfidence` looks at the rows that ingestion stores. `KnowledgeBase` and
`Answers` join both halves: the stored chunks rebuild their documents, the knowledge base decides the status of every
ticket that the offline agent processes, and the answer it stores is what a person then approves.

## How the model reads the code

- Floats are exact reals. `round(x, k)` is exact rounding to the nearest multiple of 10^-k, halves to even.
- `math.sqrt` is any function with `IsSqrt`. The first eight bytes of SHA-256 of a token, the classifier, and a general
  language model are arbitrary functions, so nothing depends on their values.
- A fresh UUID is the next position of its table. `select` reads rows in the order they were added.
- Lower-casing works character by character and is exact about which results fall in `[a-z0-9]`: besides A to Z, the
  Kelvin sign and the dotted capital I do.
- `list.sort` belongs to Python, so it is a function here. `SortIsDescending`, `SortIsStable` and `DescendingUnique`
  show that only one list is a stable descending sort of its input.
- The object mapper writes only the columns whose value changed since the load (`Transactions.Column`), which matters
  once two calls overlap.
- A database error before the first commit of a call is a call that did not happen. Errors while a run writes its rows,
  while it refreshes, and in the notification stage are modelled (`RunEnv`, `NotifyEnv`).
- The role of the caller is not modelled; the tenant check of `get_ticket` is (`Transactions.Visible`).

## Where code and documentation differ

The model follows the code.

- The specification asks for backoff with jitter and at most five attempts. There is no jitter in the code, and the
  Celery task runs up to `max_retries + 1` times while the row is marked failed at `max_retries`.
  `Tasks.WithinBoundIff` says when the chain keeps the bound, `Tasks.FailureOverturnedIff` when a failed row becomes a
  success.
- The critic's docstring and the data model promise a confidence in [0, 1]. A ticket that opposes an ingested document
  gets -0.5 when the similarity threshold is -1 or below (`StoredConfidence.StoredNegative`). Over arbitrary tables of
  rows the confidence is never negative exactly if top_k is 0 or the threshold exceeds -0.0000015
  (`Thresholds.NeverNegativeIff`). On tables that `create_document` has filled this is sufficient, and so is a hash
  without opposite signs; with the threshold at -1 or below the latter is also necessary
  (`StoredConfidence.StoredNeverNegativeIff`).
- There is no row lock and no version check, so an approval need not be final when calls on one ticket overlap:
  `Interleaving.DoubleApproval` exhibits two approvals of one ticket. `Finality.ApprovalFinalIffQuiet` gives the exact
  condition on the calls in flight when the approval commits, `Interleaving.ChainIffAllFresh` the one for the history.
- `edit_draft` accepts a ticket in any status, and a run whose escalation notice raises keeps its outcome and its ticket
  move although it is marked failed.

## Model

Besides the members below, these write out what single definitions mean for a caller: `Agent.WorkflowDecided`,
`Agent.GridSeparates`, `Agent.DefaultsSeparate`, `Models.TransitionsInto`, `RealMath.TiesToEven`, `RealMath.RoundError`,
`Guarantees.StartThenRead`, `Guarantees.ApproveDecides`, `Guarantees.RejectAndEditDecide`, `Guarantees.EnqueueNotices`,
`Guarantees.NoticeIffActive`, `Interleaving.BeginLoads` and `Interleaving.StaleColumns`.

| member | source | states |
|---|---|---|
| Chunking.ChunkText | backend/app/services/document_service.py:20-34 | For every integer size and overlap the loop returns the joined slices; with a positive size and no negative overlap it leaves by its break, never by running out of starts |
| Chunking.LoopIsWindows | backend/app/services/document_service.py:26-33 | For a positive size the slices of the loop are the overlapping windows |
| Chunking.WindowCount | backend/app/services/document_service.py:26-33 | A non-empty text of n words gives 1 chunk if n <= size, else 1 + ceil((n - size) / stride) |
| Chunking.WindowsOverlap | backend/app/services/document_service.py:26-33 | Consecutive windows share exactly the overlap, all but the last are full, and each later one adds a word |
| Chunking.WindowsRebuild | backend/app/services/document_service.py:26-33 | First window plus the later windows without the shared words is the exact word list |
| Chunking.ChunksRebuild | backend/app/services/document_service.py:20-34 | Read back from the joined texts, the chunks rebuild the word list if and only if the overlap is not negative or one chunk holds all words |
| Chunking.ChunkOfChunk | backend/app/services/document_service.py:14-34 | Chunking a produced chunk gives that chunk alone |
| Chunking.ChunksOfBlank | backend/app/schemas/document.py:17-22 | A text has no chunk if and only if the schema's non-blank check refuses it |
| Chunking.TidyTextIsChunk | backend/app/services/document_service.py:23-34 | A text of at most `size` words, with single blanks between them and no white space at its ends, is its own only chunk |
| Chunking.ChunkIsTidy | backend/app/services/document_service.py:29-31 | Every chunk is such a text, as long as its words together and one less than their number |
| Text.WordsJoin | backend/app/services/document_service.py:14-31 | Scanning `\S+` inverts joining words with one blank |
| Text.JoinConcat | backend/app/services/document_service.py:31 | Joining two non-empty lists writes the separator once between their texts |
| Text.TidyRejoins | backend/app/services/document_service.py:14-31 | A tidy text is its words joined by one blank |
| Text.WordOfChar | backend/app/services/document_service.py:14 | Exactly the listed white space characters are no part of a word |
| Text.TokenOfChar | backend/app/providers/mock.py:15-19 | Which characters form tokens, and in which case: ASCII letters and digits, and two letters that lower-case into them |
| Text.TokensIgnoreCase | backend/app/agent/nodes.py:33-34 | The case of ASCII letters makes no difference to the tokens |
| Text.StripExact | backend/app/providers/mock.py:54 | Stripping takes exactly the white space at both ends |
| Text.TokensSplit | backend/app/agent/nodes.py:22-34 | A separator that yields no token character splits the token scan in two independent scans |
| Text.TokensJoin | backend/app/agent/nodes.py:79-109 | Texts joined by any separator have exactly their tokens, in order |
| Text.TokensStrip | backend/app/providers/mock.py:54-60 | Stripping white space changes no token |
| Embedding.EmbedOne | backend/app/providers/mock.py:28-41 | The loop that updates the vector in place computes the normalised signed token counts |
| Embedding.SignedCount | backend/app/providers/mock.py:31-35 | Component j is the number of tokens whose hash is j modulo the dimension with bit 8 set, less the number of those with bit 8 clear |
| Embedding.EmbedIsSignedCounts | backend/app/providers/mock.py:28-41 | The embedding times the norm of those counts is the counts, and the first axis if they all cancel |
| Embedding.OneTokenEmbedding | backend/app/providers/mock.py:28-41 | A text with one token has 1 or -1 at the component its hash selects, by bit 8 of the hash, and 0 elsewhere |
| Embedding.CoordConcat | backend/app/providers/mock.py:29-35 | Unnormalised vectors of concatenated token lists add up component by component |
| Embedding.CoordPermutation | backend/app/providers/mock.py:31-35 | Only the multiset of tokens matters |
| Embedding.UnitLength | backend/app/providers/mock.py:36-41 | Every embedding has norm 1, also when all counts cancel |
| Embedding.NormaliseScaled | backend/app/providers/mock.py:36-41 | Scaling the counts by a positive factor does not move the embedding |
| Embedding.SameTokensSameEmbedding | backend/app/providers/mock.py:28-41 | Equal token multisets have equal embeddings |
| Embedding.RepeatedTextSameEmbedding | backend/app/providers/mock.py:28-41 | A text repeated any number of times, with any separator, has the embedding of one copy |
| RealMath.CauchySchwarz | backend/app/services/retrieval_service.py:34-37 | The squared truncating inner product is at most the product of the full sums of squares, for lists of any two lengths |
| RealMath.DotSnoc | backend/app/services/retrieval_service.py:35 | Each further pair adds its product, and what one list has beyond the other adds nothing |
| Retrieval.CosineBound | backend/app/services/retrieval_service.py:24-40 | Scores lie in [-1, 1] for lists of any two lengths |
| Retrieval.CosineTimesNorms | backend/app/services/retrieval_service.py:34-40 | The score of two non-zero vectors times both norms is their inner product |
| Retrieval.CosineSymmetric | backend/app/services/retrieval_service.py:34-40 | Exchanging the vectors leaves the score unchanged |
| Retrieval.CosineScale | backend/app/services/retrieval_service.py:34-40 | Positive scaling leaves the score unchanged |
| Retrieval.CosineSelf | backend/app/services/retrieval_service.py:34-40 | A vector with itself scores 1, the zero vector 0 |
| Retrieval.SameTokensCosineOne | backend/app/providers/mock.py:3-5 | Texts with equal token multisets score exactly 1 |
| Retrieval.SortIsDescending | backend/app/services/retrieval_service.py:75 | The ranking is a descending permutation of the scored rows |
| Retrieval.SortIsStable | backend/app/services/retrieval_service.py:75 | Rows of equal score keep their order |
| Retrieval.DescendingUnique | backend/app/services/retrieval_service.py:75 | The two properties above determine the ranking |
| Retrieval.RankRefinesFilter | backend/app/services/retrieval_service.py:70-78 | Cut-then-threshold equals threshold-then-cut if and only if top_k is not negative, or no row or every row passes, or the cut drops every row |
| Retrieval.RankPrefix | backend/app/services/retrieval_service.py:70-78 | A higher threshold or a smaller top_k gives a prefix of the result |
| Retrieval.RankOmits | backend/app/services/retrieval_service.py:70-78 | An omitted row is below the threshold, or top_k returned rows score at least as high |
| Retrieval.RankSound | backend/app/services/retrieval_service.py:70-78 | Hits are scored rows at or above the threshold, in descending order, at most top_k |
| Agent.HitsAreRows | backend/app/services/retrieval_service.py:70-78 | Search returns rows of the caller's organisation only |
| Agent.ConfidenceRange | backend/app/agent/nodes.py:101-119 | For any draft the confidence is in [-0.5, 1], and in [0, 1] if top_k is 0 or the similarity threshold exceeds -0.0000015 |
| Thresholds.ScoreIsReachable | backend/app/services/retrieval_service.py:34-78 | For every score in [-1, 1] at or above the threshold some table of rows with free embeddings makes the retriever return that score rounded to six decimals |
| StoredConfidence.StoredNegative | backend/app/services/document_service.py:37-70 | Through the services: after ingesting "?", a ticket whose only token counts negatively in the first component gets confidence -0.5 for every draft, with the threshold at -1 or below |
| StoredConfidence.OneSignedNeverNegative | backend/app/agent/nodes.py:101-119 | If no two tokens count with opposite signs in one component and none negatively in the first, no table that the services fill gives a negative confidence, under any settings |
| StoredConfidence.StoredNeverNegativeIff | backend/app/agent/nodes.py:101-119 | With the threshold at -1 or below, the lower bound 0 holds on all tables that the services fill if and only if the hash is so |
| Thresholds.NeverNegativeIff | backend/app/agent/nodes.py:101-119 | Over arbitrary tables of rows, tickets and drafts, the lower bound 0 holds if and only if top_k is 0 or the similarity threshold exceeds -0.0000015 |
| Agent.MockDraftCovers | backend/app/providers/mock.py:54-60 | The offline draft contains every token of its context, and both joins of the contents have the same tokens |
| Agent.OverlapShare | backend/app/agent/nodes.py:111-115 | A draft that holds k of n context tokens covers k / n |
| Agent.OfflineTokenCounts | backend/app/providers/mock.py:66-67 | Prompt tokens add up over the prompt's parts and the system text, completion tokens over the context and the fixed sentences |
| Answers.ConfidenceIsGrounding | backend/app/agent/nodes.py:104-117 | The critic's value is half the rounded best score and half the share of the distinct retrieved tokens that the draft repeats, rounded and capped |
| Answers.WorkflowAnswer | backend/app/agent/nodes.py:37-132 | For every model: prompt, system text and context as sent, the draft is the answer's text, with its token counts, and the decision compares the critic's value for that text |
| Answers.RunStoresAnswer | backend/app/services/agent_run_service.py:63-136 | For every model: a run stores that answer on ticket and run, with confidence, token counts, classification, chunk ids and outcome, or the error it failed with |
| Answers.CompletedRunCounts | backend/app/services/metrics_service.py:41-62 | A run that completes adds one to the completed runs, and to the hits exactly if it retrieved a row |
| Answers.OfflineText | backend/app/providers/mock.py:54-65 | The offline answer quotes its context between two fixed sentences and is never blank |
| Answers.OfflineApproval | backend/app/services/ticket_service.py:140-173 | After an offline run that brings a ticket to waiting_approval, an approval without an edit succeeds, and its response quotes every retrieved chunk with all its tokens |
| Agent.MockConfidence | backend/app/agent/nodes.py:104-117 | With the offline model the confidence is half the top score, plus a half exactly when a retrieved text has a token, rounded and capped |
| Agent.ApprovalIffGrounded | backend/app/agent/nodes.py:54-132 | Under separating thresholds a ticket reaches a human approver if and only if some retrieved chunk has a token |
| Thresholds.ApprovalMeansGroundedIff | backend/app/agent/nodes.py:54-132 | Over arbitrary tables of rows and all tickets, that rule holds if and only if the thresholds separate: a bound on the two thresholds that can be computed from the settings |
| Agent.ApprovalIffRelevant | backend/app/agent/nodes.py:54-132 | If every chunk of the organisation has a token, a ticket reaches an approver if and only if some row scores at or above the threshold |
| Agent.RetrievedIffRelevant | backend/app/services/retrieval_service.py:70-78 | Something is retrieved if and only if the organisation has a row at or above the threshold |
| Agent.MoreDocumentsKeepApproval | backend/app/agent/nodes.py:54-132 | If every stored chunk has a token, adding chunks never turns an approval into an escalation |
| Services.Record | backend/app/services/audit_service.py:15-38 | Appends one row to the caller's transaction and commits only on request |
| Services.Create | backend/app/services/ticket_service.py:27-66 | Commits the specified ticket, event and audit row together |
| Services.Transition | backend/app/services/ticket_service.py:104-137 | Moves and records along legal edges only, changes nothing otherwise, and never commits |
| Services.ApproveTicket | backend/app/services/ticket_service.py:140-173 | Commits the approval as specified; a refused transition leaves the written response in the working copy only |
| Services.RejectTicket | backend/app/services/ticket_service.py:176-202 | Commits the rejection as specified, or changes nothing and reports the illegal edge |
| Services.EditDraft | backend/app/services/ticket_service.py:205-226 | Commits the edit as specified, or changes nothing for blank content |
| Services.StartAgentRun | backend/app/services/agent_run_service.py:24-45 | Commits a running run and its audit row together |
| Services.RunToCommit | backend/app/services/agent_run_service.py:57-136 | The try block up to its commit commits the whole specified transaction or leaves the committed copy alone |
| Services.ExecuteAgentRun | backend/app/services/agent_run_service.py:48-152 | Run, rollback, failure mark and the stage after the commit leave exactly the specified database |
| Services.UpsertWebhook | backend/app/services/webhook_service.py:52-72 | The read-then-write commits the specified configuration |
| Services.EnqueueForTicket | backend/app/services/webhook_service.py:92-124 | Insert, payload, commit and eager attempt leave the specified deliveries, or the error and what was committed before it |
| Services.Deliver | backend/app/services/webhook_service.py:127-177 | One attempt leaves the specified row and audit log and reports success exactly for a 2xx answer |
| Services.CreateDocument | backend/app/services/document_service.py:37-70 | The loops over chunks commit the specified rows and return how many there are |
| Services.Handle | backend/app/db/session.py:11-17 | A request or task with its own session, rolled back on an error, leaves the database that `Apply` specifies |
| Services.Serve | backend/app/db/session.py:11-17 | So does any serial run of calls |
| History.CommitKeepsLog | backend/app/services/ticket_service.py:118-200 | A transaction keeps events and audit rows in agreement, whatever row it had loaded |
| History.ChainIffFresh | backend/app/services/ticket_service.py:118-137 | A move extends the history path if and only if it had loaded the current status |
| History.FreshCommitKeepsTicket | backend/app/services/ticket_service.py:104-226 | On a freshly loaded row every ticket invariant survives a transaction |
| Machine.ApplyKeepsInv | backend/app/services/agent_run_service.py:24-152 | Every call, successful, refused or failed half way, keeps the invariant that links the tables |
| Machine.ReachableInv | backend/app/services/ticket_service.py:27-226 | The invariant holds after every serial run of calls |
| Guarantees.HistoryIsLegalPath | backend/app/models/ticket.py:34-74 | After every serial run a ticket's status events form a path of legal edges from `new` to its status, through five statuses only |
| Guarantees.FinalResponseIsApproved | backend/app/services/ticket_service.py:140-173 | A final response exists if and only if the ticket is approved; it is not blank, and there is one approval, by a user, directly after an agent run whose audited confidence reached the threshold |
| Guarantees.ApprovalIsFinal | backend/app/services/ticket_service.py:140-226 | No later sequence of calls changes an approved ticket's status or final response |
| Guarantees.LogsAppendOnly | backend/app/services/audit_service.py:3-4 | Event and audit rows are never changed or removed |
| Guarantees.PathBalance | backend/app/models/ticket.py:34-74 | Along a path a status is left as often as entered, less one for a current stay |
| Guarantees.AuditConservation | backend/app/services/agent_run_service.py:80-132 | Per ticket: retrievals = drafts = agent events, escalation rows = escalation events, approvals and rejections match with their actors, start rows = runs, each agent event went where its audited confidence sends it, and decisions do not exceed entries into waiting_approval |
| Guarantees.ExecuteRunIsAtomic | backend/app/services/agent_run_service.py:48-152 | A run commits the whole move if and only if the workflow and row writes succeed and the edge is legal, else it only marks the run failed with that error; after the move every table is given, with the notice of an escalation, and the run is completed unless the refresh or that notice raises |
| Guarantees.CreateThenRead | backend/app/services/ticket_service.py:27-88 | A created ticket is readable by its organisation alone, as sent, with a one-step history, and older tickets keep theirs |
| Guarantees.AddDocumentThenRead | backend/app/services/document_service.py:37-70 | A document is stored as sent, exactly if it is not blank; n words give one chunk up to 120 and one more for each further 100 begun |
| Guarantees.NoticesTrace | backend/app/services/webhook_service.py:75-124 | Notices never outnumber the approvals and escalations they announce, and carry the status and the final response of their ticket |
| Guarantees.PayloadsStable | backend/app/services/webhook_service.py:112-177 | A stored payload stays the same through every later call and attempt |
| Guarantees.UpsertThenRead | backend/app/services/webhook_service.py:46-72 | Reading a configuration back gives the values stored, and each organisation keeps at most one |
| Tasks.DeliverWebhook | backend/app/workers/tasks.py:29-36 | The retry loop is the specified chain; the first countdown is the base, each later one twice the one before, and k of them sum to base * (2^k - 1) |
| Tasks.Pow2Adds | backend/app/workers/tasks.py:34 | Those powers are the powers of two: 1 and 2 at 0 and 1, and a product over a sum |
| Tasks.ChainOutcome | backend/app/workers/tasks.py:29-36 | For every sequence of answers: at most max_retries + 1 executions, one attempt each, success with one audit row if and only if the last answer was 2xx, else failed and never pending; each column keeps the last answer of its kind |
| Tasks.ChainOnNothing | backend/app/services/webhook_service.py:134-139 | Without the row or its webhook the chain runs out and writes nothing |
| Tasks.BusyChainSameRow | backend/app/services/webhook_service.py:127-177 | Any calls between the attempts leave the delivery row and the number of executions as the chain alone gives them |
| Tasks.WithinBoundIff | backend/app/workers/tasks.py:29-36 | The chain keeps within max_retries executions if and only if one of the first max_retries answers is 2xx |
| Tasks.FailureOverturnedIff | backend/app/services/webhook_service.py:163-174 | A new delivery is marked failed and still ends in success if and only if none of the first max_retries answers is 2xx and the next one is |
| MetricsService.StatusesAddUp | backend/app/services/metrics_service.py:16-27 | The per-status counts sum to the number of tickets |
| MetricsService.MetricsCount | backend/app/services/metrics_service.py:15-93 | Every figure by the rows it counts: totals, statuses that occur and failed jobs exactly, the three rates as shares of the completed runs within half of the fourth decimal |
| MetricsService.FailedJobsRemain | backend/app/services/metrics_service.py:64-92 | Failed jobs are the runs neither running nor completed plus the deliveries neither pending nor successful |
| MetricsService.MetricsAgree | backend/app/services/metrics_service.py:41-93 | After every serial run the two rates sum to 1 within 1e-4, approval_rate <= retrieval_hit_rate under a positive threshold, all rates lie in [0, 1], and only five statuses occur |
| InterleavedCounts.EveryInterleavingMetrics | backend/app/services/metrics_service.py:41-93 | The same under every interleaving |
| Tenancy.SameRowsSameAnswers | backend/app/services/retrieval_service.py:70-78 | Databases that agree on an organisation's rows give it the same search results and metrics |
| Tenancy.ApplyAgrees | backend/app/services/ticket_service.py:82-88 | A call for one organisation leaves every row of every other as it is |
| Tenancy.NonInterference | backend/app/services/metrics_service.py:15-82 | Whatever the others do after whatever history, an organisation's search results and metrics stay the same |
| Interleaving.EveryInterleavingKeepsLogs | backend/app/services/ticket_service.py:118-137 | Under every interleaving each event is a legal edge, decisions have a human actor, events and audit rows agree, an approved ticket has a non-blank response, and a response exists if and only if there is an approved event |
| InterleavedCounts.EveryInterleavingCountsRuns | backend/app/services/agent_run_service.py:24-45 | Under every interleaving a ticket has one start row for each of its runs |
| Finality.FinalNeverClearedInRun | backend/app/services/ticket_service.py:152 | No interleaving clears a final response once it is set |
| Interleaving.ChainIffAllFresh | backend/app/services/agent_run_service.py:49-136 | Under every interleaving a ticket's history is a path to its status if and only if each committed move had loaded the status it found |
| Interleaving.StaleRunColumns | backend/app/services/agent_run_service.py:98-123 | A run that finishes over a newer row writes its status and, where they differ from the loaded ones, the three suggestions, and no other column |
| Interleaving.NoOverlapKeepsChain | backend/app/services/ticket_service.py:82-137 | The path holds for every ticket on which no two calls overlap, whatever happens on others |
| Finality.PathApprovals | backend/app/models/ticket.py:34-74 | A legal path of stored events has one approval if it ends in `approved`, and none otherwise |
| Finality.ChainGivesFinality | backend/app/services/ticket_service.py:140-173 | In every interleaving, a ticket whose history is a legal path has a final response if and only if it is approved, once, by a user, directly after a confident agent run |
| Finality.NoOverlapKeepsFinality | backend/app/services/ticket_service.py:82-173 | So has every ticket on which no two calls overlap |
| Finality.QuietApprovalIsFinal | backend/app/services/ticket_service.py:140-226 | If no call then in flight on an approved ticket can move it, the approval and its response survive every continuation, however later calls overlap |
| Finality.MovingCallSpoils | backend/app/services/agent_run_service.py:49-136 | One call in flight, human or run, whose transaction moves the status ends the approval when it finishes |
| Finality.ApprovalFinalIffQuiet | backend/app/services/ticket_service.py:118-226 | With human calls in flight, the approval survives every continuation if and only if none of them is a non-blank approval or a rejection that had loaded the waiting ticket |
| Finality.ReachedApprovalIsFinal | backend/app/services/ticket_service.py:82-226 | So an approval reached without overlap on the ticket, with only such harmless calls left in flight, is final |
| Interleaving.DoubleApproval | backend/app/services/ticket_service.py:140-173 | Two operators who both loaded a waiting ticket both approve it: two approved events, the second text stored, the path broken |
| KnowledgeBase.StoredChunksRebuild | backend/app/services/document_service.py:56-68 | After every serial run a document has chunks numbered from 0, each embedded from its own text, that together rebuild its words |
| KnowledgeBase.RunVerdict | backend/app/services/agent_run_service.py:63-136 | An offline run leaves any ticket not approved or closed waiting for approval if the knowledge base grounds it, else escalated, and writes history exactly when that changes the status |
| KnowledgeBase.VerdictByRelevance | backend/app/services/agent_run_service.py:63-136 | If every chunk of the organisation has a token, that verdict is read off the stored rows: waiting exactly if some row scores at or above the threshold |
| KnowledgeBase.IngestionKeepsApproval | backend/app/services/document_service.py:37-70 | If every chunk of the organisation has a token, ingesting a document takes no ticket's grounding away |

## Left out

- The PostgreSQL branch of `search` (`retrieval_service.py:56-68`): the exactness of pgvector's operator and index is not in this code.
- HTTP routing, roles, rate limits, CORS, login, JWT, HMAC signatures and JSON serialisation: they would add easy members or restate libraries.
- The Anthropic and OpenAI adapters: a general model is an arbitrary function that may fail.
- The classifier's keyword table and `estimate_cost`: arbitrary inputs of the model; no property depends on them.
- The averages of latency and cost in the metrics, and wall-clock fields (`updated_at`, `sent_at`, `finished_at`, latency).
- Migrations, the frontend, list endpoints and their ordering by `created_at`.
- Floating-point error, hence scores that miss a threshold by the last bits.
- Context-dependent lower-casing (final sigma) and characters outside [a-z0-9]: they change no token.
- Finality.ApprovalFinalIffQuiet: the only-if half does not cover runs in flight that had loaded an open ticket, because whether such a run moves it depends on the knowledge base at its end; `Finality.MovingCallSpoils` covers those whose transaction moves.
- A serialisation theorem for runs without overlap: notices are separate steps there, so rows of other calls can lie between a commit and its notice.
- Two executions of one run at the same time: the run's columns are then those of the later commit; ticket, event and audit rows are covered by the interleaving results.
- In the interleaved machine a notice is a step of its own at any moment, so the failure mark that a raising notice puts on its run is in the serial machine only.
- Several chains on one delivery, redelivery after a worker crash, and a dispatch lost between the commit and the queue.
- A second database error inside the handler that marks a run failed.
