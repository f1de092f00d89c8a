# OneCapture, modelled and proved

This project models the parts of OneCapture that money, evidence and carbon figures depend
on, and proves what they promise over every input and every run. A table is a map or a
sequence with its UNIQUE constraints, a transaction is one step, a savepoint is a snapshot,
SHA-256 is an injective constructor, and identifiers are fresh. Exact decimals are `real`.

- `BuildClaim`: turning an upload into a claim: every write goes to the tables at once, and
  nested savepoints take writes back.
- `IngestQueue`: the crash-tolerant ingestion queue as interleaved committed steps, with runs
  that are overtaken while still alive; its worker runs `BuildClaim` on the tables it reads.
- `ClaimModel`, `ClaimChanges`, `ClaimLifecycle`: the claim tables, every operation on one
  claim, and whole runs with release and reversal. `ClaimApproval`, `ClaimAfterApproval`,
  `ClaimMoney`, `ClaimEvidence` and `ClaimLedger` prove what runs guarantee; `ClaimService` is
  the service with its loops and savepoints, each method shown to do what its step says.
- `ApprovalMatrix`: the approval gate shared by claims and vendor bills.
- `Coverage`, `ClaimCoverage`: the carbon coverage report, and how any claim appears in it.
- `Ap`, `ApDuties`: vendor bills with duplicate hold, separation of duties and two settlement
  steps; and who of those that prepared a bill may approve it after any run.
- `AuditChain`: the hash-chained audit trail. `RateLimit`: the login limiter.
- `Segment`: planning and merging overlapping page batches.
- `ErpImport`, `ErpReview`, `ErpWorth`, `Carbon`, `CanonicalHash`: ERP Sync from file to ledger,
  and what its rows and batches are worth once columns have rounded them.

Where a promise does not hold of the code, the code is kept, the failing input is given, and
the exact condition is proved:

- A step changes how an ended job ended exactly when a run of it that is still alive gives up on
  a done job or lands for a failed one (`IngestQueue.FlipsIff`). Jobs claimed again and
  dead-lettered only after their previous run ended never change (`PatientQueueIsFinal`); every
  claim over a live run has a continuation that does (`ImpatientClaimCanFlip`), and a dead-lettered
  job stays failed exactly when no run of it could still land (`ReapIsFinalIff`).
- A done job need not have left anything of its own: if every page it diverted was open in the
  holding queue already, it has neither a claim nor a row keyed to it (`BuildClaim.OwnRowIff`,
  `BuildClaim.BillHeldAlready`, `IngestQueue.JobTable.ProcessOne`).
- Batch planning loops for ever with fewer than two pages a batch (`Segment.PlanningDivergesIff`).
- Rebuilding an audit chain ends exactly when the walk meets no row whose stored hash is the
  previous hash of a row met no later (`AuditChain.WalkEndsIff`; `TamperedRowsMayLoop` and
  `CopiedDigestLoops` are two that do not end).
- Renumbering after a split respects uniqueness up to 1000 lines or when the split line is the
  thousandth, and not otherwise (`ClaimEvidence.SplitRenumberIsSafeIff`).
- A step loses a settled bill exactly when a post reported successful carries no document key and
  the bill was approved: posted, without a key and not exportable until it is paid
  (`Ap.AccountedUnlessKeyless`, `Ap.StrandingIsReachable`).
- `src/eclaim/services/ap.py:424-435` bars filer, coder and submitter from approving a bill. The
  bill remembers one of each, so after any run somebody passes exactly when they are not the
  filer, not the last coder and not the last submitter and the other gates pass
  (`ApDuties.ApproverIff`). An earlier coder may approve (`ApDuties.EarlierCoderApproves`), and so
  may whoever corrected the header or added or removed a line, which no field of the bill records
  (`ApDuties.CorrectorApproves`).
- The authority limit holds when a claim is approved. A later coding edit moves the approved total
  exactly when it sets a rate under which an approved line is worth something else
  (`ClaimAfterApproval.ApprovedFollowsEdit`), and passes the limit exactly when that makes more
  (`LimitPassedIff`, `LimitOutlivedIff`; `RateEditCanPassLimit` is a run that does).
- The same edit takes the category's relevance flag afresh: it changes whether an approved line
  forwards exactly when the flag taken at capture is no longer what the category says
  (`ClaimAfterApproval.ForwardingFollowsEdit`).
- `src/erpsync/review/service.py:176-178` says maker-checker is vacuous for a re-mapping. The code
  refuses the last editor (`ErpReview.RemapAcceptedIff`), and only the last: somebody who edited a
  row approves it exactly when somebody else edited it after them and the other gates pass
  (`ErpReview.EditorApprovesIff`, `ErpReview.EarlierEditorApproves`).
- Tonnes of an ERP row are computed before its columns round amount, quantity and factor. A stored
  row recomputes to its own tonnes exactly when that rounding leaves the tonnes as they are
  (`ErpWorth.StoredRecomputesIff`), as it does for figures that fit the columns
  (`ErpWorth.FittingSurvives`), and not for an amount of 1.005 (`ErpWorth.StoredRowDrifts`).
- A limit below one acts as one in the login limiter (`RateLimit.Limit`).

## Model

| member | source | states |
|---|---|---|
| `IngestQueue.OneClaimPerJob` | src/eclaim/ingest/worker.py:81-229 | In every interleaving of any number of workers, with crashes and overtaken runs, a job has at most one committed claim, a claim of the job exists exactly when its link names it, and a done job left a claim or a row of its own, or a run of it listed only pages held already |
| `IngestQueue.LinkIsForever` | src/eclaim/ingest/worker.py:98-108 | A claim link once set is never cleared or changed, the claim row stays, and an ended job never runs again |
| `IngestQueue.ReplayKeepsInv` | src/eclaim/ingest/worker.py:39-229 | What every step of every interleaving keeps: attempts within the budget, links and claims in agreement, runs only of claimed jobs, and what done can mean |
| `IngestQueue.WorkIsBounded` | src/eclaim/ingest/worker.py:39-65 | Without new uploads, attempts left, live runs and unfinished jobs bound all claiming, finishing and reaping any interleaving can do |
| `IngestQueue.UnfinishedJobMovesOn` | src/eclaim/ingest/worker.py:41-65 | A stale unfinished job is exactly one of runnable and reapable, and a worker then finds a job or the reaper ends it |
| `IngestQueue.PatientQueueIsFinal` | src/eclaim/ingest/worker.py:145-229 | If jobs are re-claimed and dead-lettered only after their previous run ended, done and failed are final, and done means exactly that the job left a claim or a row of its own, or else listed only pages held already |
| `IngestQueue.FlipsIff` | src/eclaim/ingest/worker.py:98-229 | Exactly which steps change how an ended job ended |
| `IngestQueue.ImpatientClaimCanFlip` | src/eclaim/ingest/worker.py:41-51 | Claiming a job over a live run of it, in any phase, has a continuation in which the job ends done and then failed |
| `IngestQueue.ReapIsFinalIff` | src/eclaim/ingest/worker.py:56-65 | A dead-lettered job stays failed through every continuation exactly when no run of it could still land |
| `IngestQueue.DoneOnHeldPagesIsReachable` | src/eclaim/ingest/worker.py:204-213 | A done job with neither a claim nor a row of its own is reachable from the empty queue |
| `IngestQueue.OvertakenRunUndoesDone` | src/eclaim/ingest/worker.py:202-206 | An overtaken run that gives up turns a done job with a claim into a failed one |
| `IngestQueue.ReapedRunUndoesFailed` | src/eclaim/ingest/worker.py:111-120 | A run that is only slow finishes a job already dead-lettered: patience about re-claiming alone is not enough |
| `IngestQueue.OvertakingIsReachable` | src/eclaim/ingest/worker.py:41-51 | Two live runs of one job, both building, are reachable from the empty queue |
| `IngestQueue.SlowLastRunIsReachable` | src/eclaim/ingest/worker.py:56-65 | A fifth run still building while its job is reapable is reachable from the empty queue |
| `IngestQueue.JobTable.ProcessOne` | src/eclaim/ingest/worker.py:145-229 | One call nothing overtakes is one of the interleavings, picks the oldest runnable unlocked job, and leaves it done exactly when its upload lands, linked to the claim built if there are lines, and with nothing of its own exactly when all its pages were held already |
| `IngestQueue.JobTable.RunJob` | src/eclaim/ingest/worker.py:170-229 | From the claimed job to its end: an existing claim or own rows finish it without building; otherwise what the build did to the tables decides |
| `IngestQueue.JobTable.ReapPoisonJobs` | src/eclaim/ingest/worker.py:111-120 | Dead-letters exactly the stale running jobs whose attempts are used up |
| `IngestQueue.JobTable.ClaimNextJob` | src/eclaim/ingest/worker.py:81-95 | Claims the oldest runnable job no other transaction holds, counting the attempt |
| `Segment.IsOrderedPartition` | src/eclaim/ocr/segment.py:59-70 | Accepts exactly the non-empty lists of non-empty ascending runs that cover the pages in order |
| `Segment.PlanBatches` | src/eclaim/ocr/segment.py:107-126 | Terminates, covers all pages in ranges of at most the batch size, and puts every adjacent page pair into exactly one of them |
| `Segment.PlanningDivergesIff` | src/eclaim/ocr/segment.py:120-125 | The loop runs for ever exactly when there is more than one batch to make and a batch holds fewer than two pages |
| `Segment.MergePartitions` | src/eclaim/ocr/segment.py:129-161 | Always a partition of the pages; two neighbours stay together exactly when the batch owning the pair answered so; a failed batch cuts only inside its range |
| `Segment.MergeRecoversGlobal` | src/eclaim/ocr/segment.py:129-161 | If every batch answers as one global partition restricted to it, the merge is that partition |
| `Segment.PartitionUnique` | src/eclaim/ocr/segment.py:59-70 | A partition is determined by which neighbours it keeps together |
| `Segment.SegmentPages` | src/eclaim/ocr/segment.py:176-208 | Planning, asking and merging together: one page each without a client or with a page too large, else a partition for any replies, and where usable replies follow one segmentation the result cuts more than it only inside failed batches |
| `Segment.SegmentBatch` | src/eclaim/ocr/segment.py:210-244 | A batch answer is used only if it is an ordered partition of its pages |
| `AuditChain.VerifyChain` | src/core/audit.py:32-46 | True exactly for chains whose every row recomputes and points at its predecessor |
| `AuditChain.TipFixesHistory` | src/core/audit.py:26-46 | Two verified chains with the same final hash are equal event for event, for an injective hash |
| `AuditChain.AppendVerified` | src/eclaim/services/audit.py:35-59 | A chain stays verified exactly when the new row recomputes and points at the tip |
| `AuditChain.TipIsUnique` | src/eclaim/repositories.py:513-535 | Whichever row the tip query picks, it answers with the hash of the last appended event |
| `AuditChain.Chain` | src/eclaim/repositories.py:542-564 | Any permutation of stored rows is rebuilt in append order; the result is a permutation of the input and verifies exactly when some order does |
| `AuditChain.RecomputingRowsEnd` | src/eclaim/repositories.py:557-562 | Walking the links terminates on any rows whose hashes recompute |
| `AuditChain.WalkEndsIff` | src/eclaim/repositories.py:557-562 | For all rows, the walk ends exactly when it ends within as many links as there are rows, and exactly when it meets no row that leads back to one met no later |
| `AuditChain.TamperedRowsMayLoop` | src/eclaim/repositories.py:557-562 | A row whose stored hash is the empty string is its own successor: the walk never ends |
| `AuditChain.CopiedDigestLoops` | src/eclaim/repositories.py:557-562 | A digest copied onto the next row makes the walk endless without any empty digest |
| `AuditChain.AuditLog.RecordEvent` | src/eclaim/services/audit.py:21-59 | Appends one row to the entity trail at the tip, leaves other trails alone, and keeps every trail verified exactly when a caller-supplied link is the tip |
| `AuditChain.AuditLog.ChainOf` | src/eclaim/repositories.py:542-564 | The trail of an entity comes back in append order from any permutation of its rows |
| `RateLimit.LoginRateLimiter.Check` | src/eclaim/auth/ratelimit.py:55-70 | Refuses exactly when the full, never pruned log holds the limit of failures in the window for the address, or for the e-mail since its last success, with the wait computed from the oldest counted one |
| `RateLimit.LoginRateLimiter.RecordFailure` | src/eclaim/auth/ratelimit.py:72-76 | The pruned deques still agree with the full log after a failure |
| `RateLimit.LoginRateLimiter.RecordSuccess` | src/eclaim/auth/ratelimit.py:78-84 | And after a success, which clears the e-mail but not the address |
| `RateLimit.LoginRateLimiter.Login` | src/eclaim/auth/routes.py:42-63 | Check, authenticate, record: the log grows only by attempts that were let through |
| `RateLimit.NoWindowExceedsLimit` | src/eclaim/auth/ratelimit.py:55-76 | Serial logins never put more failures of one address than the limit into any window |
| `RateLimit.NoEmailWindowExceedsLimit` | src/eclaim/auth/ratelimit.py:55-84 | Nor of one e-mail since its last success |
| `RateLimit.WaitingReopens` | src/eclaim/auth/ratelimit.py:60-70 | Waiting the promised seconds ages out the oldest counted attempt and reopens a bucket at its limit |
| `RateLimit.ThrottledBucketsReopen` | src/eclaim/auth/ratelimit.py:60-70 | In a throttled log the wait always reopens the bucket of an address |
| `RateLimit.ThrottledEmailsReopen` | src/eclaim/auth/ratelimit.py:60-70 | The same for the bucket of an e-mail |
| `ApprovalMatrix.SelectIsBest` | src/eclaim/services/sod.py:74-98 | The rule chosen by sorting is the first of the most specific rules that fit, and none is chosen only if none fits |
| `ApprovalMatrix.GapIffAboveSomeFloor` | src/eclaim/services/sod.py:58-71 | The fail-closed gap is open exactly for amounts at or above the floor of some step-1 band of the module |
| `ApprovalMatrix.GateIsExact` | src/eclaim/services/sod.py:33-177 | The gate passes exactly approvers with role, grant and limit who meet the most specific covering rule, or amounts below every floor |
| `ClaimChanges.ChangeKeeps` | src/eclaim/services/claims.py:289-1617 | Every operation on a claim keeps line numbers and identifiers unique, totals exact, maker and checker distinct, nothing unattested gone; none takes a claim out, and one that has left is frozen but for being paid |
| `ClaimApproval.ApproveIsSound` | src/eclaim/services/claims.py:1277-1312 | Approval by a principal succeeds exactly on an in-review claim with every amount converted, for somebody entitled for the complete ringgit sum of every line |
| `ClaimApproval.ApproveApprovesAll` | src/eclaim/services/claims.py:1277-1312 | Everything claimed is then approved, by that principal |
| `ClaimApproval.DecideIsSound` | src/eclaim/services/claims.py:1314-1390 | The same gate before a partial approval, with every decision on a known line and a reason where one is due |
| `ClaimApproval.DecideKeepsClaimed` | src/eclaim/services/claims.py:1314-1390 | Deciding lines leaves what was claimed untouched |
| `ClaimApproval.RollUpMeans` | src/eclaim/services/claims.py:1358-1366 | What each header status of a decision means for the lines, both ways |
| `ClaimApproval.TotalsAreLineSums` | src/eclaim/services/claims.py:229-255 | Claimed is the line sum in every reachable state; approved and reimbursable are sums of the approved lines once decided |
| `ClaimModel.SumBaseIsSum` | src/eclaim/services/claims.py:249-255 | The optional roll-up is absent exactly when no line has an amount, and otherwise the sum |
| `ClaimMoney.DerivedMeans` | src/eclaim/services/claims.py:138-163 | What net and home-currency amounts are for inclusive, exclusive, ringgit, foreign and converted lines |
| `ClaimMoney.RoundsToNearest` | src/eclaim/services/claims.py:155-156 | Conversion rounds to the nearest cent, a tie to the even one |
| `ClaimMoney.RunKeepsMoney` | src/eclaim/services/claims.py:138-163 | Over every run the derived amounts of every line follow from its keyed figures, or are absent on a line fresh from a split |
| `ClaimAfterApproval.ApprovedExpenseIsLocked` | src/eclaim/services/claims.py:946-962 | After approval an edit changes coding and what derives from it on one line, never the expense |
| `ClaimAfterApproval.ApprovedFollowsEdit` | src/eclaim/services/claims.py:132-163 | An edit accepted on a claim approved in whole or part moves the approved total by what it moves the line, and for a line in order exactly when it sets a rate under which that approved line is worth something else |
| `ClaimAfterApproval.LimitPassedIff` | src/eclaim/services/claims.py:946-1040 | Such an edit takes the approved total past a principal limit exactly when the line at the new rate, put back among the others, makes more |
| `ClaimAfterApproval.LimitOutlivedIff` | src/eclaim/services/claims.py:1277-1312 | The limit of whoever approves holds at the approval, and when exactly the next edit passes it |
| `ClaimAfterApproval.DecisionDerives` | src/eclaim/services/claims.py:1277-1390 | Every line of a claim just approved or decided is worth what its keyed figures say |
| `ClaimAfterApproval.StaysDerived` | src/eclaim/services/claims.py:946-1040 | And stays so through any run of changes after it, refused ones included, until the claim is reopened |
| `ClaimAfterApproval.ApprovedAllows` | src/eclaim/services/claims.py:289-1617 | Before its release an approved claim accepts only coding edits, an attestation and reopening; an attestation leaves every line alone |
| `ClaimAfterApproval.ForwardingFollowsEdit` | src/eclaim/services/claims.py:990-1013 | An edit changes whether an approved line forwards exactly when its flag differs from what its category says now |
| `ClaimAfterApproval.RateEditCanPassLimit` | src/eclaim/services/claims.py:946-1040 | From the empty tables: approved at 300 by somebody with a limit of 500, then worth 900 under a corrected rate, still approved by them, and its line no longer forwarding |
| `ClaimLifecycle.ReachableInv` | src/eclaim/services/claims.py:289-1938 | Over every run: claims in order, one forward row set per claim that left, batches anchored once, digests naming only what has left |
| `ClaimLifecycle.ReleaseCommits` | src/eclaim/services/claims.py:1622-1805 | A first release goes through exactly under its gates and writes one batch and the rows, otherwise changes nothing |
| `ClaimLifecycle.ReleaseAgainIsNoOp` | src/eclaim/services/claims.py:1636-1649 | Releasing what has left, also with nothing to forward, answers with its original batch and changes nothing |
| `ClaimLifecycle.ReverseCommits` | src/eclaim/services/claims.py:1807-1938 | A first permitted reversal writes one batch and the mirrored rows |
| `ClaimLifecycle.ReverseAgainIsNoOp` | src/eclaim/services/claims.py:1851-1938 | A second reversal adds nothing: refused with rows, answered with the first batch without |
| `ClaimLedger.ForwardedExactlyOnce` | src/eclaim/services/claims.py:1679-1755 | In every reachable state a line has exactly one forward row, with its own figures, if its claim has left and it is approved and relevant, and none otherwise |
| `ClaimLedger.NoStrayRows` | src/eclaim/services/claims.py:1700-1755 | Every handoff row belongs to a relevant line of a claim that has left |
| `ClaimLedger.RowsNetOut` | src/eclaim/services/claims.py:1893-1917 | Amount, net, tax, base and quantity of a line sum to its own figures once forwarded and to nothing once reversed |
| `ClaimLedger.RunSeals` | src/eclaim/services/claims.py:1622-1938 | No later run changes the lines, rows already written or original batch of a claim that has left |
| `ClaimLedger.ReleasedOnceForAll` | src/eclaim/services/claims.py:1622-1805 | Through any later run a released claim stays attested where it reimburses, keeps its lines, and re-release returns the same batch |
| `ClaimLedger.ReversedForGood` | src/eclaim/services/claims.py:1807-1938 | After a reversal every figure of every line is zero and stays zero through any later run |
| `ClaimEvidence.SplitKeepsEvidence` | src/eclaim/services/claims.py:1199-1275 | A split keeps the page sequence of the claim exactly, one line for each page in order, other lines alone, numbers 1 to n |
| `ClaimEvidence.MergeKeepsEvidence` | src/eclaim/services/claims.py:1138-1197 | A merge keeps every page once, the first selected line holding the selected pages in line order, numbers 1 to n |
| `ClaimEvidence.MergeThenSplit` | src/eclaim/services/claims.py:1096-1275 | On single-page lines, merge then split gives back one line for every page |
| `ClaimEvidence.FlushIsSafeIff` | src/eclaim/services/claims.py:1117-1126 | A flush respects line-number uniqueness in every write order exactly when old and new numbers are each distinct and never cross |
| `ClaimEvidence.MergeRenumberIsSafe` | src/eclaim/services/claims.py:1117-1126 | Both flushes of a renumbering from positive numbers are safe |
| `ClaimEvidence.SplitRenumberIsSafeIff` | src/eclaim/services/claims.py:1226-1262 | After a split they are safe exactly up to 1000 lines or when the split line is the thousandth |
| `ClaimEvidence.RenumberInPlace` | src/eclaim/services/claims.py:1117-1126 | The two-phase renumbering, write by write, ends in 1 to n, and after no write does the table hold a number twice |
| `ClaimService.RecomputeTotals` | src/eclaim/services/claims.py:229-255 | The loops of the roll-up compute the specified totals |
| `ClaimService.DocGrossTotals` | src/eclaim/services/claims.py:2001-2012 | One pass over the lines yields the gross of every document |
| `ClaimService.ApplyDecisions` | src/eclaim/services/claims.py:1345-1356 | The loop over the decisions, in any order, applies all or reports a bad one |
| `ClaimService.MakeRows` | src/eclaim/services/claims.py:1700-1740 | The rows of a release or reversal, each with the gross of its whole document |
| `ClaimService.ClaimService.Capture` | src/eclaim/services/claims.py:289-434 | A new claim with one line for each document, numbered from 1 and attested only if some line is out of pocket; an existing claim is left alone |
| `ClaimService.ClaimService.Approve` | src/eclaim/services/claims.py:1277-1312 | In place: refused without effect, or every line approved, the approver named and the totals rolled up, under exactly the gates of `ClaimApproval.ApproveIsSound` |
| `ClaimService.ClaimService.Decide` | src/eclaim/services/claims.py:1314-1390 | In place: the decisions land in any order or not at all, and the header status is their roll-up (`ClaimApproval.DecideIsSound`, `ClaimApproval.RollUpMeans`) |
| `ClaimService.ClaimService.SendBack` | src/eclaim/services/claims.py:1392-1423 | In place: line decisions cleared and the claim back with its submitter, totals untouched, or refused without effect |
| `ClaimService.ClaimService.Reject` | src/eclaim/services/claims.py:1425-1455 | In place: every line rejected, totals untouched, or refused without effect |
| `ClaimService.ClaimService.Unapprove` | src/eclaim/services/claims.py:1457-1493 | In place: decisions and approver taken back with totals rolled up again, and refused once the claim has left |
| `ClaimService.ClaimService.Merge` | src/eclaim/services/claims.py:1138-1197 | Gathering, folding and renumbering in place give the claim `ClaimEvidence.MergeKeepsEvidence` speaks of; any refusal leaves the tables alone |
| `ClaimService.ClaimService.Split` | src/eclaim/services/claims.py:1199-1275 | Splitting, splicing and renumbering in place give the claim `ClaimEvidence.SplitKeepsEvidence` speaks of; any refusal leaves the tables alone |
| `ClaimService.ClaimService.Release` | src/eclaim/services/claims.py:1622-1805 | Claim, rows and batch are written one by one, and taken back to the savepoint on a clash of batch hash or row key, which answers with the batch of the same content; every early return included; what it commits is `ClaimLifecycle.ReleaseCommits` |
| `ClaimService.ClaimService.Reverse` | src/eclaim/services/claims.py:1807-1938 | The mirrored rows and their batch are written, or taken back to the savepoint on a clash, and the claim stays released; what it commits is `ClaimLifecycle.ReverseCommits` |
| `Coverage.CoverageReport` | src/eclaim/services/coverage.py:92-155 | Two passes over the log yield the report: newest period first, each with exactly its shown documents and their sums, none empty |
| `Coverage.ReportConserves` | src/eclaim/services/coverage.py:115-152 | The full report accounts for every amount and every forward row of the log |
| `Coverage.FilterSelects` | src/eclaim/services/coverage.py:140-143 | A period filter selects from the full report |
| `Coverage.DocumentReversed` | src/eclaim/services/coverage.py:120-137 | Reversal rows of any month take the forwarded amount away and leave month, gross and lines |
| `ClaimCoverage.ReportOfClaim` | src/eclaim/services/coverage.py:109-137 | Every reachable claim appears with each relevant document once, in its release month, capturing the gross of all its lines and forwarding its relevant ones, or nothing once reversed |
| `Ap.RunKeepsInv` | src/eclaim/services/ap.py:241-618 | Over every run: settled bills have an approver distinct from the filer, the last coder and the last submitter, a coder, a line and a category on each; an ERP key only when posted or paid |
| `ApDuties.ApproverIff` | src/eclaim/services/ap.py:452-541 | Over every run from no bills, anybody can approve a bill exactly when they did not file it, were not the last to code it or to submit it, and status, categories, role, grant, limit and matrix allow it |
| `ApDuties.RecordsAre` | src/eclaim/services/ap.py:241-448 | After any run a bill names who filed it, the last who coded it and the last who submitted it, and nobody else |
| `ApDuties.EarlierCoderApproves` | src/eclaim/services/ap.py:275-283 | From no bills: filed by one, coded by another, coded again by a third, and approved by the second |
| `ApDuties.CorrectorApproves` | src/eclaim/services/ap.py:286-347 | From no bills: somebody sets the total of a coded bill and approves it |
| `Ap.KeyIsForGood` | src/eclaim/services/erp.py:124-150 | An ERP key is set at most once |
| `Ap.ApproveIsSound` | src/eclaim/services/ap.py:452-541 | Approval succeeds exactly on a coded or submitted, categorised bill for somebody who prepared none of it, within limit and payables matrix |
| `Ap.PreparersAreRecorded` | src/eclaim/services/ap.py:241-448 | Coding and submitting name their actor; nothing else changes who filed, coded or submitted |
| `Ap.AccountedUnlessKeyless` | src/eclaim/services/ap.py:716-732 | Every settled bill stays exportable or carries its key, up to exactly the step that posts an approved bill without a key |
| `Ap.StrandingIsReachable` | src/eclaim/services/erp.py:124-150 | Filed, coded and approved by three people, then posted without a key: the bill is lost to the export until its payment is recorded |
| `Ap.RunAccounted` | src/eclaim/services/erp.py:124-150 | Over every run whose successful posts carry keys no bill falls out of the pipeline |
| `Ap.RunKeepsNoDoublePay` | src/eclaim/services/ap.py:105-181 | Over every run no two live bills not on hold and never let off one share client, vendor, number and amount |
| `Ap.HeldIffDuplicate` | src/eclaim/services/ap.py:130-181 | A new bill is parked exactly when a live bill matches it; the hold names the earliest |
| `Ap.ApService.CreateInvoice` | src/eclaim/services/ap.py:130-181 | Scans for a live match and adds the bill, parked under its match if there is one; a repeated idempotency key adds nothing |
| `Ap.ApService.EditInvoiceHeader` | src/eclaim/services/ap.py:286-347 | Changes one open bill and parks it if the corrected document matches a live one, or is refused without effect |
| `Ap.ApService.ApproveInvoice` | src/eclaim/services/ap.py:513-541 | Approves one bill under exactly the gates of `Ap.ApproveIsSound`, or is refused without effect |
| `Ap.ApService.ReleaseInvoiceHold` | src/eclaim/services/ap.py:544-560 | Accepts exactly a held bill, leaves it open and off hold, remembers that it was let off, and touches no other bill |
| `Ap.ApService.PayInvoice` | src/eclaim/services/ap.py:563-591 | Accepts exactly an approved or posted bill from somebody other than who filed it, leaves its ERP key alone, and touches no other bill |
| `Ap.ApService.PostInvoice` | src/eclaim/services/erp.py:124-150 | A successful post is accepted exactly for an approved or paid bill without a key; a set key is never overwritten, a paid bill stays paid, a failed post changes nothing, and no other bill is touched |
| `Ap.ApService.ExportableInvoices` | src/eclaim/services/ap.py:716-732 | Exactly the exportable bills of the clients, newest first |
| `BuildClaim.Ingestion.BuildClaim` | src/eclaim/services/ingestion.py:432-667 | Writes trip, claim, lines and held pages as it goes and restores a savepoint for each failed page, line and empty claim and the session for an exception or a job that has its claim: it raises exactly then, leaving all as it was, and otherwise every page has one fate and the outcome is nothing, the diversions, or the diversions and one claim with exactly the added lines |
| `BuildClaim.Ingestion.FileClaim` | src/eclaim/services/ingestion.py:556-645 | The claim in its own savepoint: dropped with its trip when no line was added, taken back when it raises, and in neither case are the diverted pages touched |
| `BuildClaim.OwnRowIff` | src/eclaim/services/intake.py:82-141 | The first capture for a job lists diverted pages exactly when some page belongs in the queue and can be stored, and leaves a row of its own exactly when one of them shows an image no open row had |
| `BuildClaim.BillHeldAlready` | src/eclaim/services/intake.py:85-121 | A bill still open from another job: diverted, no claim, and nothing keyed to this job |
| `BuildClaim.CaptureIsComplete` | src/eclaim/services/ingestion.py:588-646 | Every page and trip that works is on the claim exactly once, nothing else is, numbered 1 to n without gaps |
| `BuildClaim.SortKeeps` | src/eclaim/services/ingestion.py:535-561 | The holding queue keeps one row for each job and page, and its rows |
| `BuildClaim.CaptureTwice` | src/eclaim/services/intake.py:82-120 | The same upload captured twice parks each page once |
| `BuildClaim.Ingestion.RecordIntake` | src/eclaim/services/intake.py:56-169 | Returns an open row of the same image, skips a second row of the job, or adds one; a failure takes it back |
| `ErpImport.ValidateRows` | src/erpsync/ingest/validate.py:58-169 | The loop accepts and reports exactly what each row is by the file and the known keys alone |
| `ErpImport.Screen` | src/erpsync/dedup/crosschannel.py:50-89 | Holds back exactly the lines another channel owns or e-Claim has captured |
| `ErpImport.Store.Commit` | src/erpsync/persistence/store.py:52-68 | Appends exactly the entries whose key is new |
| `ErpImport.RunImport` | src/erpsync/pipeline.py:146-251 | A malformed row refuses the whole file and leaves the store alone; otherwise one outcome for every row in order, and the entries stored, counted and hashed are the accepted ones not held back |
| `ErpImport.ReportIsSorted` | src/erpsync/pipeline.py:194-223 | Sorting validation and mapping outcomes gives exactly one outcome for every row |
| `ErpImport.ReimportCommitsNothing` | src/erpsync/pipeline.py:146-251 | The same rows under the same configuration commit nothing a second time, held-back and repeated lines included |
| `ErpImport.ImportTwice` | src/erpsync/pipeline.py:146-251 | The second import adds nothing, hashes nothing and leaves the store as it was |
| `ErpImport.BuildFailsOnlyOnFactors` | src/erpsync/pipeline.py:78-143 | Mapping an accepted row with finite figures inside the decimal context fails only on a factor the set lacks |
| `ErpImport.BatchHashIsContents` | src/erpsync/release/gate.py:75-80 | For entries with distinct keys equal hashes mean equal contents, both ways |
| `ErpReview.RunKeepsInv` | src/erpsync/release/service.py:55-161 | Over every run a row is released exactly when the ledger has its one entry, reviewers are not last editors, and each batch counts and totals its entries |
| `ErpReview.ReleasedForGood` | src/erpsync/release/service.py:55-161 | A released row and its one ledger entry never change again |
| `ErpReview.ReleaseTwice` | src/erpsync/release/service.py:70-81 | A release with nothing ready is a no-op and writes no empty batch |
| `ErpReview.RestageIsNoOp` | src/erpsync/persistence/pg_staging.py:49-73 | Staging the same lines again inserts and alters nothing, whatever review did meanwhile |
| `ErpWorth.RunKeepsKeyed` | src/erpsync/review/service.py:161-206 | Over every run each row keeps, rounded to its columns, the figures last keyed for it; a re-mapped row is worth the keyed units times the keyed factor whatever was staged, and if what is staged is worth its figures, every row is |
| `ErpWorth.StoredRecomputesIff` | src/eclaim/db/models.py:802-810 | In every state reached by staging imports, a stored row recomputes to its own tonnes exactly when rounding the figures last keyed for it leaves their tonnes as they are |
| `ErpWorth.FittingSurvives` | src/eclaim/db/models.py:802-810 | Units and a factor that fit their columns always do |
| `ErpWorth.StoredRowDrifts` | src/erpsync/review/service.py:186-206 | A re-mapping with an amount of 1.005 at a factor of 1000 stores 1.01 beside 1.005 tonnes |
| `ErpWorth.ImportIsWorth` | src/erpsync/pipeline.py:78-143 | Every line an import hands to staging is worth its units times its factor, the factor being zero where it could not be valued |
| `ErpWorth.BatchTotalIsNear` | src/erpsync/release/service.py:84-88 | The total of a released batch is within half a micro-tonne an entry of the exact worth of the unrounded figures keyed for the rows it released |
| `ErpWorth.ReachedTotalsAreNear` | src/erpsync/release/service.py:84-88 | So for every batch of every state reached by staging imports |
| `ErpReview.EditorApprovesIff` | src/erpsync/review/service.py:82-103 | Over every run, somebody who edited a row can approve it exactly when they are not the last who did and the other gates pass |
| `ErpReview.EarlierEditorApproves` | src/erpsync/review/service.py:161-206 | One person sets an amount, another re-maps by quantity, and the first approves the row with their own amount |
| `ErpReview.RemapAcceptedIff` | src/erpsync/review/service.py:161-184 | When a re-mapping is accepted; the last editor cannot correct a row again |
| `ErpReview.ReviewService.StageLines` | src/erpsync/persistence/pg_staging.py:49-73 | Inserts one row for each new client and line key, first of its kind wins, and no stored row is altered |
| `ErpReview.ReviewService.ApproveRow` | src/erpsync/review/service.py:138-158 | Accepts exactly a reviewable row from a permitted reviewer who is not its last editor, makes it ready for release with its figures unchanged, and touches no other row |
| `ErpReview.ReviewService.DismissRow` | src/erpsync/review/service.py:209-233 | Accepts exactly what an approval would, leaves the row out of reach of review and release, and touches no other row |
| `ErpReview.ReviewService.RemapRow` | src/erpsync/review/service.py:161-206 | Accepts exactly a flagged row with the units its basis needs, leaves it flagged, its figures rounded to their columns and its tonnes those units times the new factor, makes the reviewer its last editor, and touches no other row |
| `ErpReview.ReviewService.ReleaseRows` | src/erpsync/release/service.py:55-161 | Batch, entries and flips are written one by one; a clash of batch hash restores the savepoint and answers with the earlier batch |
| `CanonicalHash.DigestIsContents` | src/core/release.py:26-38 | When the sort key separates the items, equal digests mean equal contents |
| `CanonicalHash.OrderFreeIff` | src/core/release.py:26-38 | The digest is independent of input order exactly when the sort key separates the items |
| `CanonicalHash.DefaultIsOrderFree` | src/core/release.py:26-38 | The default key separates any items |
| `Carbon.QuantiseIsNearest` | src/core/carbon.py:22-24 | The nearest whole number of micro-tonnes, within half of one |
| `Carbon.Tco2eIsNear` | src/core/carbon.py:27-33 | Within half a micro-tonne of the exact value, for figures inside the decimal context |
| `Carbon.Tco2eIsOdd` | src/core/carbon.py:27-33 | The opposite units give the exact opposite |
| `Carbon.Tco2eIsMonotone` | src/core/carbon.py:27-33 | More units never weigh less for a factor that is not negative |
| `Carbon.MatchRule` | src/erpsync/rules/engine.py:26-36 | Finds the first matching rule of the most specific dimension, or none only if none matches |
| `Carbon.ComputeFailsIff` | src/erpsync/emissions/calculator.py:33-61 | With its factors in the set a resolved line cannot be valued exactly when the rule is spend-based and the line has no amount |
| `Carbon.ValuedAs` | src/erpsync/quantity/resolver.py:50-103 | What an accepted line is worth under each data quality |

## Left out

- Web and API routes, templates, sessions, tokens, row-level security, schema migrations.
- OCR, vision and map services, PDF and image decoding, ZIP, YAML, CSV and spreadsheet input: their results are inputs.
- SHA-256 and JSON text: an injective constructor. A document number spelt like the internal key of a line without one is not modelled as colliding with it.
- The timestamp authority, the CarbonNext sink and the ERP connector beyond the result they report.
- Audit events written by the claim, bill and ERP services: the trail is modelled by itself in `AuditChain`.
- Descriptive columns (vendor, dates, titles, purpose, employee, vehicle, unit, notes) that decide nothing.
- Wall-clock time: a logical clock in the queue and the limiter, a month number on handoff rows. Rows written at the same instant are ordered as written.
- The legacy claim header amount of rows older than the line redesign.
- Creating claims from AP bills and bills from intakes: each side is modelled, the hand-over between them is not.
- Delivery-order linking in intake, merchant matching, exchange-rate lookup, date parsing, settings, evidence packs.
- Document order inside a period of the coverage report, and the percentage shown.
- Staging directories and their janitor, progress counts of a job.
- The JSON file behind the import store, and the line snapshot hash of an entry.
- Claim and bill operations that only set header fields or rewrite one line are functions of the specification without a method of their own (adding mileage, attaching a page, confirming, switching, editing, resubmitting, attesting and paying a claim; coding, adding and removing a line, submitting, reopening, switching and rejecting a bill).
- ClaimChanges.ChangeKeeps: the approved totals are stated for decided and released claims only, because sending back and rejecting change line statuses without rolling up.
- Ap.RunKeepsNoDoublePay: bills without a total are outside the statement, because the duplicate search then ignores amounts.
- ErpImport.BuildFailsOnlyOnFactors: figures are `real`, so a cell that is NaN or infinite, or a product past the 28 digits of the decimal context, on which the source raises, is not among its inputs.
- Carbon.Tco2eIsNear: states the rounding to six places, and not the earlier rounding of a product to 28 digits.
- Figures too wide for their numeric columns, on which the database raises.
- Carbon.ComputeFailsIff: assumes both factors a rule names are in the set, because the source raises a key error before valuing otherwise.
