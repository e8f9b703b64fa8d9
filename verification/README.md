# Verified model of the transaction platform

The platform takes CSV uploads of transactions, imports them with background workers
fed by a Redis stream, and serves account summaries behind a cache and a rate limiter.
This project models the parts that have to survive concurrency and crashes, and proves
what they keep.

- **Validation.dfy** - the row validator: decimals as sign, coefficient and exponent,
  the order of its checks, and the amounts on which it raises.
- **Ledger.dfy** - the simple specification: a transactions table under a unique
  constraint, the row-by-row import, and the batch scan that refines it.
- **Protocol.dfy** - the import protocol as a transition system: job, transaction and
  error tables, a consumer-group stream, and any number of workers, each with the
  private copy of the job row it loaded. A step is one committed transaction, one stream
  command, or the loss of an attempt.
- **Safety.dfy**, **Guarantees.dfy** - what holds under any interleaving, double claims
  included: the inductive invariant and the theorems read off it.
- **Exclusive.dfy**, **Accounting.dfy** - what holds in addition when no delivery begins
  while another of the same job is in progress: exact counters, error rows and delivery
  counts.
- **Recovery.dfy**, **Outcomes.dfy** - from every reachable state an entry can be
  settled; exactly when a job can still be COMPLETED, exactly when it can end
  FAILED, and that it is otherwise retried for ever; and the end of a job whose only
  trouble is a raising row.
- **Limits.dfy** - runs that show where the promises of the design documents stop.
- **ImportWorker.dfy**, **Queue.dfy** - the worker and the stream as programs that update
  objects in place: the row loop, the batch transaction, one delivery, the polling loop.
  Each is proved to perform, together with everyone else, a run of the protocol, so the
  theorems above are about it.
- **RateLimiter.dfy** - the sliding-window script on a sorted set, and traces of calls
  from replicas whose clocks disagree.
- **Accounts.dfy** - the account aggregate, exact money, and what imports do to it.
- **SummaryCache.dfy**, **CacheUsers.dfy** - the cache racing with commits and
  invalidations, and its users as programs in that race.
- **Creation.dfy** - the upload loop, requests racing on an idempotency key, and one
  request as a program among them.
- **Platform.dfy** - requests and workers together.
- **Common.dfy** - the option type, the outcomes of one command, the job identifier.

Two tiers of runs appear throughout. *Any interleaving* allows a live worker slower than
the idle limit to be claimed a second time. *Exclusive delivery* excludes that, and a
second entry for one job, which no request makes (`Creation.EnqueueIsCommittedAndSingle`);
crashes, lost commits, exceptions and acknowledgements whose reply is lost it all allows.

The programs share their data with others. Before each of their own steps they call
`ImportWorker.OtherWorkers`, `Creation.OtherRequests` or `CacheUsers.Others`, whose
contract allows any run of anyone else and says nothing more; since a caller knows the
contract alone, what is proved of the programs holds under every such interference.

## Where the code and its documents disagree

The model follows the code.

- The acknowledgement is inside the exception handler's reach
  (app/workers/import_worker.py:96-107). When it fails after COMPLETED was committed, the
  job goes back to QUEUED with a retry counted, and can end FAILED although every row is
  imported: `Limits.ImportedJobCanEndFailed`. Until then COMPLETED is stable:
  `Accounting.CompletedMeansDone`. The handler's comment says that the entry stays
  pending; when the acknowledgement took effect and only its reply was lost, it does not,
  and the imported job says QUEUED for good: `Limits.ImportedJobCanBeStranded`, exactly
  then by `Accounting.AcknowledgedStatusIsFinalIff`.
- ARCHITECTURE.md:145-147 promises that a poison file ends FAILED after three retries.
  A batch the database refuses (a text over its column's length, a number outside
  NUMERIC(18, 2)) makes the handler's own commit fail too, since nothing rolls back, and
  no retry is counted. `Outcomes.FailableIff` gives the exact condition under which a job
  can end FAILED, `Outcomes.CompletableIff` the one under which it can be COMPLETED, and
  `Outcomes.RetriedForever` says that with neither it is retried for ever; of a file
  refused from its start `Limits.RefusedFileIsNeverCharged` says so in every
  interleaving. A raising row that nothing refused precedes does end the job:
  `Outcomes.PoisonRowEndsTheJob`.
- app/redis_utils/queue.py:68-73 says that any call picks up the entries idle for long
  enough. One call looks at no more than ten pending entries for each of the fifty it
  asks for, always from the oldest: `Queue.ConsumerGroup.Scan` says exactly which it finds.
- ARCHITECTURE.md:126-135 calls row-count resume correct in all cases. The duplicate
  filter starts empty on every attempt, so a repeat of a row committed before the crash
  is no longer recorded as an error but inserted and ignored. The counts come out equal
  (`Accounting.ResumedCountersAreExact`), the error rows need not
  (`Accounting.ErrorRowsAreExact`), and a repeat the database cannot store blocks the
  resumed attempt only (`Limits.LateDuplicateBlocksOnlyAResumedAttempt`), which is then
  repeated for ever (`Limits.LateDuplicateLoopsAfterACrash`).
- ARCHITECTURE.md:98-103 and 105-107 speak of delivery to one consumer at a time and of a
  strictly increasing checkpoint. There is no heartbeat, and a worker writes back
  absolute values from its own copy: after a double claim the stored row can go back for
  good (`Limits.DoubleClaimUndoesCompletion`), while the transactions stay right
  (`Guarantees.TableMatchesSequentialImport`).
- FAILED is not final: only COMPLETED is checked on redelivery
  (app/workers/import_worker.py:82).
- The status column is written only when the worker's own copy of it changes, so marking
  PROCESSING from a copy that says PROCESSING already leaves the stored value alone.
- The rate limiter's member is commented as unique per call
  (app/redis_utils/rate_limiter.py:68), but the address of a discarded object can repeat.
  Distinct members are therefore an assumption of `RateLimiter.WindowBound`; what holds
  without it is `RateLimiter.MembersAreLimited`, so that repeated members are all that
  can exceed the limit (`RateLimiter.ExcessIsRepetition`).
- The docstring of app/services/import_service.py:6-7 speaks of a key used before "for
  this client"; a key from the header is not scoped to the client
  (app/services/import_service.py:72).
- A job whose creator fails between the commit and the enqueue is answered to every retry
  and never enqueued: `Creation.AbandonedJobIsNeverEnqueued`.

## Model

| member | source | states |
|---|---|---|
| Validation.AcceptedIff | app/services/validation.py:26-59 | a row is accepted if and only if both names are nonempty, the type is CREDIT or DEBIT, the amount reads as a positive finite number of at most two decimal places, the currency is supported and the timestamp parses; it raises if and only if names and type pass and the amount reads as NaN or positive infinity |
| Validation.AcceptedAsWritten | app/services/validation.py:61-83 | the accepted transaction field by field: stripped names, upper-case type and currency, the amount as read, the instant of the local time at its offset, in UTC when it has none |
| Validation.RejectedForFirstFailure | app/services/validation.py:26-59 | the reason a rejected row is given is that of the first check that fails |
| Validation.FieldIsTrimmed | app/services/validation.py:26-56 | a missing column counts as empty, and a field is what is between the spaces at either end |
| Validation.FinalZIsUtc | app/services/validation.py:78-80 | a final Z is read as the offset of UTC |
| Validation.AcceptedAmountIsExact | app/services/validation.py:38-48 | an accepted amount is finite, positive and a whole number of cents, and equals what the text said: nothing was rounded |
| Validation.NormalisedIsFixedPoint | app/services/validation.py:26-71 | revalidating an accepted row in its normalised form accepts it as the same transaction |
| Validation.CentsAreExact | app/services/validation.py:45-48 | with at most two decimal places, the integer cents and the decimal value denote the same number |
| Ledger.Insert | app/workers/import_worker.py:173-182 | an insert with conflicts ignored adds its id and no other, keeps every stored row and the unique constraint |
| Ledger.ImportCovers | app/workers/import_worker.py:136-182 | importing the rows after a covered prefix leaves every valid id of the longer prefix in the table |
| Ledger.ImportOfCoveredRowsIsNoOp | app/workers/import_worker.py:173-182 | importing rows whose ids are stored already changes nothing |
| Ledger.OverlappingImportResumes | app/workers/import_worker.py:136-182 | a stretch of rows imported over a longer or shorter finished prefix gives the sequential result of the longer one, wherever the stretch starts inside it |
| Ledger.ScanPartitions | app/workers/import_worker.py:131-157 | each row of a batch goes to exactly one list; the filter holds the valid ids read since the attempt started; the error list is exactly the invalid rows and the repeats within the attempt |
| Ledger.ScanRefinesImport | app/workers/import_worker.py:131-182 | filtering repeats in memory and inserting the rest as one statement gives the table that importing row by row gives |
| Ledger.NewEntriesAreGenuine | app/workers/import_worker.py:145-153 | entries an import adds are first valid occurrences of their ids in the file, even when it starts in the middle |
| Ledger.ImportTagsItsGains | app/workers/import_worker.py:152-182 | the rows the statement reports as inserted are exactly the new entries tagged with the job |
| Ledger.RestrictImport | app/workers/import_worker.py:173-182 | an import acts on the ids of its own file as if nothing else were stored, and inserts as many rows |
| Protocol.FitsTxnIff | app/models/transaction.py:26-33 | the database takes a transaction whose texts fit their columns and whose amount is below ten to the sixteenth |
| Safety.BatchKeepsCopyOk | app/workers/import_worker.py:169-211 | after a batch commit by a copy however stale, the table is the row-by-row import of the batch and the copy is consistent with it |
| Safety.StepKeepsSafe | app/workers/import_worker.py:72-211 | every step of every worker keeps the invariant: consistent stored rows and private copies, genuine tagged entries, real error rows, no lost entry |
| Safety.ReachableIsSafe | app/workers/import_worker.py:72-236 | that invariant holds in every reachable state under any interleaving |
| Guarantees.CheckpointsAreSafe | app/workers/import_worker.py:136-139 | any interleaving: every valid row at or below the stored checkpoint, or below any worker's stale copy of it, has its id in the table |
| Guarantees.TaggedTransactionsAreFirstOccurrences | app/workers/import_worker.py:134-153 | any interleaving: a transaction tagged with a job is the validated first valid occurrence of its id in that job's file |
| Guarantees.CountersAddUp | app/workers/import_worker.py:194-210 | any interleaving: processed = successful + failed = checkpoint, which is a multiple of the batch size or the end of the file; successful never exceeds the tagged transactions |
| Guarantees.AcknowledgedEntriesAreSettled | app/workers/import_worker.py:82-98 | any interleaving: every entry is undelivered, pending or acknowledged, and an acknowledged one had its job committed COMPLETED, with all its valid ids stored, or FAILED |
| Guarantees.InvalidRowsAreRecorded | app/workers/import_worker.py:142-192 | any interleaving: every invalid row below the stored checkpoint, or below any worker's stale copy of it, has its error row, and every invalid row of the file has from the first COMPLETED on |
| Guarantees.NoEntryIsDropped | app/workers/import_worker.py:76-80 | the branch that drops an entry for want of a job is never reached |
| Guarantees.RecordedErrorsAreReal | app/workers/import_worker.py:142-150 | any interleaving: every error row is that of an invalid row, with its number, id and reason, or of a repeat of an earlier valid id, which it shows |
| Guarantees.TableMatchesSequentialImport | app/workers/import_worker.py:115-211 | any interleaving, no other job with the same ids: the job's share of the table is always the sequential import of a prefix reaching at least the checkpoint, and the whole of it from the first COMPLETED on, for every batch size |
| Guarantees.BlockedBatchIsRefused | app/workers/import_worker.py:141-160 | a batch that holds a raising or refused row is never committed, by this or any later-started attempt |
| Guarantees.NoJobPassesABlockingRow | app/workers/import_worker.py:136-160 | any interleaving: no commit passes the batch boundary below such a row and the job is never COMPLETED |
| Exclusive.StepKeepsExact | app/workers/import_worker.py:72-211 | under exclusive delivery every step, an acknowledgement that takes effect and then raises included, keeps the exact accounting: counters, error rows by attempt, and each delivery begun lost, counted, in progress or acknowledged |
| Exclusive.ReachableIsExact | app/workers/import_worker.py:72-236 | that accounting holds in every state reachable under exclusive delivery |
| Accounting.ResumedCountersAreExact | app/workers/import_worker.py:136-197 | after any crashes and redeliveries the counters and the table are those of an uninterrupted import stopped at the same row; the batch size does not enter |
| Accounting.CompletedCountsDoNotDependOnTheRun | app/workers/import_worker.py:162-197 | two completed imports of one file agree on every count and on the stored transactions, whatever happened to either and whatever their batch sizes |
| Accounting.SuccessfulRowsAreTheTaggedTransactions | app/workers/import_worker.py:182-195 | under exclusive delivery successful_rows is the number of transactions tagged with the job, other jobs' ids or not |
| Accounting.CompletedBatchCount | app/workers/import_worker.py:155-160 | a completed import of n rows took exactly ceil(n / B) batch commits over all attempts |
| Accounting.ErrorRowsAreExact | app/workers/import_worker.py:134-153 | row i has an error row iff it is invalid or repeats a valid id read earlier in the same attempt; no row has two; they are in file order |
| Accounting.ErrorRowsOfAnUninterruptedImport | app/workers/import_worker.py:134-192 | the error rows are among those of the uninterrupted import, and are all of them when one delivery sufficed |
| Accounting.DeliveriesAreBounded | app/workers/import_worker.py:82-107 | with k deliveries lost, at most k + 4 are begun, and when that many have ended the entry is acknowledged with the job COMPLETED or FAILED |
| Accounting.AcknowledgedStatusIsFinalIff | app/workers/import_worker.py:96-107 | an acknowledged job had COMPLETED or FAILED committed, and its stored status is still one of them if and only if no acknowledgement of it took effect and then raised; otherwise it is QUEUED |
| Accounting.AcknowledgedRowsStay | app/workers/import_worker.py:96-107 | once the entry is acknowledged no run of exclusive delivery writes the job's row again, so a stranded job stays QUEUED |
| Accounting.ImportingDeliveriesHaveRetriesLeft | app/workers/import_worker.py:87-97 | a delivery that imports is one of the first k + 3 |
| Accounting.CheckpointsOnlyGrow | ARCHITECTURE.md:105-107 | under exclusive delivery no step takes checkpoint or successful_rows back |
| Accounting.CompletedMeansDone | app/workers/import_worker.py:82-107 | after COMPLETED no batch is committed for the job, and a stored COMPLETED changes exactly when the final acknowledgement raises |
| Outcomes.PoisonRowEndsTheJob | ARCHITECTURE.md:145-147 | when a raising row is all that goes wrong: no run has more than 4(n + 5) steps on the job; until its entry is acknowledged one more is allowed, if the database accepts what precedes that row's batch; and then it is FAILED at the batch boundary below the row with exactly that prefix imported |
| Recovery.OneDelivery | app/workers/import_worker.py:72-107 | from any state of the invariant one undisturbed delivery settles a pending entry, or requeues it because a row raises |
| Recovery.EveryEntryCanBeSettled | ARCHITECTURE.md:114-122 | from every reachable state, whatever other workers hold, one idle worker can settle any pending entry of a storable file, COMPLETED if no row raises and retries are left |
| Outcomes.CompletableIff | app/workers/import_worker.py:134-160 | under exclusive delivery a job between deliveries can still be completed if and only if its header is complete and no row after its checkpoint blocks an attempt that starts there |
| Outcomes.FailableIff | ARCHITECTURE.md:145-147 | with only raising rows counted and attempts lost at any time, a job between deliveries and not COMPLETED can end FAILED and acknowledged if and only if its retries are used up, its header is incomplete, or a row after its checkpoint raises and nothing before that row's batch is refused |
| Outcomes.FailingNeedsFailable | app/workers/import_worker.py:87-107 | nor is FAILED even stored, acknowledged or not, unless that condition held |
| Outcomes.RetriedForever | app/workers/import_worker.py:99-107 | a job for which neither condition holds is redelivered for ever: in every such run its entry stays pending, no retry is recorded, and neither COMPLETED nor FAILED is stored |
| Outcomes.OneOutcome | app/workers/import_worker.py:82-160 | with retries left, a file that can be completed from a checkpoint cannot end FAILED from it |
| Limits.LateDuplicateBlocksOnlyAResumedAttempt | app/workers/import_worker.py:134-150 | a two-row file that can be imported from the start and not from its first checkpoint: the resumed attempt has forgotten the id |
| Limits.LateDuplicateLoopsAfterACrash | app/workers/import_worker.py:134-160 | that file, one crash later, is such a job: a run from the empty system leads to it |
| Limits.RefusedFileIsNeverCharged | app/workers/import_worker.py:99-107 | a row refused from the start of its file: the same in every interleaving, double claims included |
| Limits.ImportedJobCanEndFailed | app/workers/import_worker.py:96-107 | acknowledgement errors alone take a fully imported job to FAILED, its entry acknowledged |
| Limits.ImportedJobCanBeStranded | app/workers/import_worker.py:96-107 | one lost reply to the acknowledgement leaves a fully imported job QUEUED with its entry gone |
| Limits.DoubleClaimUndoesCompletion | app/workers/import_worker.py:194-210 | without exclusive delivery every importable file has a run that leaves a COMPLETED job PROCESSING for good, at its first batch, with successful_rows 0 |
| ImportWorker.Database.InsertBatch | app/workers/import_worker.py:173-192 | both statements of a batch take effect or neither does, and the first reports the rows it inserted |
| ImportWorker.Database.SaveStatus | app/workers/import_worker.py:118-119 | the status column is written only when the object's own copy of it changes |
| ImportWorker.Database.SaveRequeued | app/workers/import_worker.py:101-103 | the stored retry count becomes the copy's plus one, the status QUEUED |
| ImportWorker.CommitBatch | app/workers/import_worker.py:169-214 | a batch is committed iff the database accepts all of it; then table, error rows, job row and copy are those of the protocol's commit and the reachable accounts' cache entries are gone; otherwise nothing changed |
| Validation.ClassifiedAs | app/workers/import_worker.py:141-153 | an accepted row is valid as its transaction, one that raises raises, and a rejected one is recorded with its reason and its stripped id, if it has one |
| ImportWorker.ReadRow | app/workers/import_worker.py:141-153 | a row read in the loop extends the lists and the filter as one step of the scan does, or raises |
| ImportWorker.LoopStateReads | app/workers/import_worker.py:136-153 | the loop invariant is kept by reading a row; a raising row is where the protocol's counted failure is enabled |
| ImportWorker.HarmlessIsAcknowledged | app/workers/import_worker.py:72-98 | what a delivery owes means that an undisturbed one of a file without raising or refused rows is acknowledged, whatever row it loads |
| ImportWorker.OthersLeaveOneAlone | app/workers/import_worker.py:72-107 | whatever the others do, a worker keeps its copy and its place, the stream only grows, and an entry that left the pending list stays out |
| ImportWorker.CommitAndGoOn | app/workers/import_worker.py:155-160 | in whatever state the others left the data, a full or last batch commits exactly what the protocol commits there; the attempt is lost iff the database refuses the batch |
| ImportWorker.ImportRows | app/workers/import_worker.py:131-165 | the row loop and everyone else perform a run of the protocol under every fault; returning means COMPLETED with its total and every valid id stored; a process that lives is lost only to a refusing database, and nothing raises but reading or a row |
| ImportWorker.RunImport | app/workers/import_worker.py:115-166 | the whole attempt likewise, with one commit at most per row, one at the start and one at the end; an incomplete header ends in FAILED |
| ImportWorker.CountFailure | app/workers/import_worker.py:99-107 | unless the process dies first, the stored retry count becomes the copy's plus one and the status QUEUED |
| ImportWorker.CountLostReply | app/workers/import_worker.py:98-107 | where the acknowledgement had taken effect the handler does the same to a job whose entry is gone: the protocol's stranding step |
| ImportWorker.AcknowledgeImported | app/workers/import_worker.py:96-107 | the three outcomes of the acknowledgement: returned, counted with the entry pending, counted with the entry gone |
| ImportWorker.ProcessEntry | app/workers/import_worker.py:72-107 | one delivery, interleaved with everyone else, continues the run; undisturbed it is acknowledged, with COMPLETED on record for an importable file and FAILED for an incomplete header or used-up retries; while process and database hold, an import is acknowledged or counted, and both when only the reply to its acknowledgement is lost |
| ImportWorker.ProcessAll | app/workers/import_worker.py:225-230 | a list of deliveries likewise; without an exception none of its entries is pending at the end, and harmless deliveries raise none |
| ImportWorker.ReclaimStale | app/workers/import_worker.py:224 | exactly the entries a reclaim of 50 finds become this worker's; a claim younger than the limit stays, and of a pending list no longer than that none older does |
| ImportWorker.ReadOne | app/workers/import_worker.py:228 | the next undelivered entry, if there is one, becomes pending for this consumer: the protocol's delivery step |
| ImportWorker.WorkerRound | app/workers/import_worker.py:222-233 | one round: exactly the stale entries within reach of the pending list it starts from are found; short of an exception each of them, and then the next entry there is, leaves the pending list with an outcome on record; a round that hears from the server and whose files and deliveries are harmless has no exception |
| ImportWorker.WorkerLoop | app/workers/import_worker.py:217-233 | any number of rounds, interleaved with everyone else, is a run of the protocol from a reachable to a reachable state; every round does what its report says; n smooth rounds leave at least n more entries delivered, or all |
| Queue.ConsumerGroup.Enqueue | app/redis_utils/queue.py:50-53 | an entry is added at the end; every entry stays in exactly one of undelivered, pending, acknowledged |
| Queue.ConsumerGroup.ReadNew | app/redis_utils/queue.py:56-65 | the next entries in order, each never delivered before, become this consumer's; no other claim changes |
| Queue.ConsumerGroup.Scan | app/redis_utils/queue.py:68-84 | an entry is found if and only if it is stale, fewer than `count` stale ones are older and fewer than ten times `count` pending ones are |
| Queue.ConsumerGroup.Reclaim | app/redis_utils/queue.py:68-84 | exactly the entries found change hands, with idle time reset, among them none idle for less than asked; none enters or leaves the pending list, and no other claim changes |
| Queue.ConsumerGroup.Ack | app/redis_utils/queue.py:87-89 | exactly this entry leaves the pending list, and is acknowledged if it was there |
| RateLimiter.Bucket.First | app/redis_utils/rate_limiter.py:40 | the smallest score of the sorted set, none iff it is empty |
| RateLimiter.Bucket.Check | app/redis_utils/rate_limiter.py:29-51 | the in-place script computes the decision, count, advice and next window of the specification, expiry included |
| RateLimiter.Bucket.CheckOrFailOpen | app/redis_utils/rate_limiter.py:69-76 | without a reply the request is admitted; the window is that of the script if the call got through and unchanged if it did not |
| RateLimiter.WindowBound | app/redis_utils/rate_limiter.py:36-50 | distinct members, clocks within d of each other: over every trace at most `limit` requests get the reply that they are allowed in any stretch of window - d; d = 0 is the full window |
| RateLimiter.MembersAreLimited | app/redis_utils/rate_limiter.py:36-50 | one clock, nothing assumed of members: no whole window has admissions under more than `limit` members |
| RateLimiter.ExcessIsRepetition | app/redis_utils/rate_limiter.py:67-68 | so a window with more than `limit` admissions has two under one member |
| RateLimiter.BoundedOffsetsAreWithin | app/redis_utils/rate_limiter.py:67 | replicas whose clock offsets differ pairwise by at most d satisfy that assumption |
| RateLimiter.SharedMemberIsNeverLimited | app/redis_utils/rate_limiter.py:68 | requests recorded under one member are never rejected once the limit is two or more: the bound needs distinct members |
| RateLimiter.WindowRefinesLog | app/redis_utils/rate_limiter.py:36-39 | one clock: the sorted set holds exactly the admissions of the last window, and the decision is the one the full admission log gives |
| RateLimiter.ReplyIsExact | app/redis_utils/rate_limiter.py:37-50 | one clock: the reply allows if and only if fewer than `limit` requests were admitted in the last 60 seconds, and its count is their number, this one included if allowed |
| RateLimiter.NoLimitNoAdmission | app/redis_utils/rate_limiter.py:39-45 | a limit that is not positive admits nothing and always advises of a whole window |
| RateLimiter.ExpiryFollowsLastAdmission | app/redis_utils/rate_limiter.py:48-49 | the key expires a window after the last admission by the server's clock, rejections notwithstanding |
| RateLimiter.ExpiryChangesNothing | app/redis_utils/rate_limiter.py:48-49 | the key's expiry never drops a record the trim would have kept |
| RateLimiter.TooEarlyIsRejected | app/redis_utils/rate_limiter.py:39-46 | after a rejection every check before the advised time is rejected, whatever came between |
| RateLimiter.RetryAdviceIsExact | app/redis_utils/rate_limiter.py:39-46 | the advice is positive and at most a window, and the first check after it is admitted if and only if it is not before the advised time |
| Accounts.AggregateAppends | app/services/account_service.py:19-29 | the sums and the count of an extended table are those of the table plus those of the extension |
| Accounts.AggregateOfPermutation | app/services/account_service.py:19-29 | the aggregate does not depend on the order of the rows |
| Accounts.EquallyFarSameSummaries | app/services/account_service.py:19-39 | two executions of the same jobs, no two with common ids, that got equally far with each give every account the same summary, whatever the interleavings, crashes, double claims and batch sizes |
| Accounts.CompletedAlikeSameSummaries | app/services/account_service.py:19-39 | in particular two that completed the same jobs |
| Accounts.SummaryIsExact | app/services/account_service.py:19-39 | total credits, total debits and balance are the exact real sums over the account's rows of each type, and the count is that of its rows |
| Accounts.ReachableSummariesAreExact | app/services/account_service.py:19-39 | in every reachable state of every interleaving over validated files that holds of every account |
| Accounts.StepsAddOnlyNewTransactions | app/workers/import_worker.py:173-182 | any step of any interleaving changes an account by exactly the contributions of the transactions it inserted, each new; only a batch commit inserts |
| Accounts.ReimportMovesNoMoney | app/workers/import_worker.py:173-182 | once one import of the rows was COMPLETED, no batch of another import of them inserts anything |
| Accounts.OnlyBatchAccountsChange | app/workers/import_worker.py:183 | a batch changes the aggregate of no account outside those of its valid rows |
| SummaryCache.Cache.InvalidateAll | app/workers/import_worker.py:213-214 | the loop deletes exactly the reachable accounts' entries |
| CacheUsers.GetAccountSummary | app/services/account_service.py:10-42 | a read with everyone else between its get, query and set performs a play of the cache race; it answers with the entry if and only if that is live and the cache can be read, else with the aggregate of a state the play passed through, and then leaves it cached for the TTL if the cache can be written |
| CacheUsers.AnswersArePastAggregates | app/redis_utils/cache.py:7-25 | such an answer is the exact summary of a past state of the table; when it is not of the present one it was cached, for one of the three reasons, and is younger than the TTL plus its reader's gap |
| CacheUsers.CommitBatch | app/workers/import_worker.py:169-214 | a batch commit with everyone else between the commit and each invalidation performs a play of every account's race: the table is extended and the invalidation owed was made or lost, or the process died first |
| SummaryCache.BatchInvalidatesWhatItChanges | app/workers/import_worker.py:183-214 | every account whose aggregate a batch changed is among those it invalidates |
| SummaryCache.EntriesArePastAggregates | app/redis_utils/cache.py:7-16 | over every interleaving of commits, invalidations, queries and sets, a stored entry is the aggregate of a past state of the table, a prefix of the present one; it differs from the present aggregate only if an invalidation is pending, was lost, or ran while the reader was between query and set |
| SummaryCache.LiveEntriesAreYoung | app/redis_utils/cache.py:7-10 | a live entry is younger than the TTL plus its reader's gap from query to set |
| SummaryCache.SlowReaderLeavesStaleEntry | app/services/account_service.py:29-41 | the third reason is real for every batch that changes the account: a stale entry with no invalidation pending or lost |
| SummaryCache.RunsCommit | app/workers/import_worker.py:169-211 | whatever a run of the import protocol does to the table, commits of the race do |
| Creation.Disk.Store | app/services/import_service.py:52-70 | chunk by chunk, a file survives exactly when its content is neither empty nor over the limit, and holds that content |
| Creation.OneJobPerKey | app/services/import_service.py:72-100 | over all interleavings of requests, every response to a key names the one job committed under it |
| Creation.RetriesAreAnsweredAlike | app/services/import_service.py:72-100 | over all interleavings: two requests with headers are answered with one job if and only if the headers are equal, two without if and only if content digest and client are, and one of each only if the header spells the other's content key |
| Creation.LoserFindsTheWinner | app/services/import_service.py:93-100 | the select after a conflict always finds a row |
| Creation.EnqueueIsCommittedAndSingle | app/services/import_service.py:91-105 | a job is enqueued only after its row is committed, at most once, with its file stored |
| Creation.AnsweredCreatorHasEnqueued | app/services/import_service.py:102-107 | an answered creator has enqueued its job exactly once |
| Creation.AbandonedJobIsNeverEnqueued | app/services/import_service.py:92-105 | a job whose creator died between commit and enqueue is never enqueued by anyone, however often the request is retried |
| Creation.FilesAreTheCommittedOnes | app/services/import_service.py:76-100 | every committed job's file is kept, crashes included; with every request answered no other file is left |
| Platform.RequestsFeedTheProtocol | app/services/import_service.py:90-105 | a request's step is a step of the import protocol that every tier allows, or none: an insert creates a new job, an enqueue is of a committed job not in the stream |
| Platform.PlatformReachesOnlyProtocolStates | app/services/import_service.py:90-105 | every execution of requests and workers together is, for the import, a run of the protocol |
| Platform.NoExecutionDropsAnEntry | app/workers/import_worker.py:76-80 | so in no execution is an entry without a committed job delivered, held or enqueued |
| Creation.OthersLeaveRequestAlone | app/services/import_service.py:72-107 | whatever other requests do, a request keeps its key, its job id and its place |
| Creation.AnswerWinner | app/services/import_service.py:93-100 | the loser of a race discards its file and answers with another request's job, committed under its key, whatever happens in between |
| Creation.CreateImport | app/services/import_service.py:37-107 | one request as a program, interleaved with any others, performs a run of the racing requests; accepted, it names the job committed under its nonempty header, else under the key spelled from content digest and client, and leaves its file, with the content uploaded, and an entry exactly when that job is its own; refused, it gives the reason and leaves nothing; after a server error the entry is there if and only if the enqueue took effect and its reply was lost |

## Left out

- HTTP routing, schemas, authentication, logging, health checks, metrics, deployment and migrations: no property beyond plumbing.
- Transaction listing and pagination: a slice of a query whose order is undetermined on ties.
- The Retry-After header: the millisecond advice is modelled, its rounding is one line of arithmetic.
- CSV tokenising and text encoding: a file is a header and a fixed sequence of rows; that reading may raise at any row is a fault of the worker program.
- Decimal parsing, ISO 8601 parsing, Unicode case and space tables and SHA-256: parameters. NormalisedIsFixedPoint assumes of the tables only that the upper-case ASCII letters are letters, not spaces, and their own upper case.
- started_at, completed_at, error_message and created_at: no branch of the worker depends on them, apart from started_at being set once.
- Database refusals other than column length and numeric range, such as a NUL character or a statement with too many parameters: each is an attempt lost without a counted retry. The safety and accounting theorems allow one at any time; those about what can complete take length and range as the only objections.
- The protocol's steps are atomic because one database transaction, one stream command and one script are; PostgreSQL, Redis, SQLAlchemy and asyncio are not modelled beyond that.
- XAUTOCLAIM's cursor, which the source discards, consumer-group creation, stream trimming, entries deleted from the stream and the flattening of replies.
- Scheduling of worker_loop: a round's clock readings, the fate of its two calls and its faults are inputs; the pauses between rounds and how long a delivery takes are not.
- ImportWorker.ImportRows: a process death and a database refusal end an attempt alike, so the program may go on to its next round where the process would be gone.
- Accounting.CheckpointsOnlyGrow: holds under exclusive delivery only; without it the stored checkpoint and status can go back.
- Guarantees.TableMatchesSequentialImport: asks that no other job brings the same ids; where jobs share ids, who stores one first depends on the interleaving, and CheckpointsAreSafe and TaggedTransactionsAreFirstOccurrences are what remains.
- Recovery.EveryEntryCanBeSettled: says that a settling run exists from every state, not that every fair schedule takes it; the fairness of the group is not modelled.
- Outcomes.FailableIff: takes raising rows as the only counted exceptions; others are counted at any time in the theorems of the accounting, and could end any job FAILED.
- Outcomes.PoisonRowEndsTheJob: that a step is allowed as long as the entry is not acknowledged, and that there are boundedly many, is what is shown; that a schedule takes it is not.
- RateLimiter.WindowRefinesLog: for one clock that counts from the epoch; under skew WindowBound is what holds.
- SummaryCache.EntriesArePastAggregates: one account's entry at a time, with expiry as a bound on age rather than as a removal.
- Creation.CreateImport: storing the file and entering the race are one step; only from then on do others interleave.
- Enqueue of every created job: not promised, see above; only enqueued jobs are shown never to be lost.
- The 128-character limit on the idempotency key, and the deletion of clients or jobs.
- JSON serialisation of cached summaries.
