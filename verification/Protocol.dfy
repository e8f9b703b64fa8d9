/**
 The import protocol as a transition system: a consumer-group stream, the job,
 transaction and error tables, and any number of workers, each holding a private
 copy of the job row it loaded.

 One action is one atomic step: a committed database transaction, one stream
 command, or the loss of a worker's attempt. Whatever a worker does between two
 actions touches only its own memory.
 */
module Protocol {
  import opened Common
  import opened Validation
  import opened Ledger

  const MAX_RETRIES := 3

  // ---------- Durable data ----------

  datatype Status = Queued | Processing | Completed | Failed

  // An import_jobs row; `checkpoint` is its last_committed_row.
  datatype JobRow = JobRow(
    status: Status,
    total: Option<nat>,
    processed: nat,
    successful: nat,
    failed: int,
    checkpoint: nat,
    retries: nat
  )

  const NEW_JOB := JobRow(Queued, None, 0, 0, 0, 0, 0)

  datatype JobError = JobError(job: JobId, error: RowError)

  datatype Store = Store(jobs: map<JobId, JobRow>, table: seq<Entry>, errors: seq<JobError>)

  // An uploaded file: whether its header has the required columns, and its rows.
  datatype File = File(columnsOk: bool, rows: seq<RowOutcome>)

  // What never changes: the uploaded files, the configured batch size, and the
  // transactions stored before any of these jobs ran.
  datatype World = World(files: map<JobId, File>, batchSize: int, before: seq<Entry>)

  // A batch is committed as soon as it holds at least `batchSize` rows, and the
  // test runs after each row, so a batch never holds fewer than one.
  function BatchLength(c: World): (b: nat)
    ensures b >= 1
  {
    if c.batchSize < 1 then 1 else c.batchSize
  }

  function BatchEnd(c: World, rows: seq<RowOutcome>, lo: nat): (hi: nat)
    requires lo < |rows|
    ensures lo < hi <= |rows|
  {
    if lo + BatchLength(c) < |rows| then lo + BatchLength(c) else |rows|
  }

  // Column limits: an over-long text or a number outside NUMERIC(18, 2) makes the
  // database refuse the whole statement, conflicting rows included.
  predicate FitsTxn(txn: Txn) {
    && |txn.id| <= 128 && |txn.account| <= 128
    && txn.amount.Finite? && txn.amount.exponent >= -2
    && Cents(txn.amount) < 1_000_000_000_000_000_000
  }

  // The text columns hold 128 characters; the amount column holds sixteen digits before
  // the point and two after it.
  ghost predicate ColumnsHold(txn: Txn) {
    && |txn.id| <= 128 && |txn.account| <= 128
    && txn.amount.Finite? && txn.amount.exponent >= -2 && Value(txn.amount) < 10000000000000000.0
  }

  lemma FitsTxnIff(txn: Txn)
    ensures FitsTxn(txn) <==> ColumnsHold(txn)
  {
    if txn.amount.Finite? && txn.amount.exponent >= -2 {
      CentsAreExact(txn.amount);
    }
  }

  predicate FitsError(e: RowError) {
    (e.id.Some? ==> |e.id.value| <= 128) && |e.error| <= 1024
  }

  predicate FitsBatch(b: Batch) {
    && (forall k :: 0 <= k < |b.valid| ==> FitsTxn(b.valid[k]))
    && (forall k :: 0 <= k < |b.errors| ==> FitsError(b.errors[k]))
  }

  // ---------- Committed writes, each computed from the worker's own copy ----------

  // The object-relational layer sends a column only when the copy's value changed.
  function WriteStatus(stored: JobRow, local: JobRow, status: Status): JobRow {
    if local.status == status then stored else stored.(status := status)
  }

  function SetStatus(d: Store, j: JobId, local: JobRow, status: Status): Store
    requires j in d.jobs
  {
    d.(jobs := d.jobs[j := WriteStatus(d.jobs[j], local, status)])
  }

  function SetCompleted(d: Store, j: JobId, local: JobRow, total: nat): Store
    requires j in d.jobs
  {
    d.(jobs := d.jobs[j := WriteStatus(d.jobs[j], local, Completed).(total := Some(total))])
  }

  // The exception handler of one delivery.
  function SetRequeued(d: Store, j: JobId, local: JobRow): Store
    requires j in d.jobs
  {
    d.(jobs := d.jobs[j := WriteStatus(d.jobs[j], local, Queued).(retries := local.retries + 1)])
  }

  function JobErrors(j: JobId, errors: seq<RowError>): (r: seq<JobError>)
    ensures |r| == |errors|
    ensures forall k :: 0 <= k < |r| ==> r[k] == JobError(j, errors[k])
  {
    seq(|errors|, k requires 0 <= k < |errors| => JobError(j, errors[k]))
  }

  // The worker's copy after a batch: absolute values, not increments on the row.
  function CountBatch(local: JobRow, valid: nat, errors: nat, inserted: nat, upTo: nat): JobRow {
    local.(processed := upTo,
           successful := local.successful + inserted,
           failed := local.failed + errors + (valid - inserted),
           checkpoint := upTo)
  }

  // The copy's columns that the batch transaction writes over the stored row.
  function OverwriteProgress(stored: JobRow, local: JobRow): JobRow {
    stored.(processed := local.processed, successful := local.successful, failed := local.failed,
            checkpoint := local.checkpoint, status := local.status)
  }

  function CopyAfterBatch(d: Store, j: JobId, local: JobRow, valid: seq<Txn>, errors: seq<RowError>, upTo: nat): JobRow {
    CountBatch(local, |valid|, |errors|, |InsertAll(d.table, valid, j)| - |d.table|, upTo)
  }

  function CommitBatch(d: Store, j: JobId, local: JobRow, valid: seq<Txn>, errors: seq<RowError>, upTo: nat): Store
    requires j in d.jobs
  {
    Store(d.jobs[j := OverwriteProgress(d.jobs[j], CopyAfterBatch(d, j, local, valid, errors, upTo))],
          InsertAll(d.table, valid, j),
          d.errors + JobErrors(j, errors))
  }

  // ---------- Workers and history ----------

  // Where a worker stands between two actions.
  datatype Phase =
    | Dropping                                  // no such job: acknowledge and forget
    | Skipping                                  // acknowledge without work, outside the handler
    | Retiring                                  // retry limit reached: about to commit FAILED
    | Starting                                  // about to commit PROCESSING
    | NoColumns                                 // header incomplete: about to commit FAILED
    | Running(start: nat, seen: set<string>)    // in the row loop, at a batch boundary
    | Finished                                  // the run returned: acknowledge, inside the handler

  datatype Worker = Worker(entry: nat, job: JobId, local: JobRow, phase: Phase)

  // History of one job, kept for stating properties; no step reads it.
  datatype History = History(
    completed: bool,     // COMPLETED was committed at some time
    failed: bool,        // FAILED was committed at some time
    reach: nat,          // highest row any batch commit reached
    commits: nat,        // batch commits so far
    starts: seq<nat>,    // per committed row: the checkpoint its attempt started from
    begun: nat,          // deliveries begun
    lost: nat,           // deliveries lost without a counted retry
    stranded: bool       // requeued by a handler whose acknowledgement had taken effect
  )

  const NO_HISTORY := History(false, false, 0, 0, [], 0, 0, false)

  datatype State = State(
    db: Store,
    stream: seq<JobId>,          // entries in the order they were added
    delivered: nat,              // entries handed to the group so far
    pending: set<nat>,           // delivered entries not acknowledged
    workers: map<int, Worker>,   // workers with a delivery in hand
    history: map<JobId, History>
  )

  function Initial(c: World): State {
    State(Store(map[], c.before, []), [], 0, {}, map[], map[])
  }

  // Why a delivery is requeued: a row raised, something else did, or the final
  // acknowledgement took effect and its reply was lost.
  datatype Cause = RowRaised | Unexpected | ReplyLost

  datatype Action =
    | Create(job: JobId)             // the API commits a job row
    | Enqueue(job: JobId)            // XADD
    | Deliver                        // XREADGROUP of one new entry
    | Begin(worker: int, entry: nat) // a delivered or reclaimed entry: load the job, take the early exits
    | Retire(worker: int)
    | Start(worker: int)
    | RejectFile(worker: int)
    | Commit(worker: int)
    | Complete(worker: int)
    | Fail(worker: int, cause: Cause) // a counted exception: requeue
    | Acknowledge(worker: int)       // XACK
    | Crash(worker: int)             // process death or database error: nothing more is written

  // The worker holds a delivery of a job that exists.
  predicate Holds(c: World, s: State, w: int) {
    && w in s.workers
    && s.workers[w].job in c.files
    && s.workers[w].job in s.db.jobs
    && s.workers[w].job in s.history
  }

  function Rows(c: World, s: State, w: int): seq<RowOutcome>
    requires Holds(c, s, w)
  {
    c.files[s.workers[w].job].rows
  }

  // The worker is in the row loop with rows left to read.
  predicate InFile(c: World, s: State, w: int) {
    Holds(c, s, w) && s.workers[w].phase.Running? && s.workers[w].local.checkpoint < |Rows(c, s, w)|
  }

  predicate NextBatchRaises(c: World, s: State, w: int)
    requires InFile(c, s, w)
  {
    var lo := s.workers[w].local.checkpoint;
    !NoneRaises(Rows(c, s, w), lo, BatchEnd(c, Rows(c, s, w), lo))
  }

  function NextBatch(c: World, s: State, w: int): Batch
    requires InFile(c, s, w) && !NextBatchRaises(c, s, w)
  {
    var lo := s.workers[w].local.checkpoint;
    Scan(Rows(c, s, w), lo, BatchEnd(c, Rows(c, s, w), lo), s.workers[w].phase.seen)
  }

  predicate Enabled(c: World, s: State, a: Action) {
    match a
    case Create(j) => j in c.files && j !in s.db.jobs
    case Enqueue(j) => j in s.db.jobs
    case Deliver => s.delivered < |s.stream|
    case Begin(w, e) => w !in s.workers && e < s.delivered <= |s.stream|
                        && (s.stream[e] in s.db.jobs ==> s.stream[e] in s.history)
    case Retire(w) => Holds(c, s, w) && s.workers[w].phase.Retiring?
    case Start(w) => Holds(c, s, w) && s.workers[w].phase.Starting?
    case RejectFile(w) => Holds(c, s, w) && s.workers[w].phase.NoColumns?
    case Commit(w) => InFile(c, s, w) && !NextBatchRaises(c, s, w) && FitsBatch(NextBatch(c, s, w))
    case Complete(w) => Holds(c, s, w) && s.workers[w].phase.Running?
                        && s.workers[w].local.checkpoint >= |Rows(c, s, w)|
    case Fail(w, RowRaised) => InFile(c, s, w) && NextBatchRaises(c, s, w)
    case Fail(w, Unexpected) => Holds(c, s, w)
                                && (s.workers[w].phase.Running? || s.workers[w].phase.NoColumns? || s.workers[w].phase.Finished?)
    case Fail(w, ReplyLost) => Holds(c, s, w) && s.workers[w].phase.Finished?
    case Acknowledge(w) => w in s.workers
                           && (s.workers[w].phase.Dropping? || s.workers[w].phase.Skipping? || s.workers[w].phase.Finished?)
    case Crash(w) => w in s.workers
  }

  // What process_entry decides from the row it loads.
  function FirstPhase(row: JobRow): Phase {
    if row.status == Completed then Skipping
    else if row.retries >= MAX_RETRIES then Retiring
    else Starting
  }

  function Times(n: nat, x: nat): (r: seq<nat>)
    ensures |r| == n && forall k :: 0 <= k < n ==> r[k] == x
  {
    if n == 0 then [] else Times(n - 1, x) + [x]
  }

  function StartsAfter(starts: seq<nat>, start: nat, lo: nat, hi: nat): seq<nat>
    requires lo <= hi
  {
    if |starts| == lo then starts + Times(hi - lo, start) else starts
  }

  function Next(c: World, s: State, a: Action): State
    requires Enabled(c, s, a)
  {
    match a
    case Create(j) =>
      s.(db := s.db.(jobs := s.db.jobs[j := NEW_JOB]), history := s.history[j := NO_HISTORY])
    case Enqueue(j) => s.(stream := s.stream + [j])
    case Deliver => s.(delivered := s.delivered + 1, pending := s.pending + {s.delivered})
    case Begin(w, e) => NextBegin(s, w, e)
    case Retire(w) =>
      var j, local := s.workers[w].job, s.workers[w].local;
      s.(db := SetStatus(s.db, j, local, Failed),
         workers := s.workers[w := s.workers[w].(local := local.(status := Failed), phase := Skipping)],
         history := s.history[j := s.history[j].(failed := true)])
    case Start(w) =>
      var j, local := s.workers[w].job, s.workers[w].local;
      s.(db := SetStatus(s.db, j, local, Processing),
         workers := s.workers[w := s.workers[w].(
                      local := local.(status := Processing),
                      phase := if c.files[j].columnsOk then Running(local.checkpoint, {}) else NoColumns)])
    case RejectFile(w) =>
      var j, local := s.workers[w].job, s.workers[w].local;
      s.(db := SetStatus(s.db, j, local, Failed),
         workers := s.workers[w := s.workers[w].(local := local.(status := Failed), phase := Finished)],
         history := s.history[j := s.history[j].(failed := true)])
    case Commit(w) => NextCommit(c, s, w)
    case Complete(w) =>
      var j, local, n := s.workers[w].job, s.workers[w].local, |Rows(c, s, w)|;
      s.(db := SetCompleted(s.db, j, local, n),
         workers := s.workers[w := s.workers[w].(local := local.(status := Completed, total := Some(n)), phase := Finished)],
         history := s.history[j := s.history[j].(completed := true)])
    case Fail(w, cause) => NextFail(s, w, cause)
    case Acknowledge(w) => s.(pending := s.pending - {s.workers[w].entry}, workers := s.workers - {w})
    case Crash(w) =>
      var j := s.workers[w].job;
      s.(workers := s.workers - {w},
         history := if j in s.history then s.history[j := s.history[j].(lost := s.history[j].lost + 1)] else s.history)
  }

  // The handler's commit. Where the acknowledgement had taken effect the entry is gone
  // as well; nobody can tell before this commit, so the two are one step.
  function NextFail(s: State, w: int, cause: Cause): State
    requires w in s.workers && s.workers[w].job in s.db.jobs && s.workers[w].job in s.history
  {
    var me := s.workers[w];
    var requeued := s.(db := SetRequeued(s.db, me.job, me.local), workers := s.workers - {w});
    if cause.ReplyLost? then
      requeued.(pending := s.pending - {me.entry}, history := s.history[me.job := s.history[me.job].(stranded := true)])
    else requeued
  }

  function NextBegin(s: State, w: int, e: nat): State
    requires e < |s.stream| && (s.stream[e] in s.db.jobs ==> s.stream[e] in s.history)
  {
    var j := s.stream[e];
    if j in s.db.jobs then
      var row := s.db.jobs[j];
      s.(workers := s.workers[w := Worker(e, j, row, FirstPhase(row))],
         history := s.history[j := s.history[j].(begun := s.history[j].begun + 1)])
    else
      s.(workers := s.workers[w := Worker(e, j, NEW_JOB, Dropping)])
  }

  function NextCommit(c: World, s: State, w: int): State
    requires Enabled(c, s, Commit(w))
  {
    var me := s.workers[w];
    var lo := me.local.checkpoint;
    var hi := BatchEnd(c, Rows(c, s, w), lo);
    var b := NextBatch(c, s, w);
    var h := s.history[me.job];
    s.(db := CommitBatch(s.db, me.job, me.local, b.valid, b.errors, hi),
       workers := s.workers[w := me.(local := CopyAfterBatch(s.db, me.job, me.local, b.valid, b.errors, hi),
                                     phase := Running(me.phase.start, b.seen))],
       history := s.history[me.job := h.(reach := if h.reach < hi then hi else h.reach,
                                         commits := h.commits + 1,
                                         starts := StartsAfter(h.starts, me.phase.start, lo, hi))])
  }

  // ---------- Runs ----------

  // Which runs a theorem speaks of.
  datatype Tier = Tier(
    exclusive: bool,    // no delivery begins while another of the same job is in progress
    losses: bool,       // attempts may be lost without a counted retry
    surprises: bool     // counted exceptions other than a raising row may happen
  )

  const ANY_INTERLEAVING := Tier(false, true, true)
  const EXCLUSIVE := Tier(true, true, true)
  // Exclusive delivery where a raising row is the only thing that goes wrong.
  const ONLY_BAD_ROWS := Tier(true, false, false)

  // Exclusive delivery: an entry is begun only while it is pending and nobody is
  // processing it, and a job is enqueued once.
  predicate IsExclusive(s: State, a: Action) {
    match a
    case Begin(_, e) => e in s.pending && forall w :: w in s.workers ==> s.workers[w].entry != e
    case Enqueue(j) => j !in s.stream
    case _ => true
  }

  predicate Allowed(t: Tier, c: World, s: State, a: Action) {
    && Enabled(c, s, a)
    && (t.exclusive ==> IsExclusive(s, a))
    && (!t.losses ==> !a.Crash?)
    && (!t.surprises ==> !(a.Fail? && !a.cause.RowRaised?))
  }

  ghost predicate Run(t: Tier, c: World, s: State, actions: seq<Action>, final: State)
    decreases |actions|
  {
    if actions == [] then s == final
    else Allowed(t, c, s, actions[0]) && Run(t, c, Next(c, s, actions[0]), actions[1..], final)
  }

  ghost predicate Reachable(t: Tier, c: World, s: State) {
    exists actions :: Run(t, c, Initial(c), actions, s)
  }

  // The jobs' own transactions are not in the table yet, and the table obeys its
  // unique constraint.
  predicate WorldOk(c: World) {
    && UniqueIds(c.before)
    && forall k :: 0 <= k < |c.before| ==> c.before[k].job !in c.files
  }

  lemma {:induction false} RunThenStep(t: Tier, c: World, s: State, actions: seq<Action>, mid: State, a: Action)
    requires Run(t, c, s, actions, mid) && Allowed(t, c, mid, a)
    ensures Run(t, c, s, actions + [a], Next(c, mid, a))
    decreases |actions|
  {
    if actions == [] {
      assert Run(t, c, Next(c, s, a), [], Next(c, mid, a));
      assert ([a])[1..] == [];
    } else {
      RunThenStep(t, c, Next(c, s, actions[0]), actions[1..], mid, a);
      assert (actions + [a])[1..] == actions[1..] + [a];
    }
  }
}
