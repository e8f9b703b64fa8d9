/**
 The worker as a program: the row loop, the batch transaction, the handling of one
 delivery and the polling loop, updating the database, the cache and the stream in place.
 Each method is proved to perform, together with everyone else, a run of the import
 protocol, whatever faults befall it.
 */
module ImportWorker {
  import opened Common
  import opened Validation
  import opened Ledger
  import opened Protocol
  import opened Safety
  import Outcomes
  import Recovery
  import Accounts
  import Guarantees
  import SummaryCache
  import Queue

  // ---------- The database and the job object ----------

  // A worker's own copy of a job row, with the columns it writes back.
  class ImportJob {
    const id: JobId
    var status: Status
    var total: Option<nat>
    var processed: nat
    var successful: nat
    var failed: int
    var checkpoint: nat
    var retries: nat

    function Row(): JobRow
      reads this
    {
      JobRow(status, total, processed, successful, failed, checkpoint, retries)
    }

    // Absolute values for the batch transaction: the counters of this copy, moved on.
    method Count(valid: nat, errors: nat, inserted: nat, upTo: nat)
      modifies this
      ensures Row() == CountBatch(old(Row()), valid, errors, inserted, upTo)
    {
      processed := upTo;
      successful := successful + inserted;
      failed := failed + errors + (valid - inserted);
      checkpoint := upTo;
    }

    constructor (id: JobId, row: JobRow)
      ensures this.id == id && Row() == row
    {
      this.id := id;
      status, total, processed := row.status, row.total, row.processed;
      successful, failed, checkpoint, retries := row.successful, row.failed, row.checkpoint, row.retries;
    }
  }

  class Database {
    var jobs: map<JobId, JobRow>
    var table: seq<Entry>
    var errors: seq<JobError>

    function Value(): Store
      reads this
    {
      Store(jobs, table, errors)
    }

    constructor (before: seq<Entry>)
      ensures Value() == Store(map[], before, [])
    {
      jobs, table, errors := map[], before, [];
    }

    // One multi-row INSERT ... ON CONFLICT DO NOTHING; the database may refuse it.
    method InsertTransactions(txns: seq<Txn>, job: JobId) returns (accepted: bool, inserted: nat)
      modifies this`table
      ensures accepted <==> forall k :: 0 <= k < |txns| ==> FitsTxn(txns[k])
      ensures table == if accepted then InsertAll(old(table), txns, job) else old(table)
      ensures inserted == |table| - |old(table)|
    {
      accepted := forall k :: 0 <= k < |txns| ==> FitsTxn(txns[k]);
      inserted := 0;
      if accepted {
        var before := |table|;
        table := InsertAll(table, txns, job);
        inserted := |table| - before;
      }
    }

    method InsertErrors(job: JobId, rows: seq<RowError>) returns (accepted: bool)
      modifies this`errors
      ensures accepted <==> forall k :: 0 <= k < |rows| ==> FitsError(rows[k])
      ensures errors == if accepted then old(errors) + JobErrors(job, rows) else old(errors)
    {
      accepted := forall k :: 0 <= k < |rows| ==> FitsError(rows[k]);
      if accepted {
        errors := errors + JobErrors(job, rows);
      }
    }

    // The statements of a batch transaction, each left out for an empty list. A refusal
    // aborts the transaction: neither statement has any effect.
    method InsertBatch(job: JobId, valid: seq<Txn>, rows: seq<RowError>) returns (accepted: bool, inserted: nat)
      modifies this`table, this`errors
      ensures accepted <==> FitsBatch(Batch(valid, rows, {}))
      ensures table == if accepted then InsertAll(old(table), valid, job) else old(table)
      ensures errors == if accepted then old(errors) + JobErrors(job, rows) else old(errors)
      ensures inserted == |table| - |old(table)|
    {
      var before := table;
      accepted, inserted := true, 0;
      if valid != [] {
        accepted, inserted := InsertTransactions(valid, job);
      }
      if accepted && rows != [] {
        accepted := InsertErrors(job, rows);
        if !accepted {
          table, inserted := before, 0;
        }
      }
    }

    method SaveProgress(job: ImportJob)
      requires job.id in jobs
      modifies this`jobs
      ensures jobs == old(jobs)[job.id := OverwriteProgress(old(jobs)[job.id], job.Row())]
    {
      jobs := jobs[job.id := OverwriteProgress(jobs[job.id], job.Row())];
    }

    // Set the copy's status and commit: the column is written when the copy changed.
    method SaveStatus(job: ImportJob, status: Status)
      requires job.id in jobs
      modifies this`jobs, job
      ensures Value() == SetStatus(old(Value()), job.id, old(job.Row()), status)
      ensures jobs == old(jobs) || jobs == old(jobs)[job.id := old(jobs)[job.id].(status := status)]
      ensures jobs[job.id].status == if old(job.status) == status then old(jobs)[job.id].status else status
      ensures job.Row() == old(job.Row()).(status := status)
    {
      if job.status != status {
        job.status := status;
        jobs := jobs[job.id := jobs[job.id].(status := status)];
      }
      assert jobs == old(SetStatus(Value(), job.id, job.Row(), status)).jobs;
    }

    method SaveCompleted(job: ImportJob, total: nat)
      requires job.id in jobs
      modifies this`jobs, job
      ensures Value() == SetCompleted(old(Value()), job.id, old(job.Row()), total)
      ensures jobs[job.id].total == Some(total)
      ensures jobs[job.id].status == if old(job.status) == Completed then old(jobs)[job.id].status else Completed
      ensures job.Row() == old(job.Row()).(status := Completed, total := Some(total))
    {
      job.total := Some(total);
      jobs := jobs[job.id := jobs[job.id].(total := Some(total))];
      if job.status != Completed {
        job.status := Completed;
        jobs := jobs[job.id := jobs[job.id].(status := Completed)];
      }
      assert jobs == old(SetCompleted(Value(), job.id, job.Row(), total)).jobs;
    }

    method SaveRequeued(job: ImportJob)
      requires job.id in jobs
      modifies this`jobs, job
      ensures Value() == SetRequeued(old(Value()), job.id, old(job.Row()))
      ensures jobs[job.id].retries == old(job.retries) + 1
      ensures jobs[job.id].status == if old(job.status) == Queued then old(jobs)[job.id].status else Queued
    {
      job.retries := job.retries + 1;
      jobs := jobs[job.id := jobs[job.id].(retries := job.retries)];
      if job.status != Queued {
        job.status := Queued;
        jobs := jobs[job.id := jobs[job.id].(status := Queued)];
      }
      assert jobs == old(SetRequeued(Value(), job.id, job.Row())).jobs;
    }
  }

  // How a batch transaction, or a whole import, ends.
  datatype End =
    | Returned             // to the caller
    | Raised(byRow: bool)  // with an exception that the handler counts
    | Lost                 // the process died, or the database refused, after which the
                           // handler's own commit fails as well

  function CauseOf(end: End): Cause
    requires end.Raised?
  {
    if end.byRow then RowRaised else Unexpected
  }

  // What the environment does to one delivery.
  datatype Faults = Faults(
    steps: nat,            // commits and acknowledgements the process lives to make
    opens: bool,           // the stored file can be opened
    readable: nat,         // data rows that can be read before reading raises
    reply: Sending,        // what becomes of the acknowledgement
    unreached: set<string> // accounts whose cache invalidation fails
  )

  // ---------- One batch ----------

  // The counters after a batch that inserted some of its valid rows: the copy's, moved on,
  // and stored as they are.
  predicate CountedBatch(before: JobRow, row: JobRow, stored: JobRow, valid: nat, errors: nat, inserted: int, upTo: nat) {
    && row.processed == row.checkpoint == upTo && row.successful == before.successful + inserted
    && row.failed == before.failed + errors + valid - inserted
    && row.status == before.status && row.retries == before.retries && row.total == before.total
    && stored.processed == row.processed && stored.checkpoint == row.checkpoint && stored.successful == row.successful
    && stored.failed == row.failed && stored.status == row.status
  }

  // The transaction of _commit_batch: all of it is committed, or none of it is.
  method CommitTransaction(db: Database, job: ImportJob, valid: seq<Txn>, errors: seq<RowError>, upTo: nat)
    returns (committed: bool)
    requires job.id in db.jobs
    modifies db, job
    ensures committed <==> FitsBatch(Batch(valid, errors, {}))
    ensures committed ==>
              && db.Value() == Protocol.CommitBatch(old(db.Value()), job.id, old(job.Row()), valid, errors, upTo)
              && job.Row() == CopyAfterBatch(old(db.Value()), job.id, old(job.Row()), valid, errors, upTo)
              && CountedBatch(old(job.Row()), job.Row(), db.jobs[job.id], |valid|, |errors|, |db.table| - |old(db.table)|, upTo)
    ensures !committed ==> db.Value() == old(db.Value()) && job.Row() == old(job.Row())
  {
    var inserted;
    committed, inserted := db.InsertBatch(job.id, valid, errors);
    if committed {
      job.Count(|valid|, |errors|, inserted, upTo);
      db.SaveProgress(job);
    }
  }

  // _commit_batch: after the commit the cache is told.
  method CommitBatch(db: Database, cache: SummaryCache.Cache, job: ImportJob,
                     valid: seq<Txn>, errors: seq<RowError>, upTo: nat, unreached: set<string>)
    returns (committed: bool)
    requires job.id in db.jobs
    modifies db, cache, job
    ensures committed <==> FitsBatch(Batch(valid, errors, {}))
    ensures committed ==>
              && db.Value() == Protocol.CommitBatch(old(db.Value()), job.id, old(job.Row()), valid, errors, upTo)
              && job.Row() == CopyAfterBatch(old(db.Value()), job.id, old(job.Row()), valid, errors, upTo)
              && CountedBatch(old(job.Row()), job.Row(), db.jobs[job.id], |valid|, |errors|, |db.table| - |old(db.table)|, upTo)
              && cache.cells == old(cache.cells) - (Accounts.AccountsOf(valid) - unreached)
              && (forall k :: 0 <= k < |valid| && valid[k].account !in unreached ==> valid[k].account !in cache.cells)
              && (forall account :: account in old(cache.cells) && (forall k :: 0 <= k < |valid| ==> valid[k].account != account)
                                    ==> account in cache.cells && cache.cells[account] == old(cache.cells)[account])
    ensures !committed ==> db.Value() == old(db.Value()) && job.Row() == old(job.Row()) && cache.cells == old(cache.cells)
  {
    committed := CommitTransaction(db, job, valid, errors, upTo);
    if committed {
      cache.InvalidateAll(Accounts.AccountsOf(valid), unreached);
    }
  }

  // ---------- The rest of the world ----------

  // The protocol state of this database and this consumer group.
  ghost predicate Mirrors(s: State, db: Database, group: Queue.ConsumerGroup)
    reads db, group
  {
    && s.db == db.Value() && group.Valid()
    && s.stream == group.stream && s.delivered == group.delivered && s.pending == group.pending.Keys
  }

  predicate By(a: Action, w: int) {
    !a.Create? && !a.Enqueue? && !a.Deliver? && a.worker == w
  }

  // Whatever anyone does between two steps of worker w: other workers' steps, double
  // claims of the same entry included, and the API's. Callers know the contract alone,
  // so what is proved of them holds for every such interference; doing nothing is the
  // least of it.
  method OtherWorkers(db: Database, group: Queue.ConsumerGroup, ghost c: World, ghost s: State, ghost w: int)
    returns (ghost others: seq<Action>, ghost s': State)
    requires Mirrors(s, db, group)
    modifies db, group
    ensures Run(ANY_INTERLEAVING, c, s, others, s') && Mirrors(s', db, group)
    ensures forall k :: 0 <= k < |others| ==> !By(others[k], w)
  {
    others, s' := [], s;
  }

  // The queue only moves on: an entry that left the pending list does not come back.
  predicate Onward(s: State, s': State) {
    && s.stream <= s'.stream && s.delivered <= s'.delivered
    && forall e :: e in s'.pending ==> e in s.pending || e >= s.delivered
  }

  // What was committed for a job stays on record.
  predicate OnRecord(s: State, s': State) {
    forall j :: j in s.db.jobs && j in s.history ==>
                  && j in s'.db.jobs && j in s'.history
                  && (s.history[j].completed ==> s'.history[j].completed)
                  && (s.history[j].failed ==> s'.history[j].failed)
  }

  predicate Alike(s: State, s': State, w: int) {
    (w in s.workers <==> w in s'.workers) && (w in s.workers ==> s'.workers[w] == s.workers[w])
  }

  lemma StepIsOnward(c: World, s: State, a: Action, w: int)
    requires Enabled(c, s, a)
    ensures Onward(s, Next(c, s, a))
    ensures !By(a, w) ==> Alike(s, Next(c, s, a), w)
  {
  }

  lemma {:induction false} OthersLeaveOneAlone(c: World, s: State, others: seq<Action>, s': State, w: int)
    requires Run(ANY_INTERLEAVING, c, s, others, s') && forall k :: 0 <= k < |others| ==> !By(others[k], w)
    ensures Onward(s, s') && Alike(s, s', w)
    decreases |others|
  {
    if others != [] {
      StepIsOnward(c, s, others[0], w);
      forall k | 0 <= k < |others[1..]|
        ensures !By(others[1..][k], w)
      {
        assert others[1..][k] == others[k + 1];
      }
      OthersLeaveOneAlone(c, Next(c, s, others[0]), others[1..], s', w);
    }
  }

  // ---------- Following the program in the protocol ----------

  // The run from the first state, and where it has got to.
  datatype Track = Track(actions: seq<Action>, s: State)

  // The track is a run of the protocol from s0 to the state of the database and the group.
  ghost predicate Follows(c: World, s0: State, t: Track, db: Database, group: Queue.ConsumerGroup)
    reads db, group
  {
    && Run(ANY_INTERLEAVING, c, s0, t.actions, t.s)
    && (Safe(c, s0) ==> Safe(c, t.s))
    && Onward(s0, t.s) && Mirrors(t.s, db, group)
  }

  // And worker w has entry e in hand.
  ghost predicate InHand(c: World, s0: State, t: Track, w: int, e: nat, db: Database, group: Queue.ConsumerGroup)
    reads db, group
  {
    Follows(c, s0, t, db, group) && w in t.s.workers && t.s.workers[w].entry == e
  }

  // And its worker is this process, with this job object.
  ghost predicate Simulates(c: World, s0: State, t: Track, w: int, e: nat, db: Database, group: Queue.ConsumerGroup, job: ImportJob)
    reads db, group, job
  {
    && InHand(c, s0, t, w, e, db, group)
    && Safe(c, t.s) && Holds(c, t.s, w)
    && t.s.workers[w].job == job.id && t.s.workers[w].local == job.Row()
  }

  ghost function Then(c: World, t: Track, a: Action): Track
    requires Enabled(c, t.s, a)
  {
    Track(t.actions + [a], Next(c, t.s, a))
  }

  lemma StepFollows(c: World, s0: State, t: Track, a: Action)
    requires Run(ANY_INTERLEAVING, c, s0, t.actions, t.s) && Enabled(c, t.s, a) && Onward(s0, t.s)
    ensures Run(ANY_INTERLEAVING, c, s0, Then(c, t, a).actions, Then(c, t, a).s)
    ensures Safe(c, t.s) ==> Safe(c, Then(c, t, a).s)
    ensures Onward(s0, Then(c, t, a).s)
  {
    RunThenStep(ANY_INTERLEAVING, c, s0, t.actions, t.s, a);
    if Safe(c, t.s) {
      StepKeepsSafe(c, t.s, a);
    }
    StepIsOnward(c, t.s, a, 0);
  }

  // The others' turn.
  method Yield(db: Database, group: Queue.ConsumerGroup, ghost c: World, ghost s0: State, ghost t: Track, ghost w: int)
    returns (ghost t': Track)
    requires Follows(c, s0, t, db, group)
    modifies db, group
    ensures Follows(c, s0, t', db, group) && Alike(t.s, t'.s, w) && Onward(t.s, t'.s)
    ensures Safe(c, t.s) ==> Safe(c, t'.s) && OnRecord(t.s, t'.s)
  {
    ghost var others, s';
    others, s' := OtherWorkers(db, group, c, t.s, w);
    OthersLeaveOneAlone(c, t.s, others, s', w);
    Recovery.RunThenRun(ANY_INTERLEAVING, c, s0, t.actions, t.s, others, s');
    if Safe(c, t.s) {
      RunKeepsSafe(ANY_INTERLEAVING, c, t.s, others, s');
      forall j | j in t.s.db.jobs && j in t.s.history
        ensures j in s'.db.jobs && j in s'.history
        ensures t.s.history[j].completed ==> s'.history[j].completed
        ensures t.s.history[j].failed ==> s'.history[j].failed
      {
        Recovery.HistoryOnlyGrows(ANY_INTERLEAVING, c, t.s, others, s', j);
      }
    }
    t' := Track(t.actions + others, s');
  }

  // The same, seen by a worker with a job: its copy is where it was.
  method YieldWithJob(db: Database, group: Queue.ConsumerGroup, job: ImportJob,
                      ghost c: World, ghost s0: State, ghost t: Track, ghost w: int, ghost e: nat)
    returns (ghost t': Track)
    requires Simulates(c, s0, t, w, e, db, group, job)
    modifies db, group
    ensures Simulates(c, s0, t', w, e, db, group, job) && t'.s.workers[w] == t.s.workers[w]
  {
    t' := Yield(db, group, c, s0, t, w);
    assert WorkerOk(c, t'.s, w);
  }

  // ---------- The row loop ----------

  // The batch lists and the filter are what scanning from the checkpoint to row i gives.
  ghost predicate Scanned(rows: seq<RowOutcome>, phase: Phase, checkpoint: nat, i: nat,
                          valid: seq<Txn>, errors: seq<RowError>, seen: set<string>)
  {
    && phase.Running? && checkpoint <= |rows| && i <= |rows|
    && var upTo := if i < checkpoint then checkpoint else i;
       NoneRaises(rows, checkpoint, upTo) && Scan(rows, checkpoint, upTo, phase.seen) == Batch(valid, errors, seen)
  }

  // The row loop after reading i rows of the file.
  ghost predicate LoopState(c: World, s0: State, t: Track, w: int, e: nat, db: Database, group: Queue.ConsumerGroup, job: ImportJob,
                            i: nat, batch: Batch)
    reads db, group, job
  {
    && Simulates(c, s0, t, w, e, db, group, job)
    && t.s.workers[w].phase.Running?
    && Scanned(c.files[job.id].rows, t.s.workers[w].phase, job.checkpoint, i, batch.valid, batch.errors, batch.seen)
  }

  lemma ScannedCount(c: World, s: State, w: int, i: nat, batch: Batch)
    requires Safe(c, s) && Holds(c, s, w)
    requires Scanned(Rows(c, s, w), s.workers[w].phase, s.workers[w].local.checkpoint, i, batch.valid, batch.errors, batch.seen)
    ensures |batch.valid| + |batch.errors| == if i < s.workers[w].local.checkpoint then 0 else i - s.workers[w].local.checkpoint
  {
    assert WorkerOk(c, s, w);
    var lo := s.workers[w].local.checkpoint;
    ScanPartitions(Rows(c, s, w), s.workers[w].phase.start, lo, if i < lo then lo else i);
  }

  lemma LoopStateBegins(c: World, s0: State, t: Track, w: int, e: nat, db: Database, group: Queue.ConsumerGroup, job: ImportJob)
    requires Simulates(c, s0, t, w, e, db, group, job) && t.s.workers[w].phase == Running(job.checkpoint, {})
    ensures LoopState(c, s0, t, w, e, db, group, job, 0, Batch([], [], {}))
  {
    assert WorkerOk(c, t.s, w);
  }

  // Between two rows: how much the lists hold, and what can go wrong.
  lemma LoopStateCounts(c: World, s0: State, t: Track, w: int, e: nat, db: Database, group: Queue.ConsumerGroup, job: ImportJob,
                        i: nat, batch: Batch)
    requires LoopState(c, s0, t, w, e, db, group, job, i, batch)
    ensures |batch.valid| + |batch.errors| == if i < job.checkpoint then 0 else i - job.checkpoint
    ensures i < job.checkpoint ==> LoopState(c, s0, t, w, e, db, group, job, i + 1, batch)
    ensures t.s.workers[w].phase.start <= job.checkpoint <= |c.files[job.id].rows|
    ensures Enabled(c, t.s, Fail(w, Unexpected))
  {
    ScannedCount(c, t.s, w, i, batch);
    assert WorkerOk(c, t.s, w);
  }

  // The database accepts what is scanned of a file it has no objection to.
  lemma LoopStateFits(c: World, s0: State, t: Track, w: int, e: nat, db: Database, group: Queue.ConsumerGroup, job: ImportJob,
                      i: nat, batch: Batch)
    requires LoopState(c, s0, t, w, e, db, group, job, i, batch) && job.checkpoint <= i
    ensures Recovery.Accepts(c.files[job.id].rows, t.s.workers[w].phase.start) ==> FitsBatch(batch)
  {
    assert WorkerOk(c, t.s, w);
    if Recovery.Accepts(c.files[job.id].rows, t.s.workers[w].phase.start) {
      Recovery.ScanFits(c.files[job.id].rows, t.s.workers[w].phase.start, job.checkpoint, i);
    }
  }

  lemma ScanOne(rows: seq<RowOutcome>, phase: Phase, checkpoint: nat, i: nat, before: Batch, after: Batch)
    requires Scanned(rows, phase, checkpoint, i, before.valid, before.errors, before.seen)
    requires checkpoint <= i < |rows| && !rows[i].Raises? && after == ScanRow(before, rows[i], i + 1)
    ensures Scanned(rows, phase, checkpoint, i + 1, after.valid, after.errors, after.seen)
  {
  }

  // Reading one more row: the exception the protocol counts, or one more row scanned.
  lemma LoopStateReads(c: World, s0: State, t: Track, w: int, e: nat, db: Database, group: Queue.ConsumerGroup, job: ImportJob,
                       i: nat, before: Batch, after: Batch)
    requires LoopState(c, s0, t, w, e, db, group, job, i, before)
    requires job.checkpoint <= i < |c.files[job.id].rows| && |before.valid| + |before.errors| < BatchLength(c)
    requires !c.files[job.id].rows[i].Raises? ==> after == ScanRow(before, c.files[job.id].rows[i], i + 1)
    ensures c.files[job.id].rows[i].Raises? ==> Enabled(c, t.s, Fail(w, RowRaised))
    ensures !c.files[job.id].rows[i].Raises? ==> LoopState(c, s0, t, w, e, db, group, job, i + 1, after)
  {
    if c.files[job.id].rows[i].Raises? {
      ScannedCount(c, t.s, w, i, before);
      assert i < BatchEnd(c, Rows(c, t.s, w), t.s.workers[w].local.checkpoint);
    } else {
      ScanOne(c.files[job.id].rows, t.s.workers[w].phase, job.checkpoint, i, before, after);
    }
  }

  // At a batch boundary the protocol can commit exactly these lists.
  lemma BoundaryCommits(c: World, s: State, w: int, i: nat, batch: Batch)
    requires Holds(c, s, w)
    requires Scanned(Rows(c, s, w), s.workers[w].phase, s.workers[w].local.checkpoint, i, batch.valid, batch.errors, batch.seen)
    requires s.workers[w].local.checkpoint < |Rows(c, s, w)| && i == BatchEnd(c, Rows(c, s, w), s.workers[w].local.checkpoint)
    ensures Enabled(c, s, Commit(w)) <==> FitsBatch(batch)
    ensures Enabled(c, s, Commit(w)) ==>
              var s', me := NextCommit(c, s, w), s.workers[w];
              && s'.db == Protocol.CommitBatch(s.db, me.job, me.local, batch.valid, batch.errors, i)
              && s'.workers == s.workers[w := me.(local := CopyAfterBatch(s.db, me.job, me.local, batch.valid, batch.errors, i),
                                                  phase := Running(me.phase.start, batch.seen))]
              && s'.stream == s.stream && s'.delivered == s.delivered && s'.pending == s.pending
              && Holds(c, s', w)
  {
  }

  // Still the attempt that started there, by a copy with that retry count.
  predicate SameAttempt(s: State, s': State, w: int) {
    && w in s.workers && w in s'.workers && s.workers[w].phase.Running? && s'.workers[w].phase.Running?
    && s'.workers[w].phase.start == s.workers[w].phase.start
    && s'.workers[w].local.retries == s.workers[w].local.retries
  }

  // A full batch, or the last one.
  method CommitAndGoOn(db: Database, cache: SummaryCache.Cache, group: Queue.ConsumerGroup, job: ImportJob, batch: Batch, rowNumber: nat,
                       unreached: set<string>, ghost c: World, ghost s0: State, ghost t: Track, ghost w: int, ghost e: nat)
    returns (end: End, ghost t': Track)
    requires LoopState(c, s0, t, w, e, db, group, job, rowNumber, batch)
    requires job.checkpoint < |c.files[job.id].rows| && rowNumber == BatchEnd(c, c.files[job.id].rows, job.checkpoint)
    modifies db, cache, group, job
    ensures end == if FitsBatch(batch) then Returned else Lost
    ensures end.Returned? ==> LoopState(c, s0, t', w, e, db, group, job, rowNumber, Batch([], [], batch.seen)) && job.checkpoint == rowNumber
    ensures end.Returned? ==> SameAttempt(t.s, t'.s, w)
    ensures end.Lost? ==> InHand(c, s0, t', w, e, db, group)
  {
    t' := YieldWithJob(db, group, job, c, s0, t, w, e);
    BoundaryCommits(c, t'.s, w, rowNumber, batch);
    var committed := CommitBatch(db, cache, job, batch.valid, batch.errors, rowNumber, unreached);
    if !committed {
      return Lost, t';
    }
    StepFollows(c, s0, t', Commit(w));
    return Returned, Then(c, t', Commit(w));
  }

  // validate_row and the filter, for a row that was not committed before.
  method ReadRow(py: Python, raw: RawRow, rowNumber: nat, batchValid: seq<Txn>, batchErrors: seq<RowError>, seenInFile: set<string>)
    returns (raised: bool, valid: seq<Txn>, errors: seq<RowError>, seen: set<string>)
    ensures raised <==> Classify(py, raw).Raises?
    ensures !raised ==> Batch(valid, errors, seen) == ScanRow(Batch(batchValid, batchErrors, seenInFile), Classify(py, raw), rowNumber)
    ensures !raised ==> |valid| + |errors| == |batchValid| + |batchErrors| + 1
  {
    raised, valid, errors, seen := false, batchValid, batchErrors, seenInFile;
    var outcome := Classify(py, raw);
    if outcome.Raises? {
      raised := true;
    } else if outcome.Invalid? {
      errors := errors + [RowError(rowNumber, outcome.id, outcome.error)];
    } else if outcome.txn.id in seen {
      errors := errors + [RowError(rowNumber, Some(outcome.txn.id), DUPLICATE)];
    } else {
      seen := seen + {outcome.txn.id};
      valid := valid + [outcome.txn];
    }
  }

  // The test at the end of the loop body.
  method CommitIfFull(db: Database, cache: SummaryCache.Cache, group: Queue.ConsumerGroup, job: ImportJob, batchSize: int,
                      batchValid: seq<Txn>, batchErrors: seq<RowError>, seen: set<string>, rowNumber: nat, unreached: set<string>, lives: nat,
                      ghost c: World, ghost s0: State, ghost t: Track, ghost w: int, ghost e: nat)
    returns (end: End, valid: seq<Txn>, errors: seq<RowError>, steps: nat, ghost t': Track)
    requires LoopState(c, s0, t, w, e, db, group, job, rowNumber, Batch(batchValid, batchErrors, seen))
    requires job.checkpoint < rowNumber && |batchValid| + |batchErrors| <= BatchLength(c) && c.batchSize == batchSize
    modifies db, cache, group, job
    ensures end.Returned? || end.Lost?
    ensures lives > 0 && Recovery.Accepts(c.files[job.id].rows, t.s.workers[w].phase.start) ==> end.Returned?
    ensures end.Returned? ==> LoopState(c, s0, t', w, e, db, group, job, rowNumber, Batch(valid, errors, seen)) && SameAttempt(t.s, t'.s, w)
    ensures end.Returned? ==> |valid| + |errors| < BatchLength(c)
    ensures end.Returned? ==> steps - (|valid| + |errors|) >= lives - (|batchValid| + |batchErrors|)
    ensures end.Lost? ==> InHand(c, s0, t', w, e, db, group)
  {
    valid, errors, steps, t' := batchValid, batchErrors, lives, t;
    LoopStateCounts(c, s0, t, w, e, db, group, job, rowNumber, Batch(batchValid, batchErrors, seen));
    if |batchValid| + |batchErrors| < batchSize {
      return Returned, valid, errors, steps, t';
    }
    if steps == 0 {
      return Lost, valid, errors, steps, t';
    }
    LoopStateFits(c, s0, t, w, e, db, group, job, rowNumber, Batch(batchValid, batchErrors, seen));
    end, t' := CommitAndGoOn(db, cache, group, job, Batch(batchValid, batchErrors, seen), rowNumber, unreached, c, s0, t, w, e);
    valid, errors, steps := [], [], steps - 1;
  }

  // What is left over when the file ends.
  method CommitTrailing(db: Database, cache: SummaryCache.Cache, group: Queue.ConsumerGroup, job: ImportJob,
                        batchValid: seq<Txn>, batchErrors: seq<RowError>, seen: set<string>, rowNumber: nat, unreached: set<string>, lives: nat,
                        ghost c: World, ghost s0: State, ghost t: Track, ghost w: int, ghost e: nat)
    returns (end: End, steps: nat, ghost t': Track)
    requires LoopState(c, s0, t, w, e, db, group, job, rowNumber, Batch(batchValid, batchErrors, seen))
    requires rowNumber == |c.files[job.id].rows| && |batchValid| + |batchErrors| < BatchLength(c)
    modifies db, cache, group, job
    ensures end.Returned? || end.Lost?
    ensures lives > 0 && Recovery.Accepts(c.files[job.id].rows, t.s.workers[w].phase.start) ==> end.Returned?
    ensures end.Returned? ==> Simulates(c, s0, t', w, e, db, group, job) && SameAttempt(t.s, t'.s, w) && job.checkpoint == rowNumber
    ensures end.Returned? ==> steps >= lives - (|batchValid| + |batchErrors|)
    ensures end.Lost? ==> InHand(c, s0, t', w, e, db, group)
  {
    LoopStateCounts(c, s0, t, w, e, db, group, job, rowNumber, Batch(batchValid, batchErrors, seen));
    if batchValid == [] && batchErrors == [] {
      return Returned, lives, t;
    }
    if lives == 0 {
      return Lost, lives, t;
    }
    LoopStateFits(c, s0, t, w, e, db, group, job, rowNumber, Batch(batchValid, batchErrors, seen));
    end, t' := CommitAndGoOn(db, cache, group, job, Batch(batchValid, batchErrors, seen), rowNumber, unreached, c, s0, t, w, e);
    steps := lives - 1;
  }

  // What a completed run has achieved, whoever else was importing: the job says
  // COMPLETED with its total, and every valid id of the file is in the table.
  ghost predicate Imported(c: World, t: Track, w: int, db: Database, job: ImportJob)
    requires job.id in c.files
    reads db, job
  {
    && w in t.s.workers && t.s.workers[w].phase.Finished?
    && job.id in t.s.history && t.s.history[job.id].completed
    && var rows := c.files[job.id].rows;
       && Covered(db.table, rows, |rows|)
       && job.id in db.jobs && db.jobs[job.id].status == Completed && db.jobs[job.id].total == Some(|rows|)
  }

  lemma CompleteFinishes(c: World, s: State, w: int)
    requires Enabled(c, s, Complete(w)) && Safe(c, s) && s.workers[w].local.status.Processing?
    ensures var s', me := Next(c, s, Complete(w)), s.workers[w];
            && s'.db == SetCompleted(s.db, me.job, me.local, |Rows(c, s, w)|)
            && Holds(c, s', w)
            && s'.workers[w] == me.(local := me.local.(status := Completed, total := Some(|Rows(c, s, w)|)), phase := Finished)
            && s'.history[me.job].completed && s'.db.jobs[me.job].status == Completed && s'.db.jobs[me.job].total == Some(|Rows(c, s, w)|)
            && s'.stream == s.stream && s'.delivered == s.delivered && s'.pending == s.pending
            && Covered(s'.db.table, Rows(c, s, w), |Rows(c, s, w)|)
  {
    assert WorkerOk(c, s, w);
  }

  // The commit of COMPLETED.
  method CommitCompleted(db: Database, group: Queue.ConsumerGroup, job: ImportJob, rowNumber: nat,
                         ghost c: World, ghost s0: State, ghost t: Track, ghost w: int, ghost e: nat)
    returns (ghost t': Track)
    requires Simulates(c, s0, t, w, e, db, group, job) && t.s.workers[w].phase.Running?
    requires rowNumber == |c.files[job.id].rows| == job.checkpoint
    modifies db, group, job
    ensures Simulates(c, s0, t', w, e, db, group, job) && Imported(c, t', w, db, job)
    ensures job.retries == old(job.retries)
  {
    t' := YieldWithJob(db, group, job, c, s0, t, w, e);
    StepFollows(c, s0, t', Complete(w));
    assert job.status.Processing? by {
      assert WorkerOk(c, t'.s, w);
    }
    CompleteFinishes(c, t'.s, w);
    db.SaveCompleted(job, rowNumber);
    t' := Then(c, t', Complete(w));
  }

  // The rest of the loop body, for a row that was not committed before.
  method ImportRow(py: Python, db: Database, cache: SummaryCache.Cache, group: Queue.ConsumerGroup, job: ImportJob, raw: RawRow, batchSize: int,
                   batchValid: seq<Txn>, batchErrors: seq<RowError>, seenInFile: set<string>, rowNumber: nat, unreached: set<string>, lives: nat,
                   ghost c: World, ghost s0: State, ghost t: Track, ghost w: int, ghost e: nat)
    returns (end: End, valid: seq<Txn>, errors: seq<RowError>, seen: set<string>, steps: nat, ghost t': Track)
    requires 0 < rowNumber && LoopState(c, s0, t, w, e, db, group, job, rowNumber - 1, Batch(batchValid, batchErrors, seenInFile))
    requires job.checkpoint < rowNumber <= |c.files[job.id].rows| && c.files[job.id].rows[rowNumber - 1] == Classify(py, raw)
    requires |batchValid| + |batchErrors| < BatchLength(c) && c.batchSize == batchSize
    modifies db, cache, group, job
    ensures end.Returned? ==> LoopState(c, s0, t', w, e, db, group, job, rowNumber, Batch(valid, errors, seen))
    ensures end.Returned? ==> SameAttempt(t.s, t'.s, w) && |valid| + |errors| < BatchLength(c)
    ensures end.Returned? ==> steps - (|valid| + |errors|) >= lives - (|batchValid| + |batchErrors|) - 1
    ensures end.Raised? <==> c.files[job.id].rows[rowNumber - 1].Raises?
    ensures end.Raised? ==> Simulates(c, s0, t', w, e, db, group, job) && Enabled(c, t'.s, Fail(w, CauseOf(end)))
    ensures end.Raised? ==> steps == lives && job.retries == old(job.retries)
    ensures end.Lost? ==> InHand(c, s0, t', w, e, db, group)
    ensures lives > 0 && Recovery.Accepts(c.files[job.id].rows, t.s.workers[w].phase.start) ==> !end.Lost?
  {
    // Nothing here depends on what these say.
    hide Run, Safe, Enabled, Holds, Scanned, Mirrors, Onward;
    var raised;
    steps, t' := lives, t;
    raised, valid, errors, seen := ReadRow(py, raw, rowNumber, batchValid, batchErrors, seenInFile);
    LoopStateReads(c, s0, t, w, e, db, group, job, rowNumber - 1, Batch(batchValid, batchErrors, seenInFile), Batch(valid, errors, seen));
    if raised {
      end := Raised(true);
      return;
    }
    end, valid, errors, steps, t' :=
      CommitIfFull(db, cache, group, job, batchSize, valid, errors, seen, rowNumber, unreached, steps, c, s0, t, w, e);
  }

  // What follows the loop.
  method FinishRows(db: Database, cache: SummaryCache.Cache, group: Queue.ConsumerGroup, job: ImportJob,
                    batchValid: seq<Txn>, batchErrors: seq<RowError>, seen: set<string>, rowNumber: nat, unreached: set<string>, lives: nat,
                    ghost c: World, ghost s0: State, ghost t: Track, ghost w: int, ghost e: nat)
    returns (end: End, steps: nat, ghost t': Track)
    requires LoopState(c, s0, t, w, e, db, group, job, rowNumber, Batch(batchValid, batchErrors, seen))
    requires rowNumber == |c.files[job.id].rows| && |batchValid| + |batchErrors| < BatchLength(c)
    modifies db, cache, group, job
    ensures end.Returned? || end.Lost?
    ensures lives > |batchValid| + |batchErrors| && Recovery.Accepts(c.files[job.id].rows, t.s.workers[w].phase.start) ==> end.Returned?
    ensures end.Returned? ==> Simulates(c, s0, t', w, e, db, group, job) && Imported(c, t', w, db, job) && job.retries == old(job.retries)
    ensures end.Returned? ==> steps + 1 >= lives - (|batchValid| + |batchErrors|)
    ensures end.Lost? ==> InHand(c, s0, t', w, e, db, group)
  {
    end, steps, t' := CommitTrailing(db, cache, group, job, batchValid, batchErrors, seen, rowNumber, unreached, lives, c, s0, t, w, e);
    if end.Lost? {
      return;
    }
    if steps == 0 {
      return Lost, steps, t';
    }
    t' := CommitCompleted(db, group, job, rowNumber, c, s0, t', w, e);
    return Returned, steps - 1, t';
  }

  // The row loop of _run_import.
  method ReadRows(py: Python, db: Database, cache: SummaryCache.Cache, group: Queue.ConsumerGroup, job: ImportJob,
                  raws: seq<RawRow>, batchSize: int, faults: Faults, lives: nat,
                  ghost c: World, ghost s0: State, ghost t: Track, ghost w: int, ghost e: nat)
    returns (end: End, batchValid: seq<Txn>, batchErrors: seq<RowError>, seenInFile: set<string>, steps: nat, ghost t': Track)
    requires LoopState(c, s0, t, w, e, db, group, job, 0, Batch([], [], {}))
    requires c.files[job.id].rows == ClassifyAll(py, raws) && c.batchSize == batchSize
    modifies db, cache, group, job
    ensures end.Returned? ==> LoopState(c, s0, t', w, e, db, group, job, |raws|, Batch(batchValid, batchErrors, seenInFile))
    ensures end.Returned? ==> t'.s.workers[w].phase.start == t.s.workers[w].phase.start && |batchValid| + |batchErrors| < BatchLength(c)
    ensures end.Raised? ==> Simulates(c, s0, t', w, e, db, group, job) && Enabled(c, t'.s, Fail(w, CauseOf(end)))
    ensures end.Lost? ==> InHand(c, s0, t', w, e, db, group)
    ensures lives >= |raws| && Recovery.Accepts(c.files[job.id].rows, t.s.workers[w].phase.start) ==> !end.Lost?
    ensures faults.readable >= |raws| && NoneRaises(c.files[job.id].rows, t.s.workers[w].phase.start, |raws|) ==> !end.Raised?
    ensures end.Returned? ==> steps + |raws| - (|batchValid| + |batchErrors|) >= lives
    ensures !end.Lost? ==> steps + |raws| >= lives && job.retries == old(job.retries)
  {
    // Nothing here depends on what these say.
    hide Run, Safe, Enabled, Holds, Scanned, Mirrors, Onward;
    steps, t' := lives, t;
    var rowNumber := 0;
    batchValid, batchErrors, seenInFile := [], [], {};
    while rowNumber < |raws|
      invariant rowNumber <= |raws|
      invariant LoopState(c, s0, t', w, e, db, group, job, rowNumber, Batch(batchValid, batchErrors, seenInFile))
      invariant |batchValid| + |batchErrors| < BatchLength(c)
      invariant t'.s.workers[w].phase.start == t.s.workers[w].phase.start && job.retries == old(job.retries)
      invariant steps + rowNumber - (|batchValid| + |batchErrors|) >= lives
      decreases |raws| - rowNumber
    {
      LoopStateCounts(c, s0, t', w, e, db, group, job, rowNumber, Batch(batchValid, batchErrors, seenInFile));
      if faults.readable <= rowNumber {
        end := Raised(false);
        return;
      }
      rowNumber := rowNumber + 1;
      if rowNumber <= job.checkpoint {
        continue;
      }
      end, batchValid, batchErrors, seenInFile, steps, t' :=
        ImportRow(py, db, cache, group, job, raws[rowNumber - 1], batchSize, batchValid, batchErrors, seenInFile, rowNumber,
                  faults.unreached, steps, c, s0, t', w, e);
      if !end.Returned? {
        return;
      }
    }
    end := Returned;
  }

  // _run_import from the row loop on.
  method ImportRows(py: Python, db: Database, cache: SummaryCache.Cache, group: Queue.ConsumerGroup, job: ImportJob,
                    raws: seq<RawRow>, batchSize: int, faults: Faults, lives: nat,
                    ghost c: World, ghost s0: State, ghost t: Track, ghost w: int, ghost e: nat)
    returns (end: End, steps: nat, ghost t': Track)
    requires Simulates(c, s0, t, w, e, db, group, job) && t.s.workers[w].phase == Running(job.checkpoint, {})
    requires c.files[job.id].rows == ClassifyAll(py, raws) && c.batchSize == batchSize
    modifies db, cache, group, job
    ensures end.Returned? ==> Simulates(c, s0, t', w, e, db, group, job) && Imported(c, t', w, db, job)
    ensures end.Raised? ==> Simulates(c, s0, t', w, e, db, group, job) && Enabled(c, t'.s, Fail(w, CauseOf(end)))
    ensures end.Lost? ==> InHand(c, s0, t', w, e, db, group)
    // A process that lives long enough is lost only to a refusing database, and nothing
    // raises but reading or a row.
    ensures lives > |raws| && Recovery.Accepts(c.files[job.id].rows, old(job.checkpoint)) ==> !end.Lost?
    ensures faults.readable >= |raws| && NoneRaises(c.files[job.id].rows, old(job.checkpoint), |raws|) ==> !end.Raised?
    ensures !end.Lost? ==> steps + |raws| + 1 >= lives && job.retries == old(job.retries)
  {
    LoopStateBegins(c, s0, t, w, e, db, group, job);
    var batchValid, batchErrors, seenInFile;
    end, batchValid, batchErrors, seenInFile, steps, t' :=
      ReadRows(py, db, cache, group, job, raws, batchSize, faults, lives, c, s0, t, w, e);
    if end.Returned? {
      end, steps, t' := FinishRows(db, cache, group, job, batchValid, batchErrors, seenInFile, |raws|, faults.unreached, steps, c, s0, t', w, e);
    }
  }

  // ---------- One attempt ----------

  // An uploaded file in storage: whether its header has the required columns, its rows.
  // A stored file: its header and its data rows.
  datatype Upload = Upload(header: seq<string>, rows: seq<RawRow>) {
    predicate HasColumns() {
      forall column :: column in REQUIRED_COLUMNS ==> column in header
    }
  }

  // The protocol's world is these uploads as the validator classifies them.
  predicate Describes(c: World, py: Python, storage: map<JobId, Upload>, batchSize: int) {
    && c.batchSize == batchSize && c.files.Keys == storage.Keys
    && forall j :: j in storage ==> c.files[j] == File(storage[j].HasColumns(), ClassifyAll(py, storage[j].rows))
  }

  lemma MarkProcessingStep(c: World, s: State, w: int)
    requires Enabled(c, s, Start(w))
    ensures var s', me := Next(c, s, Start(w)), s.workers[w];
            && s'.db == SetStatus(s.db, me.job, me.local, Processing)
            && s'.stream == s.stream && s'.delivered == s.delivered && s'.pending == s.pending
            && Holds(c, s', w) && s'.workers[w].entry == me.entry && s'.workers[w].job == me.job
            && s'.workers[w].local == me.local.(status := Processing)
            && s'.workers[w].phase == if c.files[me.job].columnsOk then Running(me.local.checkpoint, {}) else NoColumns
  {
  }

  // The commit that marks the job PROCESSING.
  method MarkProcessing(db: Database, group: Queue.ConsumerGroup, job: ImportJob,
                       ghost c: World, ghost s0: State, ghost t: Track, ghost w: int, ghost e: nat)
    returns (ghost t': Track)
    requires Simulates(c, s0, t, w, e, db, group, job) && t.s.workers[w].phase.Starting?
    modifies db, group, job
    ensures Simulates(c, s0, t', w, e, db, group, job)
    ensures t'.s.workers[w].phase == if c.files[job.id].columnsOk then Running(job.checkpoint, {}) else NoColumns
    ensures job.Row() == old(job.Row()).(status := Processing)
  {
    t' := YieldWithJob(db, group, job, c, s0, t, w, e);
    StepFollows(c, s0, t', Start(w));
    MarkProcessingStep(c, t'.s, w);
    db.SaveStatus(job, Processing);
    t' := Then(c, t', Start(w));
  }

  lemma MarkRejectedStep(c: World, s: State, w: int)
    requires Enabled(c, s, RejectFile(w))
    ensures var s', me := Next(c, s, RejectFile(w)), s.workers[w];
            && s'.db == SetStatus(s.db, me.job, me.local, Failed)
            && s'.stream == s.stream && s'.delivered == s.delivered && s'.pending == s.pending
            && Holds(c, s', w) && s'.workers[w].entry == me.entry && s'.workers[w].job == me.job
            && s'.workers[w].local == me.local.(status := Failed)
            && s'.workers[w].phase.Finished? && s'.history[me.job].failed
  {
  }

  // The commit of FAILED for an incomplete header.
  method MarkRejected(db: Database, group: Queue.ConsumerGroup, job: ImportJob,
                     ghost c: World, ghost s0: State, ghost t: Track, ghost w: int, ghost e: nat)
    returns (ghost t': Track)
    requires Simulates(c, s0, t, w, e, db, group, job) && t.s.workers[w].phase.NoColumns?
    modifies db, group, job
    ensures Simulates(c, s0, t', w, e, db, group, job)
    ensures t'.s.workers[w].phase.Finished? && t'.s.history[job.id].failed
    ensures job.Row() == old(job.Row()).(status := Failed)
  {
    t' := YieldWithJob(db, group, job, c, s0, t, w, e);
    StepFollows(c, s0, t', RejectFile(w));
    MarkRejectedStep(c, t'.s, w);
    db.SaveStatus(job, Failed);
    t' := Then(c, t', RejectFile(w));
  }

  lemma MarkRetiredStep(c: World, s: State, w: int)
    requires Enabled(c, s, Retire(w))
    ensures var s', me := Next(c, s, Retire(w)), s.workers[w];
            && s'.db == SetStatus(s.db, me.job, me.local, Failed)
            && s'.stream == s.stream && s'.delivered == s.delivered && s'.pending == s.pending
            && Holds(c, s', w) && s'.workers[w].entry == me.entry && s'.workers[w].job == me.job
            && s'.workers[w].local == me.local.(status := Failed)
            && s'.workers[w].phase.Skipping? && s'.history[me.job].failed
  {
  }

  // The commit of FAILED for used-up retries.
  method MarkRetired(db: Database, group: Queue.ConsumerGroup, job: ImportJob,
                    ghost c: World, ghost s0: State, ghost t: Track, ghost w: int, ghost e: nat)
    returns (ghost t': Track)
    requires Simulates(c, s0, t, w, e, db, group, job) && t.s.workers[w].phase.Retiring?
    modifies db, group, job
    ensures Simulates(c, s0, t', w, e, db, group, job)
    ensures t'.s.workers[w].phase.Skipping? && t'.s.history[job.id].failed
    ensures job.Row() == old(job.Row()).(status := Failed)
  {
    t' := YieldWithJob(db, group, job, c, s0, t, w, e);
    StepFollows(c, s0, t', Retire(w));
    MarkRetiredStep(c, t'.s, w);
    db.SaveStatus(job, Failed);
    t' := Then(c, t', Retire(w));
  }

  // _run_import.
  method RunImport(py: Python, db: Database, cache: SummaryCache.Cache, group: Queue.ConsumerGroup, job: ImportJob,
                   upload: Upload, batchSize: int, faults: Faults,
                   ghost c: World, ghost s0: State, ghost t: Track, ghost w: int, ghost e: nat)
    returns (end: End, steps: nat, ghost t': Track)
    requires Simulates(c, s0, t, w, e, db, group, job) && t.s.workers[w].phase.Starting?
    requires c.files[job.id] == File(upload.HasColumns(), ClassifyAll(py, upload.rows)) && c.batchSize == batchSize
    modifies db, cache, group, job
    ensures end.Returned? ==> Simulates(c, s0, t', w, e, db, group, job) && t'.s.workers[w].phase.Finished?
    ensures end.Returned? && upload.HasColumns() ==> Imported(c, t', w, db, job)
    ensures end.Raised? ==> Simulates(c, s0, t', w, e, db, group, job) && Enabled(c, t'.s, Fail(w, CauseOf(end)))
    ensures end.Lost? ==> InHand(c, s0, t', w, e, db, group)
    ensures end.Returned? && !upload.HasColumns() ==> t'.s.history[job.id].failed
    ensures faults.steps > |upload.rows| + 1 && (!upload.HasColumns() || Recovery.Accepts(c.files[job.id].rows, old(job.checkpoint)))
            ==> !end.Lost?
    ensures faults.opens && faults.readable >= |upload.rows|
            && (!upload.HasColumns() || NoneRaises(c.files[job.id].rows, old(job.checkpoint), |upload.rows|))
            ==> !end.Raised?
    ensures !end.Lost? ==> steps + |upload.rows| + 2 >= faults.steps && job.retries == old(job.retries)
  {
    if faults.steps == 0 {
      return Lost, 0, t;
    }
    t' := MarkProcessing(db, group, job, c, s0, t, w, e);
    steps := faults.steps - 1;
    if !faults.opens {
      return Raised(false), steps, t';
    }
    if !upload.HasColumns() {
      if steps == 0 {
        return Lost, steps, t';
      }
      t' := MarkRejected(db, group, job, c, s0, t', w, e);
      return Returned, steps - 1, t';
    }
    end, steps, t' := ImportRows(py, db, cache, group, job, upload.rows, batchSize, faults, steps, c, s0, t', w, e);
  }

  // ---------- One delivery ----------

  // How a delivery ends: worker w has nothing in hand any more.
  ghost predicate Delivered(c: World, s0: State, t: Track, w: int, db: Database, group: Queue.ConsumerGroup)
    reads db, group
  {
    Follows(c, s0, t, db, group) && w !in t.s.workers
  }

  // The worker has nothing left to do but acknowledge.
  predicate ToAcknowledge(s: State, w: int) {
    w in s.workers && (s.workers[w].phase.Dropping? || s.workers[w].phase.Skipping? || s.workers[w].phase.Finished?)
  }

  lemma LeavingStep(c: World, s: State, w: int, a: Action)
    requires Enabled(c, s, a) && (a == Acknowledge(w) || a == Crash(w) || (a.Fail? && a.worker == w))
    ensures var s', me := Next(c, s, a), s.workers[w];
            && w !in s'.workers && s'.stream == s.stream && s'.delivered == s.delivered
            && s'.pending == (if a.Acknowledge? || (a.Fail? && a.cause.ReplyLost?) then s.pending - {me.entry} else s.pending)
            && s'.db == (if a.Fail? then SetRequeued(s.db, me.job, me.local) else s.db)
            && OnRecord(s, s')
  {
  }

  // The attempt is lost: nothing more is written.
  ghost method Lose(db: Database, group: Queue.ConsumerGroup, c: World, s0: State, t: Track, w: int, e: nat) returns (t': Track)
    requires InHand(c, s0, t, w, e, db, group)
    ensures Delivered(c, s0, t', w, db, group) && OnRecord(t.s, t'.s)
  {
    StepFollows(c, s0, t, Crash(w));
    LeavingStep(c, t.s, w, Crash(w));
    t' := Then(c, t, Crash(w));
  }

  lemma OnRecordFurther(s: State, mid: State, s': State)
    requires OnRecord(s, mid) && OnRecord(mid, s')
    ensures OnRecord(s, s')
  {
  }

  // ack_job outside the handler's reach: whatever happens to the command, that is the
  // end of the delivery.
  method AcknowledgeOrLose(db: Database, group: Queue.ConsumerGroup, entry: nat, reply: Sending,
                           ghost c: World, ghost s0: State, ghost t: Track, ghost w: int)
    returns (ghost t': Track)
    requires InHand(c, s0, t, w, entry, db, group) && ToAcknowledge(t.s, w)
    modifies db, group
    ensures Delivered(c, s0, t', w, db, group)
    ensures !reply.Unsent? ==> entry !in group.pending
    ensures Safe(c, t.s) ==> OnRecord(t.s, t'.s)
  {
    ghost var mid := Yield(db, group, c, s0, t, w);
    if !reply.Unsent? {
      StepFollows(c, s0, mid, Acknowledge(w));
      LeavingStep(c, mid.s, w, Acknowledge(w));
      group.Ack(entry);
      t' := Then(c, mid, Acknowledge(w));
    } else {
      t' := Lose(db, group, c, s0, mid, w, entry);
    }
    if Safe(c, t.s) {
      OnRecordFurther(t.s, mid.s, t'.s);
    }
  }

  lemma FailureStays(c: World, s: State, s': State, w: int, cause: Cause)
    requires Enabled(c, s, Fail(w, cause)) && w in s'.workers && s'.workers[w] == s.workers[w] && Holds(c, s', w)
    ensures Enabled(c, s', Fail(w, cause))
  {
  }

  // The handler's commit: one more retry than the copy knew of.
  ghost predicate Counted(db: Database, job: JobId, retries: nat)
    reads db
  {
    job in db.jobs && db.jobs[job].retries == retries + 1
  }

  // The exception handler.
  method CountFailure(db: Database, group: Queue.ConsumerGroup, job: ImportJob, cause: Cause, lives: nat,
                      ghost c: World, ghost s0: State, ghost t: Track, ghost w: int, ghost e: nat)
    returns (ghost t': Track)
    requires Simulates(c, s0, t, w, e, db, group, job) && Enabled(c, t.s, Fail(w, cause)) && !cause.ReplyLost?
    modifies db, group, job
    ensures Delivered(c, s0, t', w, db, group)
    ensures lives > 0 ==> Counted(db, job.id, old(job.retries))
    ensures lives > 0 && old(job.status) != Queued ==> db.jobs[job.id].status == Queued
  {
    t' := YieldWithJob(db, group, job, c, s0, t, w, e);
    if lives == 0 {
      t' := Lose(db, group, c, s0, t', w, e);
      return;
    }
    FailureStays(c, t.s, t'.s, w, cause);
    StepFollows(c, s0, t', Fail(w, cause));
    LeavingStep(c, t'.s, w, Fail(w, cause));
    db.SaveRequeued(job);
    t' := Then(c, t', Fail(w, cause));
  }

  // XACK, and the handler's commit.
  method AcknowledgeAndRequeue(db: Database, group: Queue.ConsumerGroup, job: ImportJob, entry: nat)
    requires group.Valid() && job.id in db.jobs
    modifies db`jobs, group`pending, group`acked, job
    ensures group.Valid() && group.pending.Keys == old(group.pending).Keys - {entry}
    ensures db.Value() == SetRequeued(old(db.Value()), job.id, old(job.Row())) && job.id in db.jobs
    ensures db.jobs[job.id].retries == old(job.retries) + 1
    ensures old(job.status) != Queued ==> db.jobs[job.id].status == Queued
  {
    group.Ack(entry);
    db.SaveRequeued(job);
  }

  // The same after an acknowledgement that took effect and whose reply was lost: the
  // entry is gone by the time the handler commits.
  method CountLostReply(db: Database, group: Queue.ConsumerGroup, job: ImportJob, entry: nat,
                        ghost c: World, ghost s0: State, ghost t: Track, ghost w: int)
    returns (ghost t': Track)
    requires Simulates(c, s0, t, w, entry, db, group, job) && t.s.workers[w].phase.Finished?
    modifies db, group, job
    ensures Delivered(c, s0, t', w, db, group) && entry !in group.pending
    ensures Counted(db, job.id, old(job.retries))
    ensures old(job.status) != Queued ==> db.jobs[job.id].status == Queued
  {
    t' := YieldWithJob(db, group, job, c, s0, t, w, entry);
    StepFollows(c, s0, t', Fail(w, ReplyLost));
    LeavingStep(c, t'.s, w, Fail(w, ReplyLost));
    AcknowledgeAndRequeue(db, group, job, entry);
    t' := Then(c, t', Fail(w, ReplyLost));
  }

  // The job has used up its retries.
  method RetireAndAcknowledge(db: Database, group: Queue.ConsumerGroup, job: ImportJob, entry: nat, faults: Faults,
                              ghost c: World, ghost s0: State, ghost t: Track, ghost w: int)
    returns (returned: bool, ghost t': Track)
    requires Simulates(c, s0, t, w, entry, db, group, job) && t.s.workers[w].phase.Retiring?
    modifies db, group, job
    ensures Delivered(c, s0, t', w, db, group)
    ensures returned <==> faults.reply.Heard? && faults.steps > 1
    ensures returned ==> entry !in group.pending
    ensures faults.steps > 0 ==> job.id in t'.s.history && t'.s.history[job.id].failed
  {
    if faults.steps == 0 {
      returned := false;
      t' := Lose(db, group, c, s0, t, w, entry);
      return;
    }
    t' := MarkRetired(db, group, job, c, s0, t, w, entry);
    returned := faults.reply.Heard? && faults.steps > 1;
    t' := AcknowledgeOrLose(db, group, entry, if faults.steps > 1 then faults.reply else Unsent, c, s0, t', w);
  }

  // Nothing goes wrong but what the file itself brings.
  predicate Undisturbed(faults: Faults, rows: nat) {
    faults.steps > rows + 2 && faults.opens && faults.readable >= rows && faults.reply.Heard?
  }

  // Nothing but the loss of the reply to the acknowledgement.
  predicate ReplyIsLost(faults: Faults, rows: nat) {
    faults.steps > rows + 3 && faults.opens && faults.readable >= rows && faults.reply.Unheard?
  }

  lemma ImportableMeans(file: File, k: nat)
    ensures Outcomes.Importable(file, k) ==> file.columnsOk && NoneRaises(file.rows, k, |file.rows|) && Recovery.Accepts(file.rows, k)
  {
    if Outcomes.Importable(file, k) {
      forall i | k <= i < |file.rows|
        ensures !file.rows[i].Raises? && !Guarantees.Refused(file.rows, k, i)
      {
        assert !Guarantees.Blocks(file.rows, k, i);
      }
    }
  }

  // ack_job after an import, within the handler's reach.
  method AcknowledgeImported(db: Database, group: Queue.ConsumerGroup, job: ImportJob, entry: nat, reply: Sending, lives: nat,
                             ghost c: World, ghost s0: State, ghost t: Track, ghost w: int)
    returns (returned: bool, ghost t': Track)
    requires Simulates(c, s0, t, w, entry, db, group, job) && t.s.workers[w].phase.Finished? && lives > 0
    modifies db, group, job
    ensures Delivered(c, s0, t', w, db, group)
    ensures returned <==> reply.Heard?
    ensures !reply.Unsent? ==> entry !in group.pending
    ensures reply.Heard? ==> OnRecord(t.s, t'.s)
    ensures !reply.Heard? && lives > 1 ==> Counted(db, job.id, old(job.retries))
  {
    returned := reply.Heard?;
    match reply
    case Heard => t' := AcknowledgeOrLose(db, group, entry, reply, c, s0, t, w);
    case Unsent => t' := CountFailure(db, group, job, Unexpected, lives, c, s0, t, w, entry);
    case Unheard =>
      if lives > 1 {
        t' := CountLostReply(db, group, job, entry, c, s0, t, w);
      } else {
        t' := AcknowledgeOrLose(db, group, entry, reply, c, s0, t, w);
      }
  }

  // What process_entry does once the job is loaded and is to be imported.
  method ImportAndAcknowledge(py: Python, db: Database, cache: SummaryCache.Cache, group: Queue.ConsumerGroup, job: ImportJob,
                              upload: Upload, batchSize: int, entry: nat, faults: Faults,
                              ghost c: World, ghost s0: State, ghost t: Track, ghost w: int)
    returns (returned: bool, ghost t': Track)
    requires Simulates(c, s0, t, w, entry, db, group, job) && t.s.workers[w].phase.Starting?
    requires c.files[job.id] == File(upload.HasColumns(), ClassifyAll(py, upload.rows)) && c.batchSize == batchSize
    modifies db, cache, group, job
    ensures Delivered(c, s0, t', w, db, group)
    ensures returned ==> entry !in group.pending
    ensures returned ==> job.id in t'.s.history
                             && if upload.HasColumns() then t'.s.history[job.id].completed else t'.s.history[job.id].failed
    ensures Undisturbed(faults, |upload.rows|) && (upload.HasColumns() ==> Outcomes.Importable(c.files[job.id], old(job.checkpoint)))
            ==> returned
    ensures faults.steps > |upload.rows| + 3 && Recovery.Accepts(c.files[job.id].rows, old(job.checkpoint))
            ==> returned || Counted(db, job.id, old(job.retries))
    ensures ReplyIsLost(faults, |upload.rows|) && Outcomes.Importable(c.files[job.id], old(job.checkpoint))
            ==> !returned && entry !in group.pending && Counted(db, job.id, old(job.retries))
  {
    ImportableMeans(c.files[job.id], job.checkpoint);
    var end, steps;
    end, steps, t' := RunImport(py, db, cache, group, job, upload, batchSize, faults, c, s0, t, w, entry);
    if end.Returned? && steps > 0 {
      returned, t' := AcknowledgeImported(db, group, job, entry, faults.reply, steps, c, s0, t', w);
    } else {
      returned := false;
      if end.Raised? {
        t' := CountFailure(db, group, job, CauseOf(end), steps, c, s0, t', w, entry);
      } else {
        t' := Lose(db, group, c, s0, t', w, entry);
      }
    }
  }

  // Loading the job: the worker's first look at it.
  lemma LoadedJob(c: World, s0: State, t: Track, w: int, e: nat, db: Database, group: Queue.ConsumerGroup)
    requires Follows(c, s0, t, db, group) && w !in t.s.workers && e < group.delivered
    requires group.stream[e] in db.jobs ==> Safe(c, t.s)
    ensures Enabled(c, t.s, Begin(w, e))
    ensures InHand(c, s0, Then(c, t, Begin(w, e)), w, e, db, group)
    ensures var s, j := Next(c, t.s, Begin(w, e)), group.stream[e];
            if j in db.jobs then Safe(c, s) && Holds(c, s, w) && s.workers[w] == Worker(e, j, db.jobs[j], FirstPhase(db.jobs[j]))
            else s.workers[w].phase.Dropping?
  {
    if group.stream[e] in db.jobs {
      assert JobOk(c, t.s, group.stream[e]);
    }
    StepFollows(c, s0, t, Begin(w, e));
  }

  // What a delivery owes a job whose row it loads as `row`, whatever the others do.
  ghost predicate Owed(c: World, id: JobId, row: JobRow, faults: Faults, returned: bool, s: State, db: Database,
                       pending: bool)
    requires id in c.files
    reads db
  {
    var file := c.files[id];
    // Undisturbed, it is acknowledged with the outcome on record.
    && (Undisturbed(faults, |file.rows|) ==>
          if row.status == Completed then returned
          else if row.retries >= MAX_RETRIES || !file.columnsOk then returned && id in s.history && s.history[id].failed
          else Outcomes.Importable(file, row.checkpoint) ==> returned && id in s.history && s.history[id].completed)
    // As long as the process lives and the database accepts the rows, an import that is
    // not acknowledged is counted.
    && (faults.steps > |file.rows| + 3 && Recovery.Accepts(file.rows, row.checkpoint)
        && row.status != Completed && row.retries < MAX_RETRIES
        ==> returned || Counted(db, id, row.retries))
    // Counted it is even when all went well and the reply to the acknowledgement was
    // lost, and then the entry is gone.
    && (ReplyIsLost(faults, |file.rows|) && Outcomes.Importable(file, row.checkpoint)
        && row.status != Completed && row.retries < MAX_RETRIES
        ==> !returned && !pending && Counted(db, id, row.retries))
  }

  // A delivery that nothing can spoil: undisturbed, of a file that has no raising row and
  // none the database objects to.
  predicate Harmless(c: World, id: JobId, faults: Faults) {
    && id in c.files && Undisturbed(faults, |c.files[id].rows|)
    && (c.files[id].columnsOk ==> Recovery.Storable(c.files[id].rows) && NoneRaises(c.files[id].rows, 0, |c.files[id].rows|))
  }

  lemma HarmlessIsAcknowledged(c: World, id: JobId, row: JobRow, faults: Faults, returned: bool, s: State, db: Database,
                               pending: bool)
    requires id in c.files && Owed(c, id, row, faults, returned, s, db, pending) && Harmless(c, id, faults)
    ensures returned
  {
    var file := c.files[id];
    if file.columnsOk {
      forall i | row.checkpoint <= i < |file.rows|
        ensures !Guarantees.Blocks(file.rows, row.checkpoint, i)
      {
        assert !file.rows[i].Raises?;
      }
      assert Outcomes.Importable(file, row.checkpoint);
    }
  }

  // process_entry.
  method ProcessEntry(py: Python, db: Database, cache: SummaryCache.Cache, group: Queue.ConsumerGroup,
                      storage: map<JobId, Upload>, batchSize: int, entry: nat, faults: Faults,
                      ghost c: World, ghost s0: State, ghost t: Track, ghost w: int)
    returns (returned: bool, ghost t': Track)
    requires Follows(c, s0, t, db, group) && w !in t.s.workers && entry < group.delivered
    requires Describes(c, py, storage, batchSize)
    requires group.stream[entry] in db.jobs ==> Safe(c, t.s)
    modifies db, cache, group
    ensures Delivered(c, s0, t', w, db, group)
    ensures returned ==> entry !in group.pending
    ensures old(group.stream[entry] in db.jobs) ==>
              && old(group.stream[entry]) in c.files
              && Owed(c, old(group.stream[entry]), old(db.jobs[group.stream[entry]]), faults, returned, t'.s, db,
                      entry in group.pending)
    ensures old(group.stream[entry] !in db.jobs) ==> (returned <==> faults.reply.Heard? && faults.steps > 0)
  {
    var id := group.stream[entry];
    LoadedJob(c, s0, t, w, entry, db, group);
    t' := Then(c, t, Begin(w, entry));
    if id !in db.jobs {
      returned := faults.reply.Heard? && faults.steps > 0;
      t' := AcknowledgeOrLose(db, group, entry, if faults.steps > 0 then faults.reply else Unsent, c, s0, t', w);
      return;
    }
    var job := new ImportJob(id, db.jobs[id]);
    if job.status == Completed {
      returned := faults.reply.Heard? && faults.steps > 0;
      t' := AcknowledgeOrLose(db, group, entry, if faults.steps > 0 then faults.reply else Unsent, c, s0, t', w);
    } else if job.retries >= MAX_RETRIES {
      returned, t' := RetireAndAcknowledge(db, group, job, entry, faults, c, s0, t', w);
    } else {
      returned, t' := ImportAndAcknowledge(py, db, cache, group, job, storage[id], batchSize, entry, faults, c, s0, t', w);
    }
  }

  // ---------- The loop ----------

  const CLAIM_COUNT := 50

  lemma TracksCompose(c: World, s0: State, t: Track, rest: Track, db: Database, group: Queue.ConsumerGroup)
    requires Run(ANY_INTERLEAVING, c, s0, t.actions, t.s) && Onward(s0, t.s) && (Safe(c, s0) ==> Safe(c, t.s))
    requires Follows(c, t.s, rest, db, group)
    ensures Follows(c, s0, Track(t.actions + rest.actions, rest.s), db, group)
  {
    Recovery.RunThenRun(ANY_INTERLEAVING, c, s0, t.actions, t.s, rest.actions, rest.s);
  }

  // One of the entries a round has in its list, the others going on around it.
  method ProcessNext(py: Python, db: Database, cache: SummaryCache.Cache, group: Queue.ConsumerGroup,
                     storage: map<JobId, Upload>, batchSize: int, entry: nat, faults: Faults,
                     ghost c: World, ghost s0: State, ghost t: Track, ghost w: int)
    returns (returned: bool, ghost t': Track)
    requires Safe(c, s0) && Delivered(c, s0, t, w, db, group) && Describes(c, py, storage, batchSize)
    requires entry < group.delivered
    modifies db, cache, group
    ensures Delivered(c, s0, t', w, db, group) && Onward(t.s, t'.s)
    ensures returned ==> entry !in group.pending
    ensures Harmless(c, old(group.stream[entry]), faults) ==> returned
  {
    ghost var id := group.stream[entry];
    ghost var rest := Yield(db, group, c, t.s, Track([], t.s), w);
    assert group.stream[entry] == id && id in db.jobs;
    ghost var row := db.jobs[id];
    returned, rest := ProcessEntry(py, db, cache, group, storage, batchSize, entry, faults, c, t.s, rest, w);
    if Harmless(c, id, faults) {
      HarmlessIsAcknowledged(c, id, row, faults, returned, rest.s, db, entry in group.pending);
    }
    TracksCompose(c, s0, t, rest, db, group);
    t' := Track(t.actions + rest.actions, rest.s);
  }

  // Of these delivered entries the first n are not pending.
  predicate Gone(entries: seq<nat>, n: nat, s: State) {
    && n <= |entries|
    && (forall k :: 0 <= k < |entries| ==> entries[k] < s.delivered)
    && (forall k :: 0 <= k < n ==> entries[k] !in s.pending)
  }

  lemma GoneStays(entries: seq<nat>, n: nat, s: State, s': State)
    requires Gone(entries, n, s) && Onward(s, s') && n < |entries| && entries[n] !in s'.pending
    ensures Gone(entries, n + 1, s')
  {
  }

  predicate AllHarmless(c: World, stream: seq<JobId>, entries: seq<nat>, faults: nat -> Faults) {
    forall k :: 0 <= k < |entries| ==> entries[k] < |stream| && Harmless(c, stream[entries[k]], faults(entries[k]))
  }

  // One of the two `for` loops; an exception leaves it.
  method ProcessAll(py: Python, db: Database, cache: SummaryCache.Cache, group: Queue.ConsumerGroup,
                    storage: map<JobId, Upload>, batchSize: int, entries: seq<nat>, faults: nat -> Faults,
                    ghost c: World, ghost s0: State, ghost t: Track, ghost w: int)
    returns (raised: bool, ghost t': Track)
    requires Safe(c, s0) && Delivered(c, s0, t, w, db, group) && Describes(c, py, storage, batchSize)
    requires Gone(entries, 0, t.s)
    modifies db, cache, group
    ensures Delivered(c, s0, t', w, db, group)
    ensures Onward(t.s, t'.s)
    ensures !raised ==> Gone(entries, |entries|, t'.s)
    ensures AllHarmless(c, old(group.stream), entries, faults) ==> !raised
  {
    raised, t' := false, t;
    for i := 0 to |entries|
      invariant Delivered(c, s0, t', w, db, group) && !raised
      invariant Gone(entries, i, t'.s) && Onward(t.s, t'.s)
    {
      var returned;
      ghost var before := t'.s;
      returned, t' := ProcessNext(py, db, cache, group, storage, batchSize, entries[i], faults(entries[i]), c, s0, t', w);
      if !returned {
        raised := true;
        return;
      }
      GoneStays(entries, i, before, t'.s);
    }
  }

  lemma DeliverAdvances(c: World, s: State)
    ensures s.delivered < |s.stream| ==>
              && Enabled(c, s, Deliver)
              && Next(c, s, Deliver) == s.(delivered := s.delivered + 1, pending := s.pending + {s.delivered})
  {
  }

  // read_new_jobs with a count of one.
  method ReadOne(db: Database, group: Queue.ConsumerGroup, consumer: string, now: int,
                 ghost c: World, ghost s0: State, ghost t: Track, ghost w: int)
    returns (entries: seq<nat>, ghost t': Track)
    requires Delivered(c, s0, t, w, db, group)
    modifies group
    ensures Delivered(c, s0, t', w, db, group)
    ensures Gone(entries, 0, t'.s)
    ensures entries == if t.s.delivered == |t.s.stream| then [] else [t.s.delivered]
    ensures Onward(t.s, t'.s) && t'.s.delivered == t.s.delivered + |entries|
    ensures entries != [] ==> entries[0] in group.pending && group.pending[entries[0]] == Queue.Claim(consumer, now)
  {
    t' := t;
    DeliverAdvances(c, t.s);
    entries := group.ReadNext(consumer, now);
    if entries != [] {
      StepFollows(c, s0, t, Deliver);
      t' := Then(c, t, Deliver);
    }
  }

  // reclaim_stale_jobs: the entries found change hands. The protocol's state does not
  // change.
  method ReclaimStale(group: Queue.ConsumerGroup, consumer: string, idle: int, now: int) returns (entries: seq<nat>)
    requires group.Valid()
    modifies group`pending
    ensures group.Valid() && group.pending.Keys == old(group.pending).Keys
    ensures forall e: nat :: e in entries <==> Queue.Found(old(group.pending), e, idle, CLAIM_COUNT, now)
    ensures forall e :: e in group.pending ==>
                          group.pending[e] == if e in entries then Queue.Claim(consumer, now) else old(group.pending)[e]
    ensures forall k :: 0 <= k < |entries| ==> entries[k] in group.pending
    // A claim that is younger stays, and a short list keeps no older one.
    ensures forall e :: e in group.pending && now - old(group.pending)[e].since < idle
                        ==> group.pending[e] == old(group.pending)[e]
    ensures |old(group.pending)| <= CLAIM_COUNT ==>
              forall e :: e in group.pending && now - old(group.pending)[e].since >= idle
                          ==> group.pending[e] == Queue.Claim(consumer, now)
  {
    entries := group.Reclaim(consumer, idle, CLAIM_COUNT, now);
  }

  // What one round of the loop meets: what becomes of its two calls, the clock at each,
  // and the faults of each delivery.
  datatype Round = Round(
    claiming: Sending,
    claimedAt: int,
    reclaimed: nat -> Faults,
    reading: Sending,
    readAt: int,
    latest: nat -> Faults
  )

  // The round hears from the server, and no delivery of it can be spoilt.
  ghost predicate Smooth(c: World, round: Round) {
    && round.claiming.Heard? && round.reading.Heard?
    && forall e: nat, id :: id in c.files ==> Harmless(c, id, round.reclaimed(e)) && Harmless(c, id, round.latest(e))
  }

  lemma SmoothIsHarmless(c: World, s: State, round: Round, entries: seq<nat>)
    requires Safe(c, s) && Smooth(c, round) && Gone(entries, 0, s)
    ensures AllHarmless(c, s.stream, entries, round.reclaimed) && AllHarmless(c, s.stream, entries, round.latest)
  {
    forall k | 0 <= k < |entries|
      ensures entries[k] < |s.stream| && s.stream[entries[k]] in c.files
    {
      assert s.stream[entries[k]] in s.db.jobs;
      assert JobOk(c, s, s.stream[entries[k]]);
    }
  }

  // Every one of these entries has left the pending list, with an outcome on record.
  predicate Done(entries: seq<nat>, s: State) {
    forall k :: 0 <= k < |entries| ==>
                  entries[k] < s.delivered <= |s.stream| && entries[k] !in s.pending && Settled(s, entries[k])
  }

  lemma GoneIsDone(c: World, entries: seq<nat>, s: State)
    requires Safe(c, s) && Gone(entries, |entries|, s)
    ensures Done(entries, s)
  {
  }

  lemma DoneStays(c: World, entries: seq<nat>, s: State, s': State)
    requires Safe(c, s') && Done(entries, s) && Onward(s, s')
    ensures Done(entries, s')
  {
    forall k | 0 <= k < |entries|
      ensures Settled(s', entries[k])
    {
      assert entries[k] < s'.delivered && entries[k] !in s'.pending;
    }
  }

  // The protocol does not see a claim change hands.
  method ClaimStale(db: Database, group: Queue.ConsumerGroup, consumer: string, idle: int, now: int,
                    ghost c: World, ghost s: State, ghost w: int)
    returns (entries: seq<nat>)
    requires Safe(c, s) && Mirrors(s, db, group) && w !in s.workers
    modifies group`pending
    ensures Delivered(c, s, Track([], s), w, db, group) && Gone(entries, 0, s)
    ensures forall e: nat :: e in entries <==> Queue.Found(old(group.pending), e, idle, CLAIM_COUNT, now)
  {
    // Nothing here depends on what these say.
    hide Queue.Found, Safe;
    entries := ReclaimStale(group, consumer, idle, now);
    assert forall k :: 0 <= k < |entries| ==> entries[k] in s.pending;
  }

  // The first half of a round: reclaim, and process what was found.
  method ReclaimAndProcess(py: Python, db: Database, cache: SummaryCache.Cache, group: Queue.ConsumerGroup,
                           storage: map<JobId, Upload>, batchSize: int, consumer: string, idle: int, round: Round,
                           ghost c: World, ghost s: State, ghost w: int)
    returns (raised: bool, ghost found: seq<nat>, ghost t: Track)
    requires Safe(c, s) && Mirrors(s, db, group) && w !in s.workers && Describes(c, py, storage, batchSize)
    modifies db, cache, group
    ensures Delivered(c, s, t, w, db, group)
    ensures if round.claiming.Unsent? then found == []
            else forall e: nat :: e in found <==> Queue.Found(old(group.pending), e, idle, CLAIM_COUNT, round.claimedAt)
    ensures !raised ==> Done(found, t.s)
    ensures !round.claiming.Heard? ==> raised
    ensures Smooth(c, round) ==> !raised
  {
    t, found := Track([], s), [];
    if round.claiming.Unsent? {
      return true, [], t;
    }
    // Nothing here depends on what these say.
    hide Queue.Found, Run;
    var entries := ClaimStale(db, group, consumer, idle, round.claimedAt, c, s, w);
    found := entries;
    if round.claiming.Unheard? {
      return true, found, t;
    }
    if Smooth(c, round) {
      SmoothIsHarmless(c, s, round, entries);
    }
    raised, t := ProcessAll(py, db, cache, group, storage, batchSize, entries, round.reclaimed, c, s, t, w);
    if !raised {
      GoneIsDone(c, found, t.s);
    }
  }

  // The second half: read one new entry, if there is one, and process it.
  method ReadAndProcess(py: Python, db: Database, cache: SummaryCache.Cache, group: Queue.ConsumerGroup,
                        storage: map<JobId, Upload>, batchSize: int, consumer: string, round: Round,
                        ghost c: World, ghost s: State, ghost w: int)
    returns (raised: bool, ghost read: seq<nat>, ghost t: Track)
    requires Safe(c, s) && Mirrors(s, db, group) && w !in s.workers && Describes(c, py, storage, batchSize)
    modifies db, cache, group
    ensures Delivered(c, s, t, w, db, group)
    ensures read == if round.reading.Unsent? || s.delivered == |s.stream| then [] else [s.delivered]
    ensures s.delivered + |read| <= t.s.delivered
    ensures !raised ==> Done(read, t.s)
    ensures !round.reading.Heard? ==> raised
    ensures Smooth(c, round) ==> !raised
  {
    t, read := Track([], s), [];
    if round.reading.Unsent? {
      return true, [], t;
    }
    var entries;
    entries, t := ReadOne(db, group, consumer, round.readAt, c, s, t, w);
    read := entries;
    if round.reading.Unheard? {
      return true, read, t;
    }
    // Nothing here depends on what this says.
    hide Run;
    if Smooth(c, round) {
      SmoothIsHarmless(c, t.s, round, entries);
    }
    raised, t := ProcessAll(py, db, cache, group, storage, batchSize, entries, round.latest, c, s, t, w);
    if !raised {
      GoneIsDone(c, read, t.s);
    }
  }

  // What a round did: the pending list it met and the entries it found in it, whether it
  // got through those; how far the group had been handed entries when it read, of how
  // many; what it read, and whether it got through that.
  datatype Report = Report(
    met: map<nat, Queue.Claim>,
    found: seq<nat>,
    reclaimed: bool,
    at: nat,
    length: nat,
    read: seq<nat>,
    finished: bool
  )

  // The report of a round that took place between these two states. Whatever is stale
  // and within reach is reclaimed, the next entry there is is read, all of it is
  // processed to an outcome unless something raises, and nothing raises in a smooth one.
  ghost predicate Reported(c: World, report: Report, round: Round, idle: int, s: State, s': State) {
    && (forall e :: e in s'.pending && e < s.delivered ==> e in report.met)
    && (if round.claiming.Unsent? then report.found == []
        else forall e: nat :: e in report.found <==> Queue.Found(report.met, e, idle, CLAIM_COUNT, round.claimedAt))
    && (report.reclaimed ==>
          && Done(report.found, s')
          && s.delivered <= report.at <= report.length && |s.stream| <= report.length
          && report.read == (if round.reading.Unsent? || report.at == report.length then [] else [report.at])
          && report.at + |report.read| <= s'.delivered)
    && (report.finished ==> report.reclaimed && Done(report.read, s'))
    && (Smooth(c, round) ==> report.finished)
  }

  lemma ReportStands(c: World, report: Report, round: Round, idle: int, s0: State, s: State, s': State, s'': State)
    requires Reported(c, report, round, idle, s, s') && Safe(c, s'')
    requires Onward(s0, s) && Onward(s, s') && Onward(s', s'')
    ensures Reported(c, report, round, idle, s0, s'')
  {
    if report.reclaimed {
      DoneStays(c, report.found, s', s'');
    }
    if report.finished {
      DoneStays(c, report.read, s', s'');
    }
    // Nothing here depends on what these say.
    hide Safe, Done, Queue.Found, Smooth;
  }

  // A round that found these entries and got to `early` with them, read in `mid`, and
  // ended in s'.
  lemma ReportOfWholeRound(c: World, report: Report, round: Round, idle: int, s: State, early: State, mid: State, s': State)
    requires Onward(s, early) && Onward(early, mid) && Onward(mid, s') && Safe(c, mid) && Safe(c, s')
    requires report.met.Keys == s.pending && report.reclaimed && !round.claiming.Unsent? && Done(report.found, early)
    requires forall e: nat :: e in report.found <==> Queue.Found(report.met, e, idle, CLAIM_COUNT, round.claimedAt)
    requires report.at == mid.delivered && report.length == |mid.stream|
    requires report.read == (if round.reading.Unsent? || mid.delivered == |mid.stream| then [] else [mid.delivered])
    requires mid.delivered + |report.read| <= s'.delivered
    requires report.finished ==> Done(report.read, s')
    requires Smooth(c, round) ==> report.finished
    ensures Reported(c, report, round, idle, s, s')
  {
    DoneStays(c, report.found, early, mid);
    DoneStays(c, report.found, mid, s');
    assert mid.delivered <= |mid.stream|;
    // Nothing here depends on what these say.
    hide Safe, Done, Queue.Found, Smooth;
  }

  // And one that did not get past the first half.
  lemma ReportOfHalfRound(c: World, report: Report, round: Round, idle: int, s: State, s': State)
    requires Onward(s, s') && report.met.Keys == s.pending && !report.reclaimed && !report.finished && !Smooth(c, round)
    requires if round.claiming.Unsent? then report.found == []
             else forall e: nat :: e in report.found <==> Queue.Found(report.met, e, idle, CLAIM_COUNT, round.claimedAt)
    ensures Reported(c, report, round, idle, s, s')
  {
  }

  // One round of worker_loop. An exception leaves the rest of it out.
  method WorkerRound(py: Python, db: Database, cache: SummaryCache.Cache, group: Queue.ConsumerGroup,
                     storage: map<JobId, Upload>, batchSize: int, consumer: string, idle: int, round: Round,
                     ghost c: World, ghost s: State, ghost w: int)
    returns (ghost report: Report, ghost t: Track)
    requires Safe(c, s) && Mirrors(s, db, group) && w !in s.workers && Describes(c, py, storage, batchSize)
    modifies db, cache, group
    ensures Delivered(c, s, t, w, db, group)
    ensures report.met == old(group.pending) && Reported(c, report, round, idle, s, t.s)
  {
    ghost var met := group.pending;
    var raised;
    ghost var found, read;
    raised, found, t := ReclaimAndProcess(py, db, cache, group, storage, batchSize, consumer, idle, round, c, s, w);
    report := Report(met, found, !raised, 0, 0, [], false);
    // What is left to show is read off the lemmas.
    hide Queue.Found, Run, Smooth, Reported, Done, Safe;
    if raised {
      ReportOfHalfRound(c, report, round, idle, s, t.s);
    } else {
      ghost var early := t.s;
      t := Yield(db, group, c, s, t, w);
      ghost var mid := t.s;
      ghost var rest;
      raised, read, rest := ReadAndProcess(py, db, cache, group, storage, batchSize, consumer, round, c, mid, w);
      TracksCompose(c, s, t, rest, db, group);
      t := Track(t.actions + rest.actions, rest.s);
      report := Report(met, found, true, mid.delivered, |mid.stream|, read, !raised);
      ReportOfWholeRound(c, report, round, idle, s, early, mid, t.s);
    }
  }

  predicate ReadsOn(s0: State, n: nat, s: State) {
    s.delivered >= if s0.delivered + n < |s0.stream| then s0.delivered + n else |s0.stream|
  }

  lemma SmoothRoundReadsOn(c: World, report: Report, round: Round, idle: int, s0: State, n: nat, s: State, s': State, s'': State)
    requires Reported(c, report, round, idle, s, s') && Onward(s0, s) && Onward(s', s'')
    requires ReadsOn(s0, n, s) && Smooth(c, round)
    ensures ReadsOn(s0, n + 1, s'')
  {
  }

  // What holds of the loop after some rounds.
  ghost predicate LoopReported(c: World, reports: seq<Report>, rounds: seq<Round>, idle: int, s0: State, s: State)
  {
    && |reports| <= |rounds|
    && (forall k :: 0 <= k < |reports| ==> Reported(c, reports[k], rounds[k], idle, s0, s))
    && ((forall k :: 0 <= k < |reports| ==> Smooth(c, rounds[k])) ==> ReadsOn(s0, |reports|, s))
  }

  lemma OneMoreReport(c: World, reports: seq<Report>, report: Report, rounds: seq<Round>, idle: int,
                      s0: State, s: State, s': State, s'': State)
    requires |reports| < |rounds| && LoopReported(c, reports, rounds, idle, s0, s)
    requires Reported(c, report, rounds[|reports|], idle, s, s') && Safe(c, s') && Safe(c, s'')
    requires Onward(s0, s) && Onward(s, s') && Onward(s', s'')
    ensures LoopReported(c, reports + [report], rounds, idle, s0, s'')
  {
    // What is left to show is read off the lemmas.
    hide Reported, Smooth, Safe, ReadsOn;
    var n, all := |reports|, reports + [report];
    OnwardTwice(s, s', s'');
    ReportStands(c, report, rounds[n], idle, s0, s, s', s'');
    forall k | 0 <= k < n
      ensures Reported(c, all[k], rounds[k], idle, s0, s'')
    {
      ReportStands(c, reports[k], rounds[k], idle, s0, s0, s, s'');
    }
    if forall k :: 0 <= k < |all| ==> Smooth(c, rounds[k]) {
      SmoothRoundReadsOn(c, report, rounds[n], idle, s0, n, s, s', s'');
    }
  }

  lemma OnwardTwice(s: State, s': State, s'': State)
    requires Onward(s, s') && Onward(s', s'')
    ensures Onward(s, s'')
  {
  }

  // A round, and then the others' turn.
  method RoundThenOthers(py: Python, db: Database, cache: SummaryCache.Cache, group: Queue.ConsumerGroup,
                         storage: map<JobId, Upload>, batchSize: int, consumer: string, idle: int, rounds: seq<Round>, i: nat,
                         ghost c: World, ghost s0: State, ghost reports: seq<Report>, ghost t: Track, ghost w: int)
    returns (ghost reports': seq<Report>, ghost t': Track)
    requires Safe(c, s0) && Delivered(c, s0, t, w, db, group) && Describes(c, py, storage, batchSize)
    requires |reports| == i < |rounds| && LoopReported(c, reports, rounds, idle, s0, t.s)
    modifies db, cache, group
    ensures Delivered(c, s0, t', w, db, group) && LoopReported(c, reports', rounds, idle, s0, t'.s)
    ensures |reports'| == |reports| + 1 && reports == reports'[..|reports|] && reports'[|reports|].met == old(group.pending)
  {
    ghost var before := t.s;
    ghost var report, rest;
    // What is left to show is read off the lemmas.
    hide LoopReported, Reported, Run, Safe;
    report, rest := WorkerRound(py, db, cache, group, storage, batchSize, consumer, idle, rounds[i], c, before, w);
    TracksCompose(c, s0, t, rest, db, group);
    t' := Track(t.actions + rest.actions, rest.s);
    ghost var after := t'.s;
    t' := Yield(db, group, c, s0, t', w);
    OneMoreReport(c, reports, report, rounds, idle, s0, before, after, t'.s);
    reports' := reports + [report];
  }

  // worker_loop, for as many rounds as pass before the shutdown flag is set: entries left
  // idle by anyone are reclaimed, then one new entry is read. Whatever befalls it and
  // whatever the others do meanwhile, all together perform a run of the protocol, every
  // round does what its report says, and as many smooth rounds as there are entries leave
  // none undelivered.
  method WorkerLoop(py: Python, db: Database, cache: SummaryCache.Cache, group: Queue.ConsumerGroup,
                    storage: map<JobId, Upload>, batchSize: int, consumer: string, idle: int, rounds: seq<Round>,
                    ghost c: World, ghost s0: State, ghost w: int)
    returns (ghost reports: seq<Report>, ghost t: Track)
    requires Safe(c, s0) && Mirrors(s0, db, group) && w !in s0.workers
    requires Describes(c, py, storage, batchSize)
    modifies db, cache, group
    ensures Delivered(c, s0, t, w, db, group) && Safe(c, t.s)
    ensures Reachable(ANY_INTERLEAVING, c, s0) ==> Reachable(ANY_INTERLEAVING, c, t.s)
    ensures |reports| == |rounds| && forall i :: 0 <= i < |rounds| ==> Reported(c, reports[i], rounds[i], idle, s0, t.s)
    ensures rounds != [] ==> reports[0].met == old(group.pending)
    ensures (forall i :: 0 <= i < |rounds| ==> Smooth(c, rounds[i])) ==> ReadsOn(s0, |rounds|, t.s)
  {
    t, reports := Track([], s0), [];
    for i := 0 to |rounds|
      invariant Delivered(c, s0, t, w, db, group) && |reports| == i && LoopReported(c, reports, rounds, idle, s0, t.s)
      invariant if i > 0 then reports[0].met == old(group.pending) else group.pending == old(group.pending)
    {
      reports, t := RoundThenOthers(py, db, cache, group, storage, batchSize, consumer, idle, rounds, i, c, s0, reports, t, w);
    }
    ReachableThenRun(c, s0, t);
  }

  lemma ReachableThenRun(c: World, s0: State, t: Track)
    requires Run(ANY_INTERLEAVING, c, s0, t.actions, t.s)
    ensures Reachable(ANY_INTERLEAVING, c, s0) ==> Reachable(ANY_INTERLEAVING, c, t.s)
  {
    if Reachable(ANY_INTERLEAVING, c, s0) {
      var before :| Run(ANY_INTERLEAVING, c, Initial(c), before, s0);
      Recovery.RunThenRun(ANY_INTERLEAVING, c, Initial(c), before, s0, t.actions, t.s);
    }
  }
}
