/**
 What holds in every reachable state under any interleaving: any number of jobs,
 workers, crashes, counted failures, redeliveries and double claims.
 */
module Safety {
  import opened Common
  import opened Validation
  import opened Ledger
  import opened Protocol

  // ---------- The invariant ----------

  predicate Aligned(c: World, rows: seq<RowOutcome>, k: nat) {
    k == |rows| || k % BatchLength(c) == 0
  }

  // What every copy of a job row satisfies, the stored one and each worker's own,
  // however stale. The induction needs it of the stale ones: they write it back.
  predicate CopyOk(c: World, table: seq<Entry>, h: History, j: JobId, row: JobRow)
    requires j in c.files
  {
    var rows := c.files[j].rows;
    && row.checkpoint <= h.reach
    && row.checkpoint <= |rows|
    && Aligned(c, rows, row.checkpoint)
    && Covered(table, rows, row.checkpoint)
    && row.processed == row.checkpoint
    && row.successful + row.failed == row.checkpoint
    && row.failed >= 0
    && row.successful <= TaggedBelow(table, j, rows, row.checkpoint)
    && (row.total.Some? ==> row.total.value == |rows|)
    && (row.status.Completed? ==> h.completed && row.total.Some?)
    && (row.status.Failed? ==> h.failed)
  }

  // Every invalid row below row k has its error row.
  predicate ErrorsCovered(errors: seq<JobError>, j: JobId, rows: seq<RowOutcome>, k: nat)
    requires k <= |rows|
  {
    forall i :: 0 <= i < k && rows[i].Invalid? ==> JobError(j, RowError(i + 1, rows[i].id, rows[i].error)) in errors
  }

  predicate JobOk(c: World, s: State, j: JobId)
    requires j in s.db.jobs
  {
    && j in c.files && j in s.history
    && CopyOk(c, s.db.table, s.history[j], j, s.db.jobs[j])
    && ErrorsCovered(s.db.errors, j, c.files[j].rows, s.db.jobs[j].checkpoint)
    && s.history[j].reach <= |c.files[j].rows|
    && (s.history[j].completed ==> c.files[j].columnsOk && Covered(s.db.table, c.files[j].rows, |c.files[j].rows|)
                                   && ErrorsCovered(s.db.errors, j, c.files[j].rows, |c.files[j].rows|)
                                   && s.history[j].reach == |c.files[j].rows|)
  }

  predicate PhaseOk(c: World, h: History, worker: Worker)
    requires worker.job in c.files
  {
    var file := c.files[worker.job];
    var row := worker.local;
    match worker.phase
    case Dropping => false
    case Skipping => h.completed || h.failed
    case Retiring => row.retries >= MAX_RETRIES && !row.status.Completed?
    case Starting => row.retries < MAX_RETRIES && !row.status.Completed?
    case NoColumns => row.status.Processing? && !file.columnsOk
    case Running(start, seen) =>
      && row.status.Processing? && file.columnsOk
      && start <= row.checkpoint <= |file.rows|
      && seen == ValidIds(file.rows, start, row.checkpoint)
    case Finished => h.completed || h.failed
  }

  predicate WorkerOk(c: World, s: State, w: int)
    requires w in s.workers
  {
    var worker := s.workers[w];
    && Holds(c, s, w)
    && worker.entry < s.delivered
    && worker.entry < |s.stream|
    && s.stream[worker.entry] == worker.job
    && CopyOk(c, s.db.table, s.history[worker.job], worker.job, worker.local)
    && ErrorsCovered(s.db.errors, worker.job, c.files[worker.job].rows, worker.local.checkpoint)
    && PhaseOk(c, s.history[worker.job], worker)
  }

  predicate EntryOk(c: World, s: State, k: nat)
    requires k < |s.db.table|
  {
    var e := s.db.table[k];
    && e.job in s.db.jobs && e.job in c.files
    && Genuine(e, e.job, c.files[e.job].rows)
  }

  predicate TableOk(c: World, s: State) {
    && c.before <= s.db.table
    && UniqueIds(s.db.table)
    && forall k :: |c.before| <= k < |s.db.table| ==> EntryOk(c, s, k)
  }

  // A recorded error is the one an uninterrupted import would record for that row.
  predicate ErrorOk(c: World, e: JobError) {
    && e.job in c.files
    && 1 <= e.error.rowNumber <= |c.files[e.job].rows|
    && ErrorsAt(c.files[e.job].rows, 0, e.error.rowNumber - 1) == [e.error]
  }

  predicate ErrorsOk(c: World, s: State) {
    forall k :: 0 <= k < |s.db.errors| ==> ErrorOk(c, s.db.errors[k]) && s.db.errors[k].job in s.db.jobs
  }

  predicate Settled(s: State, e: nat)
    requires e < |s.stream|
  {
    var j := s.stream[e];
    j in s.history && (s.history[j].completed || s.history[j].failed)
  }

  predicate StreamOk(s: State) {
    && s.delivered <= |s.stream|
    && (forall e :: 0 <= e < |s.stream| ==> s.stream[e] in s.db.jobs)
    && (forall e :: e in s.pending ==> e < s.delivered)
    && (forall e :: 0 <= e < s.delivered && e !in s.pending ==> Settled(s, e))
  }

  predicate Safe(c: World, s: State) {
    && (forall j :: j in s.db.jobs ==> JobOk(c, s, j))
    && (forall w :: w in s.workers ==> WorkerOk(c, s, w))
    && TableOk(c, s)
    && ErrorsOk(c, s)
    && StreamOk(s)
    && s.history.Keys == s.db.jobs.Keys
  }

  // ---------- Growth ----------

  predicate HistoryGrows(h: History, h': History) {
    && h.reach <= h'.reach
    && (h.completed ==> h'.completed)
    && (h.failed ==> h'.failed)
  }

  lemma CopyStaysOk(c: World, table: seq<Entry>, h: History, table': seq<Entry>, h': History, j: JobId, row: JobRow)
    requires j in c.files && CopyOk(c, table, h, j, row)
    requires table <= table' && HistoryGrows(h, h')
    ensures CopyOk(c, table', h', j, row)
  {
    CoveredGrows(table, table', c.files[j].rows, row.checkpoint);
    TaggedExtends(table, table', j, c.files[j].rows, row.checkpoint);
  }

  lemma ErrorsCoveredGrows(errors: seq<JobError>, errors': seq<JobError>, j: JobId, rows: seq<RowOutcome>, k: nat)
    requires k <= |rows| && ErrorsCovered(errors, j, rows, k) && errors <= errors'
    ensures ErrorsCovered(errors', j, rows, k)
  {
    forall e | e in errors
      ensures e in errors'
    {
      var n :| 0 <= n < |errors| && errors[n] == e;
      assert errors'[n] == e;
    }
  }

  // What a step leaves of the parts it does not touch.
  predicate Grows(s: State, s': State) {
    && s.db.table <= s'.db.table && s.db.errors <= s'.db.errors
    && (forall j :: j in s.db.jobs ==> j in s'.db.jobs)
    && (forall j :: j in s.history ==> j in s'.history && HistoryGrows(s.history[j], s'.history[j]))
    && s.stream <= s'.stream
    && s.delivered <= s'.delivered
  }

  lemma WorkerStaysOk(c: World, s: State, s': State, w: int)
    requires w in s.workers && WorkerOk(c, s, w) && Grows(s, s')
    requires w in s'.workers && s'.workers[w] == s.workers[w]
    ensures WorkerOk(c, s', w)
  {
    var worker := s.workers[w];
    CopyStaysOk(c, s.db.table, s.history[worker.job], s'.db.table, s'.history[worker.job], worker.job, worker.local);
    ErrorsCoveredGrows(s.db.errors, s'.db.errors, worker.job, c.files[worker.job].rows, worker.local.checkpoint);
  }

  lemma JobStaysOk(c: World, s: State, s': State, j: JobId)
    requires j in s.db.jobs && JobOk(c, s, j) && Grows(s, s')
    requires s'.db.jobs[j] == s.db.jobs[j]
    requires s'.history[j].completed ==> s.history[j].completed
    requires s'.history[j].reach == s.history[j].reach
    ensures JobOk(c, s', j)
  {
    CopyStaysOk(c, s.db.table, s.history[j], s'.db.table, s'.history[j], j, s.db.jobs[j]);
    ErrorsCoveredGrows(s.db.errors, s'.db.errors, j, c.files[j].rows, s.db.jobs[j].checkpoint);
    if s.history[j].completed {
      CoveredGrows(s.db.table, s'.db.table, c.files[j].rows, |c.files[j].rows|);
      ErrorsCoveredGrows(s.db.errors, s'.db.errors, j, c.files[j].rows, |c.files[j].rows|);
    }
  }

  // ---------- Each action keeps the invariant ----------

  // A step of worker w on job j that leaves every other job and worker alone.
  predicate OnlyTouches(s: State, s': State, j: JobId, w: int) {
    && Grows(s, s')
    && s'.stream == s.stream && s'.delivered == s.delivered && s'.pending == s.pending
    && s'.db.jobs.Keys == s.db.jobs.Keys
    && s'.history.Keys == s.history.Keys
    && (forall i :: i in s.db.jobs && i != j ==> s'.db.jobs[i] == s.db.jobs[i])
    && (forall i :: i in s.history && i != j ==> s'.history[i] == s.history[i])
    && (forall v :: v in s'.workers && v != w ==> v in s.workers && s'.workers[v] == s.workers[v])
  }

  lemma LocalStepKeepsSafe(c: World, s: State, s': State, j: JobId, w: int)
    requires Safe(c, s) && OnlyTouches(s, s', j, w) && j in s.db.jobs
    requires JobOk(c, s', j)
    requires w in s'.workers ==> WorkerOk(c, s', w)
    requires TableOk(c, s') && ErrorsOk(c, s')
    ensures Safe(c, s')
  {
    forall i | i in s'.db.jobs
      ensures JobOk(c, s', i)
    {
      if i != j {
        assert JobOk(c, s, i);
        JobStaysOk(c, s, s', i);
      }
    }
    forall v | v in s'.workers
      ensures WorkerOk(c, s', v)
    {
      if v != w {
        assert WorkerOk(c, s, v);
        WorkerStaysOk(c, s, s', v);
      }
    }
    forall e | 0 <= e < s'.delivered && e !in s'.pending
      ensures Settled(s', e)
    {
      assert Settled(s, e);
    }
  }

  lemma TableUntouched(c: World, s: State, s': State)
    requires Safe(c, s) && s'.db.table == s.db.table && s'.db.errors == s.db.errors
    requires forall j :: j in s.db.jobs ==> j in s'.db.jobs
    ensures TableOk(c, s') && ErrorsOk(c, s')
  {
    forall k | |c.before| <= k < |s'.db.table|
      ensures EntryOk(c, s', k)
    {
      assert EntryOk(c, s, k);
    }
  }

  // A step of worker w that writes its job row and nothing else in the database.
  predicate RowWrite(s: State, s': State, w: int)
    requires w in s.workers && s.workers[w].job in s.db.jobs
  {
    var j := s.workers[w].job;
    && OnlyTouches(s, s', j, w)
    && s'.db.table == s.db.table && s'.db.errors == s.db.errors
  }

  lemma RowWriteKeepsSafe(c: World, s: State, s': State, w: int)
    requires Safe(c, s) && w in s.workers && Holds(c, s, w) && RowWrite(s, s', w)
    requires JobOk(c, s', s.workers[w].job)
    requires w in s'.workers ==> WorkerOk(c, s', w)
    ensures Safe(c, s')
  {
    TableUntouched(c, s, s');
    LocalStepKeepsSafe(c, s, s', s.workers[w].job, w);
  }

  // Worker w's job row and own copy, seen through a history that only grew.
  lemma OwnCopiesStayOk(c: World, s: State, w: int, h': History)
    requires Safe(c, s) && Holds(c, s, w) && HistoryGrows(s.history[s.workers[w].job], h')
    ensures var j := s.workers[w].job;
            && WorkerOk(c, s, w) && JobOk(c, s, j)
            && CopyOk(c, s.db.table, h', j, s.db.jobs[j])
            && CopyOk(c, s.db.table, h', j, s.workers[w].local)
  {
    var j := s.workers[w].job;
    assert WorkerOk(c, s, w) && JobOk(c, s, j);
    CopyStaysOk(c, s.db.table, s.history[j], s.db.table, h', j, s.db.jobs[j]);
    CopyStaysOk(c, s.db.table, s.history[j], s.db.table, h', j, s.workers[w].local);
  }

  lemma StatusWriteIsRowWrite(c: World, s: State, a: Action)
    requires Safe(c, s) && Enabled(c, s, a) && (a.Retire? || a.RejectFile? || a.Start?)
    ensures RowWrite(s, Next(c, s, a), a.worker)
  {
    // Nothing here depends on what these say.
    hide JobOk, WorkerOk, TableOk, ErrorsOk, StreamOk;
  }

  lemma StatusWriteKeepsSafe(c: World, s: State, a: Action)
    requires Safe(c, s) && Enabled(c, s, a) && (a.Retire? || a.RejectFile? || a.Start?)
    ensures Safe(c, Next(c, s, a))
  {
    // Nothing here depends on what these say.
    hide TableOk, ErrorsOk, StreamOk, Aligned, Covered;
    var s' := Next(c, s, a);
    var w := a.worker;
    OwnCopiesStayOk(c, s, w, s'.history[s.workers[w].job]);
    StatusWriteIsRowWrite(c, s, a);
    hide RowWrite;
    RowWriteKeepsSafe(c, s, s', w);
  }

  lemma CompleteKeepsSafe(c: World, s: State, w: int)
    requires Safe(c, s) && Enabled(c, s, Complete(w))
    ensures Safe(c, Next(c, s, Complete(w)))
  {
    var s' := Next(c, s, Complete(w));
    OwnCopiesStayOk(c, s, w, s'.history[s.workers[w].job]);
    assert RowWrite(s, s', w);
    RowWriteKeepsSafe(c, s, s', w);
  }

  lemma RequeueKeepsSafe(c: World, s: State, w: int, cause: Cause)
    requires Safe(c, s) && Enabled(c, s, Fail(w, cause)) && !cause.ReplyLost?
    ensures Safe(c, Next(c, s, Fail(w, cause)))
  {
    var s' := Next(c, s, Fail(w, cause));
    OwnCopiesStayOk(c, s, w, s'.history[s.workers[w].job]);
    assert RowWrite(s, s', w);
    RowWriteKeepsSafe(c, s, s', w);
  }

  // An acknowledgement that raised may have taken effect: the same requeueing, and an
  // entry that was settled leaves the pending list.
  lemma FailKeepsSafe(c: World, s: State, w: int, cause: Cause)
    requires Safe(c, s) && Enabled(c, s, Fail(w, cause))
    ensures Safe(c, Next(c, s, Fail(w, cause)))
  {
    // Nothing here depends on what these say.
    hide EntryOk, ErrorOk, CopyOk, ErrorsCovered;
    if cause.ReplyLost? {
      RequeueKeepsSafe(c, s, w, Unexpected);
      assert WorkerOk(c, s, w);
      var mid, s' := Next(c, s, Fail(w, Unexpected)), Next(c, s, Fail(w, cause));
      StreamStaysOk(mid, s');
      QueueStepKeepsSafe(c, mid, s');
    } else {
      RequeueKeepsSafe(c, s, w, cause);
    }
  }

  // The copy after a batch commit is consistent, and so is what it overwrites.
  lemma BatchKeepsCopyOk(c: World, s: State, w: int)
    requires Safe(c, s) && Enabled(c, s, Commit(w))
    ensures var s' := NextCommit(c, s, w);
            var j := s.workers[w].job;
            var lo := s.workers[w].local.checkpoint;
            var hi := BatchEnd(c, Rows(c, s, w), lo);
            && s'.db.table == Import(s.db.table, j, Rows(c, s, w), lo, hi)
            && s'.workers[w].local.checkpoint == hi
            && s'.workers[w].local.status.Processing?
            && CopyOk(c, s'.db.table, s'.history[j], j, s'.workers[w].local)
            && s'.workers[w].phase.seen == ValidIds(Rows(c, s, w), s.workers[w].phase.start, hi)
  {
    assert WorkerOk(c, s, w);
    var me := s.workers[w];
    var j, rows, table, lo := me.job, Rows(c, s, w), s.db.table, me.local.checkpoint;
    var hi := BatchEnd(c, rows, lo);
    var b := NextBatch(c, s, w);
    forall id | id in me.phase.seen
      ensures Has(table, id)
    {
      ValidIdsMembers(rows, me.phase.start, lo, id);
    }
    ScanRefinesImport(table, j, rows, lo, hi, me.phase.seen);
    ScanPartitions(rows, me.phase.start, lo, hi);
    var table' := Import(table, j, rows, lo, hi);
    assert InsertAll(table, b.valid, j) == table';
    ImportCovers(table, j, rows, lo, hi);
    ImportTagsItsGains(table, j, rows, lo, hi, hi);
    TaggedBelowGrows(table, j, rows, lo, hi);
    AlignedNext(c, rows, lo);
  }

  lemma ProductIsMultiple(q: nat, b: nat)
    requires b > 0
    ensures (q * b) % b == 0
  {
    var d, r := (q * b) / b, (q * b) % b;
    assert q * b == d * b + r;
    assert (q - d) * b == r;
    assert q - d >= 1 ==> (q - d) * b >= b;
    assert q - d <= -1 ==> (q - d) * b < 0;
  }

  lemma AddToMultiple(k: nat, b: nat)
    requires b > 0 && k % b == 0
    ensures (k + b) % b == 0
  {
    var q := k / b;
    assert k == q * b;
    assert k + b == (q + 1) * b;
    ProductIsMultiple(q + 1, b);
  }

  lemma AlignedNext(c: World, rows: seq<RowOutcome>, lo: nat)
    requires lo < |rows| && Aligned(c, rows, lo)
    ensures Aligned(c, rows, BatchEnd(c, rows, lo))
  {
    AddToMultiple(lo, BatchLength(c));
  }

  lemma OverwrittenRowIsOk(c: World, table: seq<Entry>, h: History, j: JobId, stored: JobRow, local: JobRow)
    requires j in c.files && local.status.Processing?
    requires CopyOk(c, table, h, j, stored) && CopyOk(c, table, h, j, local)
    ensures CopyOk(c, table, h, j, OverwriteProgress(stored, local))
  {
  }

  lemma {:induction false} ErrorsInAreOk(rows: seq<RowOutcome>, start: nat, lo: nat, hi: nat)
    requires lo <= hi <= |rows|
    ensures forall k :: 0 <= k < |ErrorsIn(rows, start, lo, hi)| ==>
                          var e := ErrorsIn(rows, start, lo, hi)[k];
                          lo < e.rowNumber <= hi && ErrorsAt(rows, 0, e.rowNumber - 1) == [e]
  {
    if lo < hi {
      ErrorsInAreOk(rows, start, lo, hi - 1);
      if ErrorsAt(rows, start, hi - 1) != [] {
        assert ErrorsAt(rows, 0, hi - 1) == ErrorsAt(rows, start, hi - 1);
      }
    }
  }

  // What a batch commit appends to the error table.
  lemma CommitAppendsErrors(c: World, s: State, w: int)
    requires Safe(c, s) && Enabled(c, s, Commit(w))
    ensures var me := s.workers[w];
            var lo := me.local.checkpoint;
            && me.phase.start <= lo
            && NextCommit(c, s, w).db.errors
               == s.db.errors + JobErrors(me.job, ErrorsIn(Rows(c, s, w), me.phase.start, lo, BatchEnd(c, Rows(c, s, w), lo)))
  {
    var me := s.workers[w];
    var lo := me.local.checkpoint;
    assert WorkerOk(c, s, w);
    ScanPartitions(Rows(c, s, w), me.phase.start, lo, BatchEnd(c, Rows(c, s, w), lo));
  }

  lemma AppendedErrorsAreOk(c: World, j: JobId, start: nat, lo: nat, hi: nat)
    requires j in c.files && lo <= hi <= |c.files[j].rows|
    ensures forall k :: 0 <= k < |ErrorsIn(c.files[j].rows, start, lo, hi)|
                        ==> ErrorOk(c, JobError(j, ErrorsIn(c.files[j].rows, start, lo, hi)[k]))
  {
    ErrorsInAreOk(c.files[j].rows, start, lo, hi);
  }

  lemma BatchKeepsErrorsOk(c: World, s: State, w: int)
    requires Safe(c, s) && Enabled(c, s, Commit(w))
    ensures ErrorsOk(c, NextCommit(c, s, w))
  {
    var me := s.workers[w];
    var rows, lo := Rows(c, s, w), me.local.checkpoint;
    CommitAppendsErrors(c, s, w);
    AppendedErrorsAreOk(c, me.job, me.phase.start, lo, BatchEnd(c, rows, lo));
  }

  lemma AppendedErrorsCover(errors: seq<JobError>, j: JobId, rows: seq<RowOutcome>, start: nat, lo: nat, hi: nat)
    requires lo <= hi <= |rows| && ErrorsCovered(errors, j, rows, lo)
    ensures ErrorsCovered(errors + JobErrors(j, ErrorsIn(rows, start, lo, hi)), j, rows, hi)
  {
    var es := ErrorsIn(rows, start, lo, hi);
    forall i | 0 <= i < hi && rows[i].Invalid?
      ensures JobError(j, RowError(i + 1, rows[i].id, rows[i].error)) in errors + JobErrors(j, es)
    {
      if i >= lo {
        ErrorsInHold(rows, start, lo, hi, i);
        var k :| 0 <= k < |es| && es[k] == RowError(i + 1, rows[i].id, rows[i].error);
        assert JobErrors(j, es)[k] == JobError(j, es[k]);
      }
    }
  }

  lemma BatchKeepsErrorsCovered(c: World, s: State, w: int)
    requires Safe(c, s) && Enabled(c, s, Commit(w))
    ensures var rows, lo := Rows(c, s, w), s.workers[w].local.checkpoint;
            ErrorsCovered(NextCommit(c, s, w).db.errors, s.workers[w].job, rows, BatchEnd(c, rows, lo))
  {
    var me := s.workers[w];
    var rows, lo := Rows(c, s, w), me.local.checkpoint;
    assert WorkerOk(c, s, w);
    CommitAppendsErrors(c, s, w);
    AppendedErrorsCover(s.db.errors, me.job, rows, me.phase.start, lo, BatchEnd(c, rows, lo));
  }

  lemma BatchKeepsTableOk(c: World, s: State, w: int)
    requires Safe(c, s) && Enabled(c, s, Commit(w))
    ensures TableOk(c, NextCommit(c, s, w))
  {
    assert WorkerOk(c, s, w);
    BatchKeepsCopyOk(c, s, w);
    var s' := NextCommit(c, s, w);
    var me := s.workers[w];
    var rows, lo := Rows(c, s, w), me.local.checkpoint;
    var hi := BatchEnd(c, rows, lo);
    NewEntriesAreGenuine(s.db.table, me.job, rows, lo, hi);
    forall k | |c.before| <= k < |s'.db.table|
      ensures EntryOk(c, s', k)
    {
      if k < |s.db.table| {
        assert EntryOk(c, s, k);
        assert s'.db.table[k] == s.db.table[k];
      } else {
        assert Genuine(s'.db.table[k], me.job, rows);
      }
    }
  }

  lemma CommitTouchesOneJob(c: World, s: State, w: int)
    requires Safe(c, s) && Enabled(c, s, Commit(w))
    ensures OnlyTouches(s, NextCommit(c, s, w), s.workers[w].job, w)
  {
    // Nothing here depends on what these say.
    hide JobOk, WorkerOk, TableOk, ErrorsOk, StreamOk, NextBatchRaises, FitsBatch;
  }

  // The stored row and the copy that a commit leaves.
  lemma CommitKeepsJobAndWorker(c: World, s: State, w: int)
    requires Safe(c, s) && Enabled(c, s, Commit(w))
    ensures JobOk(c, NextCommit(c, s, w), s.workers[w].job) && WorkerOk(c, NextCommit(c, s, w), w)
  {
    // Nothing here depends on what these say.
    hide TableOk, ErrorsOk, StreamOk, Aligned, FitsBatch;
    var s' := NextCommit(c, s, w);
    var j := s.workers[w].job;
    assert WorkerOk(c, s, w) && JobOk(c, s, j);
    BatchKeepsCopyOk(c, s, w);
    BatchKeepsErrorsCovered(c, s, w);
    CommitTouchesOneJob(c, s, w);
    CopyStaysOk(c, s.db.table, s.history[j], s'.db.table, s'.history[j], j, s.db.jobs[j]);
    OverwrittenRowIsOk(c, s'.db.table, s'.history[j], j, s.db.jobs[j], s'.workers[w].local);
    if s.history[j].completed {
      CoveredGrows(s.db.table, s'.db.table, c.files[j].rows, |c.files[j].rows|);
      ErrorsCoveredGrows(s.db.errors, s'.db.errors, j, c.files[j].rows, |c.files[j].rows|);
    }
  }

  lemma CommitKeepsSafe(c: World, s: State, w: int)
    requires Safe(c, s) && Enabled(c, s, Commit(w))
    ensures Safe(c, NextCommit(c, s, w))
  {
    CommitKeepsJobAndWorker(c, s, w);
    CommitTouchesOneJob(c, s, w);
    BatchKeepsTableOk(c, s, w);
    BatchKeepsErrorsOk(c, s, w);
    // Nothing here depends on what these say.
    hide JobOk, WorkerOk, TableOk, ErrorsOk, NextCommit;
    LocalStepKeepsSafe(c, s, NextCommit(c, s, w), s.workers[w].job, w);
  }

  // A step that writes no existing job row, table row or error.
  predicate DataUntouched(s: State, s': State) {
    && Grows(s, s')
    && s'.db.table == s.db.table && s'.db.errors == s.db.errors
    && (forall j :: j in s.db.jobs ==> s'.db.jobs[j] == s.db.jobs[j])
    && (forall j :: j in s.history ==> s'.history[j].completed == s.history[j].completed
                                       && s'.history[j].reach == s.history[j].reach)
    && (forall v :: v in s'.workers && v in s.workers ==> s'.workers[v] == s.workers[v])
  }

  lemma QueueStepKeepsSafe(c: World, s: State, s': State)
    requires Safe(c, s) && DataUntouched(s, s') && StreamOk(s') && s'.history.Keys == s'.db.jobs.Keys
    requires forall j :: j in s'.db.jobs && j !in s.db.jobs ==> JobOk(c, s', j)
    requires forall v :: v in s'.workers && v !in s.workers ==> WorkerOk(c, s', v)
    ensures Safe(c, s')
  {
    TableUntouched(c, s, s');
    forall i | i in s'.db.jobs
      ensures JobOk(c, s', i)
    {
      if i in s.db.jobs {
        assert JobOk(c, s, i);
        JobStaysOk(c, s, s', i);
      }
    }
    forall v | v in s'.workers
      ensures WorkerOk(c, s', v)
    {
      if v in s.workers {
        assert WorkerOk(c, s, v);
        WorkerStaysOk(c, s, s', v);
      }
    }
  }

  lemma StreamStaysOk(s: State, s': State)
    requires StreamOk(s) && Grows(s, s') && s'.delivered == s.delivered
    requires forall e :: s.delivered <= e < |s'.stream| ==> s'.stream[e] in s'.db.jobs
    requires forall e :: 0 <= e < s.delivered && e !in s'.pending && e in s.pending ==> Settled(s', e)
    requires s'.pending <= s.pending
    ensures StreamOk(s')
  {
    forall e | 0 <= e < |s'.stream|
      ensures s'.stream[e] in s'.db.jobs
    {
      if e < |s.stream| {
        assert s'.stream[e] == s.stream[e] && s.stream[e] in s.db.jobs;
      }
    }
    forall e | 0 <= e < s'.delivered && e !in s'.pending
      ensures Settled(s', e)
    {
      if e !in s.pending {
        assert Settled(s, e);
      }
    }
  }

  lemma CreateEnqueueDeliverKeepSafe(c: World, s: State, a: Action)
    requires Safe(c, s) && Enabled(c, s, a) && (a.Create? || a.Enqueue? || a.Deliver?)
    ensures Safe(c, Next(c, s, a))
  {
    var s' := Next(c, s, a);
    if a.Deliver? {
      forall e | 0 <= e < s'.delivered && e !in s'.pending
        ensures Settled(s', e)
      {
        assert Settled(s, e);
      }
    } else {
      assert Grows(s, s');
      StreamStaysOk(s, s');
    }
    QueueStepKeepsSafe(c, s, s');
  }

  lemma BeginKeepsSafe(c: World, s: State, w: int, e: nat)
    requires Safe(c, s) && Enabled(c, s, Begin(w, e))
    ensures Safe(c, Next(c, s, Begin(w, e)))
  {
    var s' := Next(c, s, Begin(w, e));
    var j := s.stream[e];
    assert JobOk(c, s, j);
    assert DataUntouched(s, s');
    StreamStaysOk(s, s');
    CopyStaysOk(c, s.db.table, s.history[j], s'.db.table, s'.history[j], j, s.db.jobs[j]);
    QueueStepKeepsSafe(c, s, s');
  }

  lemma LeaveKeepsSafe(c: World, s: State, a: Action)
    requires Safe(c, s) && Enabled(c, s, a) && (a.Acknowledge? || a.Crash?)
    ensures Safe(c, Next(c, s, a))
  {
    var s' := Next(c, s, a);
    assert WorkerOk(c, s, a.worker);
    assert DataUntouched(s, s');
    StreamStaysOk(s, s');
    QueueStepKeepsSafe(c, s, s');
  }

  lemma StepKeepsSafe(c: World, s: State, a: Action)
    requires Safe(c, s) && Enabled(c, s, a)
    ensures Safe(c, Next(c, s, a))
  {
    match a
    case Create(_) => CreateEnqueueDeliverKeepSafe(c, s, a);
    case Enqueue(_) => CreateEnqueueDeliverKeepSafe(c, s, a);
    case Deliver => CreateEnqueueDeliverKeepSafe(c, s, a);
    case Begin(w, e) => BeginKeepsSafe(c, s, w, e);
    case Retire(_) => StatusWriteKeepsSafe(c, s, a);
    case Start(_) => StatusWriteKeepsSafe(c, s, a);
    case RejectFile(_) => StatusWriteKeepsSafe(c, s, a);
    case Commit(w) => CommitKeepsSafe(c, s, w);
    case Complete(w) => CompleteKeepsSafe(c, s, w);
    case Fail(w, cause) => FailKeepsSafe(c, s, w, cause);
    case Acknowledge(_) => LeaveKeepsSafe(c, s, a);
    case Crash(_) => LeaveKeepsSafe(c, s, a);
  }

  lemma {:induction false} RunKeepsSafe(t: Tier, c: World, s: State, actions: seq<Action>, final: State)
    requires Safe(c, s) && Run(t, c, s, actions, final)
    ensures Safe(c, final)
    decreases |actions|
  {
    if actions != [] {
      StepKeepsSafe(c, s, actions[0]);
      RunKeepsSafe(t, c, Next(c, s, actions[0]), actions[1..], final);
    }
  }

  lemma ReachableIsSafe(t: Tier, c: World, s: State)
    requires WorldOk(c) && Reachable(t, c, s)
    ensures Safe(c, s)
  {
    var actions :| Run(t, c, Initial(c), actions, s);
    RunKeepsSafe(t, c, Initial(c), actions, s);
  }
}
