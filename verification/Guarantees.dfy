/**
 The guarantees that survive every interleaving, read off the invariant, and what
 takes a further induction: the exact content of a job's share of the table, and
 the rows no job can get past.
 */
module Guarantees {
  import opened Common
  import opened Validation
  import opened Ledger
  import opened Protocol
  import opened Safety

  // Every valid row at or below a stored checkpoint is in the table, although the
  // checkpoint itself may go back; the same holds of every worker's stale copy.
  lemma CheckpointsAreSafe(t: Tier, c: World, s: State, j: JobId, i: nat)
    requires WorldOk(c) && Reachable(t, c, s) && j in c.files && i < |c.files[j].rows|
    requires c.files[j].rows[i].Valid?
    ensures j in s.db.jobs && i < s.db.jobs[j].checkpoint ==> Has(s.db.table, c.files[j].rows[i].txn.id)
    ensures forall w :: w in s.workers && s.workers[w].job == j && i < s.workers[w].local.checkpoint
                        ==> Has(s.db.table, c.files[j].rows[i].txn.id)
  {
    ReachableIsSafe(t, c, s);
    if j in s.db.jobs {
      assert JobOk(c, s, j);
    }
    forall w | w in s.workers && s.workers[w].job == j && i < s.workers[w].local.checkpoint
      ensures Has(s.db.table, c.files[j].rows[i].txn.id)
    {
      assert WorkerOk(c, s, w);
    }
  }

  // And every invalid row at or below a checkpoint, stored or stale, has its error row;
  // from the first COMPLETED on every invalid row of the file has.
  lemma InvalidRowsAreRecorded(t: Tier, c: World, s: State, j: JobId, i: nat)
    requires WorldOk(c) && Reachable(t, c, s) && j in c.files && i < |c.files[j].rows|
    requires c.files[j].rows[i].Invalid?
    ensures var e := JobError(j, RowError(i + 1, c.files[j].rows[i].id, c.files[j].rows[i].error));
            && (j in s.db.jobs && i < s.db.jobs[j].checkpoint ==> e in s.db.errors)
            && (j in s.history && s.history[j].completed ==> e in s.db.errors)
            && (forall w :: w in s.workers && s.workers[w].job == j && i < s.workers[w].local.checkpoint ==> e in s.db.errors)
  {
    ReachableIsSafe(t, c, s);
    if j in s.db.jobs {
      assert JobOk(c, s, j);
    }
    forall w | w in s.workers && s.workers[w].job == j && i < s.workers[w].local.checkpoint
      ensures JobError(j, RowError(i + 1, c.files[j].rows[i].id, c.files[j].rows[i].error)) in s.db.errors
    {
      assert WorkerOk(c, s, w);
    }
  }

  // A transaction tagged with a job is the validated content of the first valid
  // occurrence of its id in that job's file: no phantom, no later duplicate.
  lemma TaggedTransactionsAreFirstOccurrences(t: Tier, c: World, s: State, k: nat)
    requires WorldOk(c) && Reachable(t, c, s) && k < |s.db.table| && s.db.table[k].job in c.files
    ensures exists i :: 0 <= i < |c.files[s.db.table[k].job].rows|
                        && FirstOccurrence(c.files[s.db.table[k].job].rows, i)
                        && c.files[s.db.table[k].job].rows[i].txn == s.db.table[k].txn
  {
    ReachableIsSafe(t, c, s);
    if k >= |c.before| {
      assert EntryOk(c, s, k);
    }
  }

  // Stored counters always add up, and never claim more insertions than happened.
  lemma CountersAddUp(t: Tier, c: World, s: State, j: JobId)
    requires WorldOk(c) && Reachable(t, c, s) && j in s.db.jobs
    ensures var row := s.db.jobs[j];
            && row.processed == row.successful + row.failed == row.checkpoint
            && row.failed >= 0
            && row.successful <= Tagged(s.db.table, j)
    ensures j in c.files && (s.db.jobs[j].checkpoint == |c.files[j].rows|
                             || s.db.jobs[j].checkpoint % BatchLength(c) == 0)
  {
    ReachableIsSafe(t, c, s);
    assert JobOk(c, s, j);
    TaggedBelowGrows(s.db.table, j, c.files[j].rows, s.db.jobs[j].checkpoint, s.db.jobs[j].checkpoint);
  }

  // No enqueued job is lost: every entry is undelivered, pending, or acknowledged,
  // and an acknowledged one had its job committed COMPLETED, with every valid id of
  // its file in the table from then on, or committed FAILED.
  lemma AcknowledgedEntriesAreSettled(t: Tier, c: World, s: State, e: nat)
    requires WorldOk(c) && Reachable(t, c, s) && e < |s.stream|
    ensures e < s.delivered || e !in s.pending
    ensures e < s.delivered && e !in s.pending ==>
              var j := s.stream[e];
              && j in s.history && j in c.files
              && (s.history[j].completed || s.history[j].failed)
              && (s.history[j].completed ==>
                    forall i :: 0 <= i < |c.files[j].rows| && c.files[j].rows[i].Valid?
                                ==> Has(s.db.table, c.files[j].rows[i].txn.id))
  {
    ReachableIsSafe(t, c, s);
    var j := s.stream[e];
    assert JobOk(c, s, j);
    if e < s.delivered && e !in s.pending {
      assert Settled(s, e);
    }
  }

  // The branch that drops an entry because its job does not exist is never taken.
  lemma NoEntryIsDropped(t: Tier, c: World, s: State, w: int)
    requires WorldOk(c) && Reachable(t, c, s) && w in s.workers
    ensures !s.workers[w].phase.Dropping? && s.workers[w].job in s.db.jobs
  {
    ReachableIsSafe(t, c, s);
    assert WorkerOk(c, s, w);
  }

  lemma EntriesHaveJobs(t: Tier, c: World, s: State)
    requires WorldOk(c) && Reachable(t, c, s)
    ensures forall e :: 0 <= e < |s.stream| ==> s.stream[e] in s.db.jobs
  {
    ReachableIsSafe(t, c, s);
  }

  // Every recorded error names a row that is invalid, with its reason, or repeats an
  // earlier valid id, which it shows.
  lemma RecordedErrorsAreReal(t: Tier, c: World, s: State, k: nat)
    requires WorldOk(c) && Reachable(t, c, s) && k < |s.db.errors|
    ensures var e := s.db.errors[k];
            && e.job in c.files && 1 <= e.error.rowNumber <= |c.files[e.job].rows|
            && var rows, i := c.files[e.job].rows, e.error.rowNumber - 1;
            && (rows[i].Invalid? || Repeats(rows, 0, i))
            && e.error.rowNumber == i + 1
            && (rows[i].Invalid? ==> e.error.id == rows[i].id && e.error.error == rows[i].error)
            && (!rows[i].Invalid? ==>
                  e.error.id == Some(rows[i].txn.id) && e.error.error == "duplicate transaction_id within this file")
  {
    ReachableIsSafe(t, c, s);
    assert ErrorOk(c, s.db.errors[k]);
  }

  // ---------- The exact content of a job's share ----------

  ghost predicate Alone(c: World, j: JobId)
    requires j in c.files
  {
    forall i, k :: i in c.files && i != j && 0 <= k < |c.files[i].rows| && c.files[i].rows[k].Valid?
                   ==> c.files[i].rows[k].txn.id !in Ids(c, j)
  }

  function Ids(c: World, j: JobId): set<string>
    requires j in c.files
  {
    ValidIds(c.files[j].rows, 0, |c.files[j].rows|)
  }

  // The sequential result: import the first k rows, in file order, into the table as
  // it was before, looking only at the ids of this file.
  function Sequential(c: World, j: JobId, k: nat): seq<Entry>
    requires j in c.files && k <= |c.files[j].rows|
  {
    Import(Restrict(c.before, Ids(c, j)), j, c.files[j].rows, 0, k)
  }

  function Share(c: World, s: State, j: JobId): seq<Entry>
    requires j in c.files
  {
    Restrict(s.db.table, Ids(c, j))
  }

  predicate ShareOk(c: World, s: State, j: JobId)
    requires j in c.files
  {
    if j in s.history then
      s.history[j].reach <= |c.files[j].rows| && Share(c, s, j) == Sequential(c, j, s.history[j].reach)
    else Share(c, s, j) == Restrict(c.before, Ids(c, j))
  }

  lemma OwnIds(c: World, j: JobId)
    requires j in c.files
    ensures forall i :: 0 <= i < |c.files[j].rows| && c.files[j].rows[i].Valid? ==> c.files[j].rows[i].txn.id in Ids(c, j)
  {
    var rows := c.files[j].rows;
    forall i | 0 <= i < |rows| && rows[i].Valid?
      ensures rows[i].txn.id in Ids(c, j)
    {
      ValidIdsMembers(rows, 0, |rows|, rows[i].txn.id);
    }
  }

  lemma CommitKeepsShare(c: World, s: State, w: int, j: JobId)
    requires j in c.files && Alone(c, j) && Safe(c, s) && Enabled(c, s, Commit(w)) && ShareOk(c, s, j)
    ensures ShareOk(c, NextCommit(c, s, w), j)
  {
    assert WorkerOk(c, s, w);
    BatchKeepsCopyOk(c, s, w);
    var me := s.workers[w];
    var rows, lo := Rows(c, s, w), me.local.checkpoint;
    var hi := BatchEnd(c, rows, lo);
    if me.job == j {
      OwnIds(c, j);
      RestrictImport(s.db.table, j, rows, lo, hi, Ids(c, j));
      OverlappingImportResumes(Restrict(c.before, Ids(c, j)), j, rows, s.history[j].reach, lo, hi);
    } else {
      RestrictForeignImport(s.db.table, me.job, rows, lo, hi, Ids(c, j));
    }
  }

  lemma StepKeepsShare(c: World, s: State, a: Action, j: JobId)
    requires j in c.files && Alone(c, j) && Safe(c, s) && Enabled(c, s, a) && ShareOk(c, s, j)
    ensures ShareOk(c, Next(c, s, a), j)
  {
    if a.Commit? {
      CommitKeepsShare(c, s, a.worker, j);
    }
  }

  lemma {:induction false} RunKeepsShare(t: Tier, c: World, s: State, actions: seq<Action>, final: State, j: JobId)
    requires j in c.files && Alone(c, j) && Safe(c, s) && ShareOk(c, s, j) && Run(t, c, s, actions, final)
    ensures ShareOk(c, final, j)
    decreases |actions|
  {
    if actions != [] {
      StepKeepsSafe(c, s, actions[0]);
      StepKeepsShare(c, s, actions[0], j);
      RunKeepsShare(t, c, Next(c, s, actions[0]), actions[1..], final, j);
    }
  }

  lemma ReachableShare(t: Tier, c: World, s: State, j: JobId)
    requires WorldOk(c) && j in c.files && Alone(c, j) && Reachable(t, c, s)
    ensures Safe(c, s) && ShareOk(c, s, j)
  {
    var actions :| Run(t, c, Initial(c), actions, s);
    RunKeepsSafe(t, c, Initial(c), actions, s);
    RunKeepsShare(t, c, Initial(c), actions, s, j);
  }

  // Whatever the workers, crashes, retries and double claims: while no other job
  // brings the same ids, a job's share of the table is at all times a prefix of the
  // sequential import, and from its first COMPLETED on it is the whole of it.
  lemma TableMatchesSequentialImport(t: Tier, c: World, s: State, j: JobId)
    requires WorldOk(c) && j in c.files && Alone(c, j) && Reachable(t, c, s) && j in s.db.jobs
    ensures j in s.history
    ensures exists k :: 0 <= k <= |c.files[j].rows| && Share(c, s, j) == Sequential(c, j, k)
                        && s.db.jobs[j].checkpoint <= k
    ensures s.history[j].completed || s.db.jobs[j].status.Completed?
            ==> Share(c, s, j) == Sequential(c, j, |c.files[j].rows|)
  {
    ReachableShare(t, c, s, j);
    assert JobOk(c, s, j);
    var k := s.history[j].reach;
    assert Share(c, s, j) == Sequential(c, j, k);
  }

  // ---------- Rows no job gets past ----------

  // The database refuses any batch that an attempt started from checkpoint `start`
  // builds with this row in it.
  predicate Refused(rows: seq<RowOutcome>, start: nat, i: nat)
    requires i < |rows|
  {
    || (rows[i].Invalid? && !FitsError(RowError(i + 1, rows[i].id, rows[i].error)))
    || (rows[i].Valid? && !Repeats(rows, start, i) && !FitsTxn(rows[i].txn))
  }

  // Such an attempt cannot commit the row: the validator raises, or the database
  // refuses.
  predicate Blocks(rows: seq<RowOutcome>, start: nat, i: nat)
    requires i < |rows|
  {
    rows[i].Raises? || Refused(rows, start, i)
  }

  lemma {:induction false} ScanHoldsFirst(rows: seq<RowOutcome>, start: nat, lo: nat, hi: nat, i: nat)
    requires start <= lo <= i < hi <= |rows| && NoneRaises(rows, lo, hi)
    requires rows[i].Valid? && !Repeats(rows, start, i)
    ensures exists k :: 0 <= k < |Scan(rows, lo, hi, ValidIds(rows, start, lo)).valid|
                        && Scan(rows, lo, hi, ValidIds(rows, start, lo)).valid[k] == rows[i].txn
  {
    var front := Scan(rows, lo, hi - 1, ValidIds(rows, start, lo));
    var all := Scan(rows, lo, hi, ValidIds(rows, start, lo));
    if i < hi - 1 {
      ScanHoldsFirst(rows, start, lo, hi - 1, i);
      var k :| 0 <= k < |front.valid| && front.valid[k] == rows[i].txn;
      assert all.valid[k] == front.valid[k];
    } else {
      ScanPartitions(rows, start, lo, hi - 1);
      ValidIdsMembers(rows, start, hi - 1, rows[i].txn.id);
      assert all.valid[|front.valid|] == rows[i].txn;
    }
  }

  // A row that blocks attempts from `start` blocks later-started ones as well.
  lemma BlockedBatchIsRefused(c: World, s: State, w: int, start: nat, i: nat)
    requires Safe(c, s) && InFile(c, s, w) && i < |Rows(c, s, w)| && Blocks(Rows(c, s, w), start, i)
    requires start <= s.workers[w].phase.start
    requires s.workers[w].local.checkpoint <= i < BatchEnd(c, Rows(c, s, w), s.workers[w].local.checkpoint)
    ensures !Enabled(c, s, Commit(w))
  {
    assert WorkerOk(c, s, w);
    var rows, from, lo := Rows(c, s, w), s.workers[w].phase.start, s.workers[w].local.checkpoint;
    var hi := BatchEnd(c, rows, lo);
    if !NextBatchRaises(c, s, w) {
      if rows[i].Invalid? {
        ScanPartitions(rows, from, lo, hi);
        ErrorsInHold(rows, from, lo, hi, i);
      } else {
        ScanHoldsFirst(rows, from, lo, hi, i);
      }
    }
  }

  lemma StepKeepsBlocked(c: World, s: State, a: Action, j: JobId, i: nat)
    requires j in c.files && i < |c.files[j].rows| && Blocks(c.files[j].rows, 0, i)
    requires Safe(c, s) && Enabled(c, s, a) && (j in s.history ==> s.history[j].reach <= i)
    ensures j in Next(c, s, a).history ==> Next(c, s, a).history[j].reach <= i
  {
    if a.Commit? && s.workers[a.worker].job == j {
      var w := a.worker;
      assert WorkerOk(c, s, w);
      if i < BatchEnd(c, Rows(c, s, w), s.workers[w].local.checkpoint) {
        BlockedBatchIsRefused(c, s, w, 0, i);
      }
    }
  }

  lemma {:induction false} RunKeepsBlocked(t: Tier, c: World, s: State, actions: seq<Action>, final: State, j: JobId, i: nat)
    requires j in c.files && i < |c.files[j].rows| && Blocks(c.files[j].rows, 0, i)
    requires Safe(c, s) && (j in s.history ==> s.history[j].reach <= i) && Run(t, c, s, actions, final)
    ensures j in final.history ==> final.history[j].reach <= i
    decreases |actions|
  {
    if actions != [] {
      StepKeepsSafe(c, s, actions[0]);
      StepKeepsBlocked(c, s, actions[0], j, i);
      RunKeepsBlocked(t, c, Next(c, s, actions[0]), actions[1..], final, j, i);
    }
  }

  lemma ProductMonotone(b: nat, x: nat, y: nat)
    requires x <= y
    ensures b * x <= b * y
  {
    assert b * y - b * x == b * (y - x);
  }

  lemma MultipleBelow(k: nat, i: nat, b: nat)
    requires b > 0 && k % b == 0 && k <= i
    ensures k <= b * (i / b)
  {
    var q, p := k / b, i / b;
    if q <= p {
      ProductMonotone(b, q, p);
    } else {
      ProductMonotone(b, p + 1, q);
    }
  }

  // In every interleaving, a job never commits past the batch boundary below a
  // blocking row, and is never COMPLETED.
  lemma NoJobPassesABlockingRow(t: Tier, c: World, s: State, j: JobId, i: nat)
    requires WorldOk(c) && Reachable(t, c, s) && j in s.db.jobs
    requires j in c.files && i < |c.files[j].rows| && Blocks(c.files[j].rows, 0, i)
    ensures s.db.jobs[j].checkpoint <= BatchLength(c) * (i / BatchLength(c))
    ensures !s.db.jobs[j].status.Completed? && j in s.history && !s.history[j].completed
  {
    var actions :| Run(t, c, Initial(c), actions, s);
    RunKeepsSafe(t, c, Initial(c), actions, s);
    RunKeepsBlocked(t, c, Initial(c), actions, s, j, i);
    assert JobOk(c, s, j);
    MultipleBelow(s.db.jobs[j].checkpoint, i, BatchLength(c));
  }
}
