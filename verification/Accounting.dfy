/**
 Guarantees under exclusive delivery: resuming after any crashes accounts for every
 row as an uninterrupted import would, each error row is described exactly, the
 number of deliveries is bounded, and a poison row ends the job where it should.
 */
module Accounting {
  import opened Common
  import opened Validation
  import opened Ledger
  import opened Protocol
  import opened Safety
  import opened Guarantees
  import opened Exclusive

  // ---------- Counters ----------

  lemma {:induction false} RestrictKeepsTagged(table: seq<Entry>, ids: set<string>, j: JobId)
    requires forall k :: 0 <= k < |table| && table[k].job == j ==> table[k].txn.id in ids
    ensures Tagged(Restrict(table, ids), j) == Tagged(table, j)
  {
    if table != [] {
      var front, e := table[..|table| - 1], table[|table| - 1];
      RestrictKeepsTagged(front, ids, j);
      if e.txn.id in ids {
        TaggedOne(Restrict(front, ids), e, j);
        assert Restrict(table, ids) == Restrict(front, ids) + [e];
      } else {
        assert Restrict(table, ids) == Restrict(front, ids);
      }
    }
  }

  lemma TaggedIdsAreOwn(c: World, s: State, j: JobId)
    requires WorldOk(c) && Safe(c, s) && j in c.files
    ensures forall k :: 0 <= k < |s.db.table| && s.db.table[k].job == j ==> s.db.table[k].txn.id in Ids(c, j)
  {
    OwnIds(c, j);
    forall k | 0 <= k < |s.db.table| && s.db.table[k].job == j
      ensures s.db.table[k].txn.id in Ids(c, j)
    {
      if k >= |c.before| {
        assert EntryOk(c, s, k);
      }
    }
  }

  // How many rows of the first k an import into the table as it was would insert.
  function Insertions(c: World, j: JobId, k: nat): nat
    requires j in c.files && k <= |c.files[j].rows|
  {
    |Sequential(c, j, k)| - |Sequential(c, j, 0)|
  }

  lemma InsertionsAreTagged(c: World, j: JobId, k: nat)
    requires WorldOk(c) && j in c.files && k <= |c.files[j].rows|
    ensures Tagged(Sequential(c, j, k), j) == Insertions(c, j, k)
  {
    var start := Restrict(c.before, Ids(c, j));
    ImportTagsItsGains(start, j, c.files[j].rows, 0, k, k);
    RestrictKeepsTagged(c.before, Ids(c, j), j);
    NoneTagged(c.before, j);
  }

  // After any crashes, failures and redeliveries the stored counters are those of an
  // uninterrupted import stopped at the same row; the batch size does not enter.
  lemma ResumedCountersAreExact(t: Tier, c: World, s: State, j: JobId)
    requires WorldOk(c) && t.exclusive && Reachable(t, c, s) && j in c.files && Alone(c, j) && j in s.db.jobs
    ensures var row := s.db.jobs[j];
            && row.checkpoint <= |c.files[j].rows|
            && row.processed == row.checkpoint
            && row.successful == Insertions(c, j, row.checkpoint) == Tagged(s.db.table, j)
            && row.failed == row.checkpoint - Insertions(c, j, row.checkpoint)
            && Share(c, s, j) == Sequential(c, j, row.checkpoint)
  {
    ReachableIsExact(t, c, s);
    ReachableShare(t, c, s, j);
    assert JobOk(c, s, j) && ProgressOk(c, s, j);
    TaggedIdsAreOwn(c, s, j);
    RestrictKeepsTagged(s.db.table, Ids(c, j), j);
    InsertionsAreTagged(c, j, s.db.jobs[j].checkpoint);
  }

  // Two completed imports of one file into the same data agree on every count,
  // whatever happened to either and whatever their batch sizes.
  lemma CompletedCountsDoNotDependOnTheRun(t1: Tier, c1: World, s1: State, t2: Tier, c2: World, s2: State, j: JobId)
    requires WorldOk(c1) && t1.exclusive && Reachable(t1, c1, s1)
    requires WorldOk(c2) && t2.exclusive && Reachable(t2, c2, s2)
    requires c1.files == c2.files && c1.before == c2.before && j in c1.files && Alone(c1, j)
    requires j in s1.db.jobs && s1.db.jobs[j].status.Completed?
    requires j in s2.db.jobs && s2.db.jobs[j].status.Completed?
    ensures var r1, r2 := s1.db.jobs[j], s2.db.jobs[j];
            && r1.successful == r2.successful && r1.failed == r2.failed
            && r1.processed == r2.processed == |c1.files[j].rows|
            && r1.total == r2.total == Some(|c1.files[j].rows|)
    ensures Share(c1, s1, j) == Share(c2, s2, j)
  {
    assert Alone(c2, j) by {
      assert Ids(c2, j) == Ids(c1, j);
    }
    ReachableIsExact(t1, c1, s1);
    ReachableIsExact(t2, c2, s2);
    assert JobOk(c1, s1, j) && ProgressOk(c1, s1, j);
    assert JobOk(c2, s2, j) && ProgressOk(c2, s2, j);
    ResumedCountersAreExact(t1, c1, s1, j);
    ResumedCountersAreExact(t2, c2, s2, j);
  }

  // Every inserted transaction is counted exactly once, other jobs' ids or not.
  lemma SuccessfulRowsAreTheTaggedTransactions(t: Tier, c: World, s: State, j: JobId)
    requires WorldOk(c) && t.exclusive && Reachable(t, c, s) && j in s.db.jobs
    ensures s.db.jobs[j].successful == Tagged(s.db.table, j)
  {
    ReachableIsExact(t, c, s);
    assert ProgressOk(c, s, j);
  }

  // ---------- Batches ----------

  // The batch boundary below row p.
  function Floor(c: World, p: nat): (floor: nat)
    ensures floor <= p < floor + BatchLength(c)
  {
    BatchLength(c) * (p / BatchLength(c))
  }

  lemma QuotientIsUnique(x: nat, q: nat, r: nat, b: nat)
    requires b > 0 && x == q * b + r && r < b
    ensures q == x / b
  {
    var p := x / b;
    assert x == p * b + x % b;
    if p <= q {
      ProductMonotone(b, p, q);
      if p < q { ProductMonotone(b, p + 1, q); }
    } else {
      ProductMonotone(b, q + 1, p);
    }
  }

  lemma BoundaryIsFloor(c: World, lo: nat, p: nat)
    requires lo % BatchLength(c) == 0 && lo <= p < lo + BatchLength(c)
    ensures lo == Floor(c, p)
  {
    var q := lo / BatchLength(c);
    assert lo == q * BatchLength(c);
    QuotientIsUnique(p, q, p - lo, BatchLength(c));
  }

  lemma CommitsAreCeiling(n: nat, b: nat, q: nat)
    requires b > 0 && n <= q * b && (q > 0 ==> (q - 1) * b < n)
    ensures q == (n + b - 1) / b
  {
    if q == 0 {
      assert q * b == 0;
      QuotientIsUnique(b - 1, 0, b - 1, b);
    } else {
      assert (q - 1) * b == q * b - b;
      QuotientIsUnique(n + b - 1, q, n + b - 1 - q * b, b);
    }
  }

  // A completed import of n rows took ceil(n / B) batch commits in all, however many
  // attempts they were spread over.
  lemma CompletedBatchCount(t: Tier, c: World, s: State, j: JobId)
    requires WorldOk(c) && t.exclusive && Reachable(t, c, s) && j in s.db.jobs && s.db.jobs[j].status.Completed?
    ensures j in s.history && j in c.files
    ensures s.history[j].commits == (|c.files[j].rows| + BatchLength(c) - 1) / BatchLength(c)
  {
    ReachableIsExact(t, c, s);
    assert JobOk(c, s, j) && ProgressOk(c, s, j);
    var n := |c.files[j].rows|;
    assert BatchesOk(c, n, n, s.history[j].commits);
    // Nothing here depends on what these say.
    hide Exact, Safe, Reachable, JobOk, ProgressOk, CountersOk;
    CommitsAreCeiling(n, BatchLength(c), s.history[j].commits);
  }

  // ---------- Error rows ----------

  predicate Faulty(rows: seq<RowOutcome>, start: nat, i: nat)
    requires i < |rows|
  {
    rows[i].Invalid? || Repeats(rows, start, i)
  }

  // At most one error per row, in file order, none past row `last`.
  predicate InFileOrder(es: seq<RowError>, last: nat) {
    && (forall k :: 0 <= k < |es| ==> 1 <= es[k].rowNumber <= last)
    && (forall k, m :: 0 <= k < m < |es| ==> es[k].rowNumber < es[m].rowNumber)
  }

  predicate Mentions(es: seq<RowError>, rowNumber: nat) {
    exists k :: 0 <= k < |es| && es[k].rowNumber == rowNumber
  }

  lemma AppendedInOrder(es: seq<RowError>, last: nat, e: RowError, n: nat)
    requires InFileOrder(es, last) && e.rowNumber == last + 1
    ensures InFileOrder(es + [e], last + 1)
    ensures Mentions(es + [e], n) <==> Mentions(es, n) || n == last + 1
  {
    var all := es + [e];
    assert all[|es|] == e;
    assert forall k :: 0 <= k < |es| ==> all[k] == es[k];
  }

  lemma LaterIsNotMentioned(es: seq<RowError>, last: nat, n: nat)
    requires InFileOrder(es, last) && n > last
    ensures !Mentions(es, n)
    ensures InFileOrder(es, n)
  {
  }

  // What row k - 1 adds: its error row, if it is faulty.
  lemma ErrorsGivenLast(rows: seq<RowOutcome>, starts: seq<nat>, k: nat)
    requires 0 < k <= |starts| && k <= |rows|
    ensures var front, all := ErrorsGiven(rows, starts, k - 1), ErrorsGiven(rows, starts, k);
            if Faulty(rows, starts[k - 1], k - 1)
            then |all| == |front| + 1 && all == front + [all[|front|]] && all[|front|].rowNumber == k
            else all == front
  {
  }

  lemma {:induction false} ErrorsGivenMembers(rows: seq<RowOutcome>, starts: seq<nat>, k: nat, i: nat)
    requires k <= |starts| && k <= |rows|
    ensures InFileOrder(ErrorsGiven(rows, starts, k), k)
    ensures i < k ==> (Mentions(ErrorsGiven(rows, starts, k), i + 1) <==> Faulty(rows, starts[i], i))
  {
    if k > 0 {
      ErrorsGivenMembers(rows, starts, k - 1, i);
      ErrorsGivenLast(rows, starts, k);
      var front, all := ErrorsGiven(rows, starts, k - 1), ErrorsGiven(rows, starts, k);
      LaterIsNotMentioned(front, k - 1, k);
      // What is left to show is read off these lemmas.
      hide ErrorsGiven, Faulty, Mentions;
      if Faulty(rows, starts[k - 1], k - 1) {
        AppendedInOrder(front, k - 1, all[|front|], i + 1);
      }
    }
  }

  // Row i has an error row exactly when it is invalid or repeats a valid id that the
  // same attempt had read, after the checkpoint it started from; no row has two, and
  // they appear in file order.
  lemma ErrorRowsAreExact(t: Tier, c: World, s: State, j: JobId, i: nat)
    requires WorldOk(c) && t.exclusive && Reachable(t, c, s) && j in s.db.jobs && i < s.db.jobs[j].checkpoint
    ensures j in c.files && j in s.history
    ensures |s.history[j].starts| == s.db.jobs[j].checkpoint <= |c.files[j].rows|
    ensures s.history[j].starts[i] <= i
    ensures Mentions(ErrorsOf(s.db.errors, j), i + 1) <==> Faulty(c.files[j].rows, s.history[j].starts[i], i)
    ensures InFileOrder(ErrorsOf(s.db.errors, j), s.db.jobs[j].checkpoint)
  {
    ReachableIsExact(t, c, s);
    assert ProgressOk(c, s, j);
    ErrorsGivenMembers(c.files[j].rows, s.history[j].starts, s.db.jobs[j].checkpoint, i);
  }

  lemma {:induction false} ErrorsGivenAreContained(rows: seq<RowOutcome>, starts: seq<nat>, k: nat, m: nat)
    requires k <= |starts| && k <= |rows| && m < |ErrorsGiven(rows, starts, k)|
    ensures ErrorsGiven(rows, starts, k)[m] in ErrorsIn(rows, 0, 0, k)
  {
    var front := ErrorsGiven(rows, starts, k - 1);
    if m < |front| {
      ErrorsGivenAreContained(rows, starts, k - 1, m);
      assert ErrorsGiven(rows, starts, k)[m] == front[m];
    } else {
      assert ErrorsGiven(rows, starts, k)[m] == ErrorsAt(rows, starts[k - 1], k - 1)[0];
      assert ErrorsAt(rows, 0, k - 1) == ErrorsAt(rows, starts[k - 1], k - 1);
    }
  }

  // The error rows are among those of the uninterrupted import, which has them all in
  // its table; a job that needed one delivery has exactly those.
  lemma ErrorRowsOfAnUninterruptedImport(t: Tier, c: World, s: State, j: JobId)
    requires WorldOk(c) && t.exclusive && Reachable(t, c, s) && j in s.db.jobs
    ensures j in c.files && j in s.history && s.db.jobs[j].checkpoint <= |c.files[j].rows|
    ensures forall k :: 0 <= k < |ErrorsOf(s.db.errors, j)| ==>
                          ErrorsOf(s.db.errors, j)[k] in ErrorsIn(c.files[j].rows, 0, 0, s.db.jobs[j].checkpoint)
    ensures s.history[j].begun <= 1 ==>
              ErrorsOf(s.db.errors, j) == ErrorsIn(c.files[j].rows, 0, 0, s.db.jobs[j].checkpoint)
  {
    ReachableIsExact(t, c, s);
    assert ProgressOk(c, s, j);
    var rows, starts := c.files[j].rows, s.history[j].starts;
    forall k | 0 <= k < |ErrorsOf(s.db.errors, j)|
      ensures ErrorsOf(s.db.errors, j)[k] in ErrorsIn(rows, 0, 0, s.db.jobs[j].checkpoint)
    {
      ErrorsGivenAreContained(rows, starts, s.db.jobs[j].checkpoint, k);
    }
    if s.history[j].begun <= 1 {
      ErrorsGivenExtended(rows, starts, 0, 0, |starts|);
    }
  }

  // ---------- Deliveries ----------

  // With k deliveries lost, no more than k + 4 are begun, and when that
  // many have ended the entry is acknowledged, with the job COMPLETED or FAILED.
  lemma DeliveriesAreBounded(t: Tier, c: World, s: State, j: JobId)
    requires WorldOk(c) && t.exclusive && Reachable(t, c, s) && j in s.db.jobs
    ensures j in s.history && s.history[j].begun <= s.history[j].lost + 4
    ensures s.history[j].begun == s.history[j].lost + 4 && !Live(s, j)
            ==> Acked(s, j) && (s.db.jobs[j].status.Completed? || s.db.jobs[j].status.Failed?)
  {
    ReachableIsExact(t, c, s);
    assert DeliveriesOk(s, j);
    if Live(s, j) {
      var w :| w in s.workers && s.workers[w].job == j;
      HolderIsAlone(c, s, w);
    }
  }

  // The status an acknowledged job is left with is final except in one case, the one
  // in which its last acknowledgement took effect and the reply was lost: then it says
  // QUEUED, although COMPLETED or FAILED had been committed.
  lemma AcknowledgedStatusIsFinalIff(t: Tier, c: World, s: State, j: JobId)
    requires WorldOk(c) && t.exclusive && Reachable(t, c, s) && j in s.db.jobs && Acked(s, j)
    ensures j in s.history && (s.history[j].completed || s.history[j].failed)
    ensures s.db.jobs[j].status.Completed? || s.db.jobs[j].status.Failed? <==> !s.history[j].stranded
    ensures s.history[j].stranded ==> s.db.jobs[j].status.Queued?
  {
    ReachableIsExact(t, c, s);
    assert DeliveriesOk(s, j);
    var e :| 0 <= e < s.delivered <= |s.stream| && s.stream[e] == j && e !in s.pending;
    assert Settled(s, e);
  }

  lemma StepLeavesAcknowledged(c: World, s: State, a: Action, j: JobId)
    requires WorldOk(c) && Exact(c, s) && Enabled(c, s, a) && IsExclusive(s, a) && j in s.db.jobs && Acked(s, j)
    ensures j in Next(c, s, a).db.jobs && Next(c, s, a).db.jobs[j] == s.db.jobs[j] && Acked(Next(c, s, a), j)
  {
    // Nothing here depends on what these say.
    hide CopyOk, ErrorsCovered, PhaseOk, TableOk, ErrorsOk, ProgressOk;
    var e :| 0 <= e < s.delivered <= |s.stream| && s.stream[e] == j && e !in s.pending;
    if Writes(s, a, j) {
      HolderIsAlone(c, s, a.worker);
    }
    StepOnRow(c, s, a, j);
    var s' := Next(c, s, a);
    assert e < s'.delivered <= |s'.stream| && s'.stream[e] == j && e !in s'.pending;
  }

  // Whatever it says, it says so for good: nobody writes the row of an acknowledged job
  // again, so a stranded one stays QUEUED and is never delivered.
  lemma {:induction false} AcknowledgedRowsStay(t: Tier, c: World, s: State, actions: seq<Action>, final: State, j: JobId)
    requires WorldOk(c) && t.exclusive && Exact(c, s) && Run(t, c, s, actions, final) && j in s.db.jobs && Acked(s, j)
    ensures j in final.db.jobs && final.db.jobs[j] == s.db.jobs[j] && Acked(final, j) && Exact(c, final) && !Live(final, j)
    decreases |actions|
  {
    if actions != [] {
      StepLeavesAcknowledged(c, s, actions[0], j);
      StepKeepsExact(c, s, actions[0]);
      AcknowledgedRowsStay(t, c, Next(c, s, actions[0]), actions[1..], final, j);
    } else if Live(s, j) {
      var w :| w in s.workers && s.workers[w].job == j;
      HolderIsAlone(c, s, w);
    }
  }

  // A worker past the retry test is below the limit, so a delivery that starts
  // importing is at most the (MAX_RETRIES)-th counted one.
  lemma ImportingDeliveriesHaveRetriesLeft(t: Tier, c: World, s: State, w: int)
    requires WorldOk(c) && t.exclusive && Reachable(t, c, s) && w in s.workers
    requires s.workers[w].phase.Running? || s.workers[w].phase.Starting?
    ensures s.workers[w].job in s.history
    ensures s.history[s.workers[w].job].begun <= s.history[s.workers[w].job].lost + MAX_RETRIES
  {
    ReachableIsExact(t, c, s);
    HolderIsAlone(c, s, w);
    assert DeliveriesOk(s, s.workers[w].job);
  }

  // ---------- Progress is never undone ----------

  // A database write by worker w for job j.
  predicate Writes(s: State, a: Action, j: JobId) {
    && (a.Commit? || a.Retire? || a.Start? || a.RejectFile? || a.Complete? || a.Fail?)
    && a.worker in s.workers && s.workers[a.worker].job == j
  }

  // What one step does to a job row whose writer, if any, holds a fresh copy of it.
  lemma StepOnRow(c: World, s: State, a: Action, j: JobId)
    requires Enabled(c, s, a) && j in s.db.jobs
    requires Writes(s, a, j) ==> HolderOk(s, a.worker)
    ensures j in Next(c, s, a).db.jobs
    ensures s.db.jobs[j].checkpoint <= Next(c, s, a).db.jobs[j].checkpoint
    ensures s.db.jobs[j].successful <= Next(c, s, a).db.jobs[j].successful
    ensures !(a.Commit? && Writes(s, a, j)) ==>
              && Next(c, s, a).db.jobs[j].checkpoint == s.db.jobs[j].checkpoint
              && Next(c, s, a).db.jobs[j].successful == s.db.jobs[j].successful
    ensures !(a.Fail? && Writes(s, a, j)) ==> Next(c, s, a).db.jobs[j].retries == s.db.jobs[j].retries
    ensures a.Fail? && Writes(s, a, j) ==> !Next(c, s, a).db.jobs[j].status.Completed?
    ensures !Writes(s, a, j) ==> Next(c, s, a).db.jobs[j] == s.db.jobs[j]
  {
  }

  lemma ReachableHolder(t: Tier, c: World, s: State, a: Action, j: JobId)
    requires WorldOk(c) && t.exclusive && Reachable(t, c, s) && j in s.db.jobs
    ensures Writes(s, a, j) ==> HolderOk(s, a.worker) && WorkerOk(c, s, a.worker)
    ensures j in c.files && j in s.history && JobOk(c, s, j)
    ensures s.history[j].reach == s.db.jobs[j].checkpoint
  {
    ReachableIsExact(t, c, s);
    assert JobOk(c, s, j) && ProgressOk(c, s, j);
  }

  // Under exclusive delivery no step takes a job's progress back.
  lemma CheckpointsOnlyGrow(t: Tier, c: World, s: State, a: Action, j: JobId)
    requires WorldOk(c) && t.exclusive && Reachable(t, c, s) && Allowed(t, c, s, a) && j in s.db.jobs
    ensures j in Next(c, s, a).db.jobs
    ensures s.db.jobs[j].checkpoint <= Next(c, s, a).db.jobs[j].checkpoint
    ensures s.db.jobs[j].successful <= Next(c, s, a).db.jobs[j].successful
  {
    ReachableHolder(t, c, s, a, j);
    StepOnRow(c, s, a, j);
  }

  // Once a job has been COMPLETED no step imports for it again, and a stored COMPLETED
  // changes exactly when the final acknowledgement raises.
  lemma CompletedMeansDone(t: Tier, c: World, s: State, a: Action, j: JobId)
    requires WorldOk(c) && t.exclusive && Reachable(t, c, s) && Allowed(t, c, s, a)
    requires j in s.db.jobs && j in s.history && s.history[j].completed
    ensures a.Commit? ==> s.workers[a.worker].job != j
    ensures j in Next(c, s, a).db.jobs
    ensures Next(c, s, a).db.jobs[j].checkpoint == s.db.jobs[j].checkpoint
    ensures Next(c, s, a).db.jobs[j].successful == s.db.jobs[j].successful
    ensures s.db.jobs[j].status.Completed? ==>
              (!Next(c, s, a).db.jobs[j].status.Completed?
               <==> a.Fail? && s.workers[a.worker].job == j && s.workers[a.worker].phase.Finished?)
  {
    ReachableHolder(t, c, s, a, j);
    StepOnRow(c, s, a, j);
    if s.db.jobs[j].status.Completed? && Writes(s, a, j) {
      CompletedHolder(c, s, a, j);
    }
  }

  // A holder whose copy says COMPLETED has only its acknowledgement left.
  lemma CompletedHolder(c: World, s: State, a: Action, j: JobId)
    requires Enabled(c, s, a) && Writes(s, a, j) && WorkerOk(c, s, a.worker) && HolderOk(s, a.worker)
    requires j in s.db.jobs && s.db.jobs[j].status.Completed?
    ensures a.Fail? && s.workers[a.worker].phase.Finished?
  {
  }

  // A step commits FAILED for the job only by retiring it or rejecting its header.
  lemma NewlyFailed(c: World, s: State, a: Action, j: JobId)
    requires Safe(c, s) && Enabled(c, s, a) && j in s.db.jobs && j in s.history
    ensures j in Next(c, s, a).history
    ensures Next(c, s, a).history[j].failed ==> s.history[j].failed || ((a.Retire? || a.RejectFile?) && Writes(s, a, j))
  {
  }
}
