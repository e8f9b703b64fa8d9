/**
 What exclusive delivery adds: no delivery of a job begins while another is in
 progress, and a job is enqueued once. Attempts may still crash, fail and be
 repeated any number of times, and other jobs run beside this one.
 */
module Exclusive {
  import opened Common
  import opened Validation
  import opened Ledger
  import opened Protocol
  import opened Safety

  // ---------- The error rows of a job ----------

  function ErrorsOf(errors: seq<JobError>, j: JobId): seq<RowError> {
    if errors == [] then []
    else
      var e := errors[|errors| - 1];
      ErrorsOf(errors[..|errors| - 1], j) + if e.job == j then [e.error] else []
  }

  // The errors of the first k rows when row i was committed by an attempt that
  // started from checkpoint starts[i].
  function ErrorsGiven(rows: seq<RowOutcome>, starts: seq<nat>, k: nat): seq<RowError>
    requires k <= |starts| && k <= |rows|
  {
    if k == 0 then [] else ErrorsGiven(rows, starts, k - 1) + ErrorsAt(rows, starts[k - 1], k - 1)
  }

  lemma ErrorsOfOne(errors: seq<JobError>, e: JobError, i: JobId)
    ensures ErrorsOf(errors + [e], i) == ErrorsOf(errors, i) + if e.job == i then [e.error] else []
  {
    assert (errors + [e])[..|errors|] == errors;
  }

  lemma JobErrorsOne(errors: seq<JobError>, j: JobId, front: seq<RowError>, last: RowError)
    ensures errors + JobErrors(j, front + [last]) == (errors + JobErrors(j, front)) + [JobError(j, last)]
  {
  }

  lemma {:induction false} ErrorsOfAppended(errors: seq<JobError>, j: JobId, more: seq<RowError>, i: JobId)
    ensures ErrorsOf(errors + JobErrors(j, more), i) == ErrorsOf(errors, i) + if i == j then more else []
  {
    if more == [] {
      assert errors + JobErrors(j, more) == errors;
    } else {
      var front, last := more[..|more| - 1], more[|more| - 1];
      assert more == front + [last];
      ErrorsOfAppended(errors, j, front, i);
      JobErrorsOne(errors, j, front, last);
      ErrorsOfOne(errors + JobErrors(j, front), JobError(j, last), i);
    }
  }

  lemma {:induction false} ErrorsGivenPrefix(rows: seq<RowOutcome>, starts: seq<nat>, more: seq<nat>, k: nat)
    requires k <= |starts| && k <= |rows|
    ensures ErrorsGiven(rows, starts + more, k) == ErrorsGiven(rows, starts, k)
  {
    if k > 0 {
      ErrorsGivenPrefix(rows, starts, more, k - 1);
    }
  }

  lemma {:induction false} ErrorsGivenExtended(rows: seq<RowOutcome>, starts: seq<nat>, start: nat, lo: nat, hi: nat)
    requires lo <= hi <= |rows| && hi <= |starts| && forall i :: lo <= i < hi ==> starts[i] == start
    ensures ErrorsGiven(rows, starts, hi) == ErrorsGiven(rows, starts, lo) + ErrorsIn(rows, start, lo, hi)
  {
    if lo < hi {
      ErrorsGivenExtended(rows, starts, start, lo, hi - 1);
      var given, mid, last := ErrorsGiven(rows, starts, lo), ErrorsIn(rows, start, lo, hi - 1), ErrorsAt(rows, start, hi - 1);
      assert (given + mid) + last == given + (mid + last);
    }
  }

  // ---------- The invariant ----------

  predicate Live(s: State, j: JobId) {
    exists w :: w in s.workers && s.workers[w].job == j
  }

  predicate Acked(s: State, j: JobId) {
    exists e :: 0 <= e < s.delivered <= |s.stream| && s.stream[e] == j && e !in s.pending
  }

  function One(b: bool): nat { if b then 1 else 0 }

  predicate BatchesOk(c: World, n: nat, checkpoint: nat, commits: nat) {
    && checkpoint == (if commits * BatchLength(c) < n then commits * BatchLength(c) else n)
    && (commits > 0 ==> (commits - 1) * BatchLength(c) < n)
  }

  predicate CountersOk(c: World, s: State, j: JobId)
    requires j in s.db.jobs && j in s.history && j in c.files
  {
    var row, h, rows := s.db.jobs[j], s.history[j], c.files[j].rows;
    && h.reach == row.checkpoint == |h.starts| <= |rows|
    && BatchesOk(c, |rows|, row.checkpoint, h.commits)
    && row.successful == Tagged(s.db.table, j)
  }

  predicate ErrorRowsOk(c: World, s: State, j: JobId)
    requires j in s.history && j in c.files
  {
    var h, rows := s.history[j], c.files[j].rows;
    && |h.starts| <= |rows|
    && ErrorsOf(s.db.errors, j) == ErrorsGiven(rows, h.starts, |h.starts|)
  }

  predicate StartsOk(h: History) {
    && (forall i :: 0 <= i < |h.starts| ==> h.starts[i] <= i)
    && (h.begun == 0 ==> |h.starts| == 0)
    && (h.begun <= 1 ==> forall i :: 0 <= i < |h.starts| ==> h.starts[i] == 0)
  }

  predicate ProgressOk(c: World, s: State, j: JobId)
    requires j in s.db.jobs && j in s.history && j in c.files
  {
    CountersOk(c, s, j) && ErrorRowsOk(c, s, j) && StartsOk(s.history[j])
  }

  predicate DeliveriesOk(s: State, j: JobId)
    requires j in s.db.jobs && j in s.history
  {
    var row, h := s.db.jobs[j], s.history[j];
    && row.retries <= MAX_RETRIES
    // Each delivery is lost, counted, live or acknowledged, and one at most is two of these.
    && h.begun + One(h.stranded) == h.lost + row.retries + One(Live(s, j)) + One(Acked(s, j))
    && (h.stranded ==> Acked(s, j) && row.status.Queued?)
    && (Acked(s, j) && !h.stranded ==> row.status.Completed? || row.status.Failed?)
  }

  predicate HolderOk(s: State, w: int)
    requires w in s.workers
  {
    var worker := s.workers[w];
    && worker.job in s.db.jobs && worker.job in s.history
    && worker.local == s.db.jobs[worker.job]
    && worker.entry in s.pending
    && (!worker.phase.Skipping? && !worker.phase.Retiring? ==> worker.local.retries < MAX_RETRIES)
    && (worker.phase.Skipping? || worker.phase.Finished? ==> worker.local.status.Completed? || worker.local.status.Failed?)
    && (worker.phase.Starting? && s.history[worker.job].begun <= 1 ==> worker.local.checkpoint == 0)
    && (worker.phase.Running? && s.history[worker.job].begun <= 1 ==> worker.phase.start == 0)
  }

  predicate Sole(s: State) {
    && (forall d, e :: 0 <= d < e < |s.stream| ==> s.stream[d] != s.stream[e])
    && (forall v, w :: v in s.workers && w in s.workers && v != w ==> s.workers[v].job != s.workers[w].job)
  }

  predicate Exact(c: World, s: State) {
    && Safe(c, s)
    && Sole(s)
    && (forall w :: w in s.workers ==> HolderOk(s, w))
    && (forall j :: j in s.db.jobs ==> ProgressOk(c, s, j) && DeliveriesOk(s, j))
  }

  // ---------- Each action keeps it ----------

  // One worker's step: the other jobs and workers, and the deliveries, are as before.
  predicate OwnStep(s: State, s': State, w: int, j: JobId) {
    && w in s.workers && s.workers[w].job == j
    && s'.workers.Keys == s.workers.Keys
    && s'.workers[w].job == j && s'.workers[w].entry == s.workers[w].entry
    && OnlyTouches(s, s', j, w)
    && (forall i :: i in s.db.jobs && i != j ==> Tagged(s'.db.table, i) == Tagged(s.db.table, i)
                                                 && ErrorsOf(s'.db.errors, i) == ErrorsOf(s.db.errors, i))
    && j in s'.history && j in s'.db.jobs && j in s.db.jobs && j in s.history
    && s'.history[j].begun == s.history[j].begun && s'.history[j].lost == s.history[j].lost
    && s'.history[j].stranded == s.history[j].stranded
    && s'.db.jobs[j].retries == s.db.jobs[j].retries
  }

  lemma OwnStepKeepsDeliveries(s: State, s': State, w: int, j: JobId, i: JobId)
    requires OwnStep(s, s', w, j) && !Acked(s, j)
    requires i in s.db.jobs && i in s.history && i in s'.history && DeliveriesOk(s, i)
    ensures i in s'.db.jobs && DeliveriesOk(s', i)
  {
    assert Live(s', i) <==> Live(s, i) by {
      if Live(s, i) {
        var v :| v in s.workers && s.workers[v].job == i;
        assert v in s'.workers && s'.workers[v].job == i;
      }
      if Live(s', i) {
        var v :| v in s'.workers && s'.workers[v].job == i;
        assert v in s.workers && s.workers[v].job == i;
      }
    }
    assert Acked(s', i) <==> Acked(s, i);
  }

  lemma OwnStepKeepsExact(c: World, s: State, s': State, w: int, j: JobId)
    requires Exact(c, s) && Safe(c, s') && OwnStep(s, s', w, j)
    requires j in c.files && ProgressOk(c, s', j) && HolderOk(s', w)
    ensures Exact(c, s')
  {
    HolderIsAlone(c, s, w);
    forall i | i in s'.db.jobs
      ensures ProgressOk(c, s', i) && DeliveriesOk(s', i)
    {
      assert ProgressOk(c, s, i) && DeliveriesOk(s, i);
      OwnStepKeepsDeliveries(s, s', w, j, i);
    }
    OwnStepKeepsHolders(c, s, s', w, j);
  }

  lemma OwnStepKeepsHolders(c: World, s: State, s': State, w: int, j: JobId)
    requires Exact(c, s) && OwnStep(s, s', w, j) && HolderOk(s', w)
    ensures Sole(s') && forall v :: v in s'.workers ==> HolderOk(s', v)
  {
    forall v | v in s'.workers
      ensures HolderOk(s', v)
    {
      if v != w {
        assert HolderOk(s, v) && s.workers[v].job != j;
      }
    }
  }

  // Retire, Start, RejectFile and Complete leave the progress columns alone.
  predicate StatusWrite(s: State, s': State, w: int, j: JobId) {
    && OwnStep(s, s', w, j)
    && s'.db.table == s.db.table && s'.db.errors == s.db.errors
    && (var r, r' := s.db.jobs[j], s'.db.jobs[j];
        r'.checkpoint == r.checkpoint && r'.successful == r.successful)
    && (var h, h' := s.history[j], s'.history[j];
        h'.reach == h.reach && h'.commits == h.commits && h'.starts == h.starts)
  }

  lemma StatusWriteKeepsExact(c: World, s: State, s': State, w: int, j: JobId)
    requires Exact(c, s) && Safe(c, s') && StatusWrite(s, s', w, j) && j in c.files
    requires HolderOk(s', w)
    ensures Exact(c, s')
  {
    assert ProgressOk(c, s, j);
    OwnStepKeepsExact(c, s, s', w, j);
  }

  // The steps that write a status and little else.
  predicate WritesStatus(a: Action) {
    a.Retire? || a.Start? || a.RejectFile? || a.Complete?
  }

  // Read off the step alone, from what the holder knows.
  lemma StatusStepIsWrite(c: World, s: State, a: Action)
    requires WritesStatus(a) && Enabled(c, s, a) && HolderOk(s, a.worker)
    ensures StatusWrite(s, Next(c, s, a), a.worker, s.workers[a.worker].job)
    ensures HolderOk(Next(c, s, a), a.worker)
  {
  }

  lemma StatusStepKeepsExact(c: World, s: State, a: Action)
    requires WritesStatus(a) && Exact(c, s) && Enabled(c, s, a)
    ensures Exact(c, Next(c, s, a))
  {
    StepKeepsSafe(c, s, a);
    StatusStepIsWrite(c, s, a);
    StatusWriteKeepsExact(c, s, Next(c, s, a), a.worker, s.workers[a.worker].job);
  }

  lemma BatchesNext(c: World, rows: seq<RowOutcome>, lo: nat, commits: nat)
    requires lo < |rows| && BatchesOk(c, |rows|, lo, commits)
    ensures BatchesOk(c, |rows|, BatchEnd(c, rows, lo), commits + 1)
  {
    var b := BatchLength(c);
    assert lo == commits * b;
    assert (commits + 1) * b == commits * b + b;
  }

  lemma StartsExtended(h: History, start: nat, hi: nat)
    requires StartsOk(h) && start <= |h.starts| <= hi && h.begun > 0
    requires h.begun <= 1 ==> start == 0
    ensures StartsOk(h.(starts := StartsAfter(h.starts, start, |h.starts|, hi)))
  {
  }

  lemma CommitKeepsStarts(c: World, s: State, w: int)
    requires Exact(c, s) && Enabled(c, s, Commit(w))
    ensures var h' := NextCommit(c, s, w).history[s.workers[w].job];
            StartsOk(h') && |h'.starts| == BatchEnd(c, Rows(c, s, w), s.workers[w].local.checkpoint)
  {
    var me := s.workers[w];
    var j := me.job;
    HolderIsAlone(c, s, w);
    assert ProgressOk(c, s, j) && DeliveriesOk(s, j);
    StartsExtended(s.history[j], me.phase.start, BatchEnd(c, Rows(c, s, w), me.local.checkpoint));
  }

  lemma CommitKeepsTagged(c: World, s: State, w: int)
    requires Exact(c, s) && Enabled(c, s, Commit(w))
    ensures var s' := NextCommit(c, s, w);
            s'.db.jobs[s.workers[w].job].successful == Tagged(s'.db.table, s.workers[w].job)
  {
    var me := s.workers[w];
    var j, rows, lo := me.job, Rows(c, s, w), me.local.checkpoint;
    var hi := BatchEnd(c, rows, lo);
    assert HolderOk(s, w) && ProgressOk(c, s, j);
    assert NextCommit(c, s, w).db.table == Import(s.db.table, j, rows, lo, hi) by {
      BatchKeepsCopyOk(c, s, w);
    }
    ImportTagsItsGains(s.db.table, j, rows, lo, hi, hi);
  }

  lemma CommitKeepsCounters(c: World, s: State, w: int)
    requires Exact(c, s) && Enabled(c, s, Commit(w))
    ensures CountersOk(c, NextCommit(c, s, w), s.workers[w].job)
  {
    var me := s.workers[w];
    var j, rows, lo := me.job, Rows(c, s, w), me.local.checkpoint;
    assert HolderOk(s, w) && ProgressOk(c, s, j);
    CommitKeepsStarts(c, s, w);
    CommitKeepsTagged(c, s, w);
    BatchesNext(c, rows, lo, s.history[j].commits);
  }

  lemma ErrorRowsAppended(rows: seq<RowOutcome>, errors: seq<JobError>, j: JobId, starts: seq<nat>, start: nat, hi: nat)
    requires |starts| <= hi <= |rows| && ErrorsOf(errors, j) == ErrorsGiven(rows, starts, |starts|)
    ensures ErrorsOf(errors + JobErrors(j, ErrorsIn(rows, start, |starts|, hi)), j)
            == ErrorsGiven(rows, StartsAfter(starts, start, |starts|, hi), hi)
  {
    var more := Times(hi - |starts|, start);
    ErrorsOfAppended(errors, j, ErrorsIn(rows, start, |starts|, hi), j);
    ErrorsGivenPrefix(rows, starts, more, |starts|);
    ErrorsGivenExtended(rows, starts + more, start, |starts|, hi);
  }

  lemma CommitExtendsStarts(c: World, s: State, w: int)
    requires Enabled(c, s, Commit(w)) && |s.history[s.workers[w].job].starts| == s.workers[w].local.checkpoint
    ensures var me, lo := s.workers[w], s.workers[w].local.checkpoint;
            var hi := BatchEnd(c, Rows(c, s, w), lo);
            && NextCommit(c, s, w).history[me.job].starts == StartsAfter(s.history[me.job].starts, me.phase.start, lo, hi)
            && |NextCommit(c, s, w).history[me.job].starts| == hi
  {
  }

  lemma CommitKeepsErrorRows(c: World, s: State, w: int)
    requires Safe(c, s) && Enabled(c, s, Commit(w))
    requires ErrorRowsOk(c, s, s.workers[w].job)
    requires |s.history[s.workers[w].job].starts| == s.workers[w].local.checkpoint
    ensures ErrorRowsOk(c, NextCommit(c, s, w), s.workers[w].job)
  {
    var me := s.workers[w];
    CommitExtendsStarts(c, s, w);
    CommitAppendsErrors(c, s, w);
    ErrorRowsAppended(Rows(c, s, w), s.db.errors, me.job, s.history[me.job].starts, me.phase.start,
                      BatchEnd(c, Rows(c, s, w), me.local.checkpoint));
  }

  lemma CommitLeavesOtherJobs(c: World, s: State, w: int, i: JobId)
    requires Safe(c, s) && Enabled(c, s, Commit(w)) && i != s.workers[w].job
    ensures Tagged(NextCommit(c, s, w).db.table, i) == Tagged(s.db.table, i)
    ensures ErrorsOf(NextCommit(c, s, w).db.errors, i) == ErrorsOf(s.db.errors, i)
  {
    var me := s.workers[w];
    var lo := me.local.checkpoint;
    assert NextCommit(c, s, w).db.table == Import(s.db.table, me.job, Rows(c, s, w), lo, BatchEnd(c, Rows(c, s, w), lo)) by {
      BatchKeepsCopyOk(c, s, w);
    }
    ImportTagsNoOther(s.db.table, me.job, Rows(c, s, w), lo, BatchEnd(c, Rows(c, s, w), lo), i);
    ErrorsOfAppended(s.db.errors, me.job, NextBatch(c, s, w).errors, i);
  }

  lemma CommitTouchesOne(c: World, s: State, w: int)
    requires Enabled(c, s, Commit(w))
    ensures OnlyTouches(s, NextCommit(c, s, w), s.workers[w].job, w)
  {
  }

  lemma CommitIsOwnStep(c: World, s: State, w: int)
    requires Exact(c, s) && Enabled(c, s, Commit(w))
    ensures OwnStep(s, NextCommit(c, s, w), w, s.workers[w].job)
  {
    var s' := NextCommit(c, s, w);
    assert HolderOk(s, w);
    CommitTouchesOne(c, s, w);
    forall i | i in s.db.jobs && i != s.workers[w].job
      ensures Tagged(s'.db.table, i) == Tagged(s.db.table, i)
      ensures ErrorsOf(s'.db.errors, i) == ErrorsOf(s.db.errors, i)
    {
      CommitLeavesOtherJobs(c, s, w, i);
    }
  }

  lemma CommitKeepsExact(c: World, s: State, w: int)
    requires Exact(c, s) && Enabled(c, s, Commit(w))
    ensures Exact(c, NextCommit(c, s, w))
  {
    var s' := NextCommit(c, s, w);
    var j := s.workers[w].job;
    assert HolderOk(s, w) && WorkerOk(c, s, w);
    StepKeepsSafe(c, s, Commit(w));
    CommitKeepsStarts(c, s, w);
    CommitKeepsCounters(c, s, w);
    assert ProgressOk(c, s, j);
    CommitKeepsErrorRows(c, s, w);
    CommitIsOwnStep(c, s, w);
    BatchKeepsCopyOk(c, s, w);
    assert s'.db.jobs[j] == s'.workers[w].local;
    OwnStepKeepsExact(c, s, s', w, j);
  }

  // ---------- Deliveries beginning and ending ----------

  // Before an exclusive Begin nobody holds the job.
  lemma BeginFindsNoHolder(c: World, s: State, w: int, e: nat)
    requires Exact(c, s) && Enabled(c, s, Begin(w, e)) && IsExclusive(s, Begin(w, e))
    ensures forall v :: v in s.workers ==> s.workers[v].job != s.stream[e]
    ensures !Live(s, s.stream[e])
  {
    forall v | v in s.workers
      ensures s.workers[v].job != s.stream[e]
    {
      assert WorkerOk(c, s, v);
    }
  }

  lemma BeginKeepsHolders(c: World, s: State, w: int, e: nat)
    requires Exact(c, s) && Enabled(c, s, Begin(w, e)) && IsExclusive(s, Begin(w, e))
    ensures var s' := Next(c, s, Begin(w, e));
            Sole(s') && forall v :: v in s'.workers ==> HolderOk(s', v)
  {
    var s' := Next(c, s, Begin(w, e));
    var j := s.stream[e];
    assert JobOk(c, s, j) && ProgressOk(c, s, j);
    BeginFindsNoHolder(c, s, w, e);
    forall v | v in s'.workers
      ensures HolderOk(s', v)
    {
      if v != w {
        assert HolderOk(s, v);
      }
    }
  }

  lemma BeginKeepsJobs(c: World, s: State, w: int, e: nat, i: JobId)
    requires Exact(c, s) && Enabled(c, s, Begin(w, e)) && IsExclusive(s, Begin(w, e)) && i in s.db.jobs
    requires i in c.files && i in s.history
    ensures var s' := Next(c, s, Begin(w, e));
            i in s'.db.jobs && i in s'.history && ProgressOk(c, s', i) && DeliveriesOk(s', i)
  {
    var s' := Next(c, s, Begin(w, e));
    var j := s.stream[e];
    assert j in s.db.jobs;
    BeginFindsNoHolder(c, s, w, e);
    assert ProgressOk(c, s, i) && DeliveriesOk(s, i);
    BeginKeepsDeliveries(s, w, e, i);
  }

  lemma BeginKeepsDeliveries(s: State, w: int, e: nat, i: JobId)
    requires w !in s.workers && e < |s.stream| && s.stream[e] in s.db.jobs && s.stream[e] in s.history && !Live(s, s.stream[e])
    requires i in s.db.jobs && i in s.history && DeliveriesOk(s, i)
    ensures DeliveriesOk(NextBegin(s, w, e), i)
  {
    var s' := NextBegin(s, w, e);
    assert Acked(s', i) <==> Acked(s, i);
    if i == s.stream[e] {
      assert s'.workers[w].job == i;
      assert Live(s', i);
    } else {
      LiveElsewhere(s, s', w, i);
    }
  }

  lemma BeginKeepsExact(c: World, s: State, w: int, e: nat)
    requires Exact(c, s) && Enabled(c, s, Begin(w, e)) && IsExclusive(s, Begin(w, e))
    ensures Exact(c, Next(c, s, Begin(w, e)))
  {
    var s' := Next(c, s, Begin(w, e));
    StepKeepsSafe(c, s, Begin(w, e));
    BeginKeepsHolders(c, s, w, e);
    forall i | i in s'.db.jobs
      ensures ProgressOk(c, s', i) && DeliveriesOk(s', i)
    {
      assert i in s.db.jobs && JobOk(c, s, i);
      BeginKeepsJobs(c, s, w, e, i);
    }
  }

  // A job other than the one worker w holds is live before iff it is live after.
  lemma LiveElsewhere(s: State, s': State, w: int, i: JobId)
    requires s'.workers - {w} == s.workers - {w}
    requires w in s.workers ==> s.workers[w].job != i
    requires w in s'.workers ==> s'.workers[w].job != i
    ensures Live(s', i) <==> Live(s, i)
  {
    if v :| v in s.workers && s.workers[v].job == i {
      assert v in s.workers - {w} && (s.workers - {w})[v] == s.workers[v];
      assert v in s'.workers && s'.workers[v].job == i;
    }
    if v :| v in s'.workers && s'.workers[v].job == i {
      assert v in s'.workers - {w} && (s'.workers - {w})[v] == s'.workers[v];
      assert v in s.workers && s.workers[v].job == i;
    }
  }

  // The one pending entry of a job in progress, and what ending its delivery leaves.
  lemma HolderIsAlone(c: World, s: State, w: int)
    requires Exact(c, s) && w in s.workers
    ensures HolderOk(s, w) && WorkerOk(c, s, w)
    ensures Live(s, s.workers[w].job) && !Acked(s, s.workers[w].job)
    ensures forall v :: v in s.workers && v != w ==> s.workers[v].job != s.workers[w].job
  {
    var j := s.workers[w].job;
    assert HolderOk(s, w) && WorkerOk(c, s, w);
    assert s.stream[s.workers[w].entry] == j;
  }

  lemma EndKeepsHolders(c: World, s: State, s': State, w: int)
    requires Exact(c, s) && w in s.workers && s'.workers == s.workers - {w}
    requires s'.pending == s.pending || s'.pending == s.pending - {s.workers[w].entry}
    requires s'.history.Keys == s.history.Keys && s'.db.jobs.Keys == s.db.jobs.Keys
    requires forall i :: i in s.db.jobs && i != s.workers[w].job ==> s'.db.jobs[i] == s.db.jobs[i] && s'.history[i] == s.history[i]
    ensures forall v :: v in s'.workers ==> HolderOk(s', v)
    ensures !Live(s', s.workers[w].job)
  {
    HolderIsAlone(c, s, w);
    forall v | v in s'.workers
      ensures HolderOk(s', v)
    {
      assert HolderOk(s, v) && WorkerOk(c, s, v);
      assert s.workers[v].entry != s.workers[w].entry;
    }
  }

  // A delivery of job j ends without acknowledgement and is accounted for.
  predicate Abandons(s: State, s': State, w: int, j: JobId) {
    && w in s.workers && s.workers[w].job == j && s'.workers == s.workers - {w}
    && s'.pending == s.pending && s'.stream == s.stream && s'.delivered == s.delivered
    && s'.db.table == s.db.table && s'.db.errors == s.db.errors
    && s'.history.Keys == s.history.Keys && s'.db.jobs.Keys == s.db.jobs.Keys
    && (forall i :: i in s.db.jobs && i in s.history && i != j ==> s'.db.jobs[i] == s.db.jobs[i] && s'.history[i] == s.history[i])
    && j in s.db.jobs && j in s.history
    && (var r, r' := s.db.jobs[j], s'.db.jobs[j];
        var h, h' := s.history[j], s'.history[j];
        && r'.checkpoint == r.checkpoint && r'.successful == r.successful && r'.retries <= MAX_RETRIES
        && h'.reach == h.reach && h'.commits == h.commits && h'.starts == h.starts && h'.begun == h.begun
        && h'.stranded == h.stranded
        && h'.lost + r'.retries == h.lost + r.retries + 1)
  }

  lemma AbandonedDeliveries(s: State, s': State, w: int, j: JobId, i: JobId)
    requires Abandons(s, s', w, j) && Live(s, j) && !Live(s', j) && !Acked(s, j)
    requires i in s.db.jobs && i in s.history && i in s'.db.jobs && i in s'.history && DeliveriesOk(s, i)
    ensures DeliveriesOk(s', i)
  {
    assert Acked(s', i) <==> Acked(s, i);
    if i != j {
      LiveElsewhere(s, s', w, i);
    }
  }

  lemma AbandonKeepsExact(c: World, s: State, s': State, w: int, j: JobId)
    requires Exact(c, s) && Safe(c, s') && Abandons(s, s', w, j)
    ensures Exact(c, s')
  {
    HolderIsAlone(c, s, w);
    EndKeepsHolders(c, s, s', w);
    forall i | i in s'.db.jobs
      ensures ProgressOk(c, s', i) && DeliveriesOk(s', i)
    {
      assert ProgressOk(c, s, i) && DeliveriesOk(s, i);
      AbandonedDeliveries(s, s', w, j, i);
    }
  }

  lemma CrashKeepsExact(c: World, s: State, w: int)
    requires Exact(c, s) && Enabled(c, s, Crash(w))
    ensures Exact(c, Next(c, s, Crash(w)))
  {
    HolderIsAlone(c, s, w);
    StepKeepsSafe(c, s, Crash(w));
    assert DeliveriesOk(s, s.workers[w].job);
    AbandonKeepsExact(c, s, Next(c, s, Crash(w)), w, s.workers[w].job);
  }

  lemma RequeueKeepsExact(c: World, s: State, w: int, cause: Cause)
    requires Exact(c, s) && Enabled(c, s, Fail(w, cause)) && !cause.ReplyLost?
    ensures Exact(c, Next(c, s, Fail(w, cause)))
  {
    // Nothing here depends on what these say.
    hide CopyOk, ErrorsCovered, PhaseOk, TableOk, ErrorsOk;
    HolderIsAlone(c, s, w);
    StepKeepsSafe(c, s, Fail(w, cause));
    AbandonKeepsExact(c, s, Next(c, s, Fail(w, cause)), w, s.workers[w].job);
  }

  // The job a lost reply strands.
  lemma StrandedJobIsOk(c: World, s: State, w: int)
    requires Exact(c, s) && Enabled(c, s, Fail(w, ReplyLost))
    ensures var s', j := Next(c, s, Fail(w, ReplyLost)), s.workers[w].job;
            ProgressOk(c, s', j) && DeliveriesOk(s', j) && !Live(s', j)
  {
    var s' := Next(c, s, Fail(w, ReplyLost));
    var j, e := s.workers[w].job, s.workers[w].entry;
    HolderIsAlone(c, s, w);
    assert ProgressOk(c, s, j) && DeliveriesOk(s, j);
    assert e < s'.delivered && s'.stream[e] == j && e !in s'.pending;
    assert Acked(s', j);
    EndKeepsHolders(c, s, s', w);
  }

  lemma StrandedElsewhere(c: World, s: State, w: int, i: JobId)
    requires w in s.workers && s.workers[w].job in s.db.jobs && s.workers[w].job in s.history && s.workers[w].job != i
    requires s.workers[w].entry < |s.stream| && s.stream[s.workers[w].entry] != i
    requires i in s.db.jobs && i in s.history && DeliveriesOk(s, i) && i in c.files && ProgressOk(c, s, i)
    ensures DeliveriesOk(NextFail(s, w, ReplyLost), i) && ProgressOk(c, NextFail(s, w, ReplyLost), i)
  {
    var s' := NextFail(s, w, ReplyLost);
    LiveElsewhere(s, s', w, i);
    AckedElsewhere(s, s', s.workers[w].entry, i);
  }

  lemma StrandKeepsExact(c: World, s: State, w: int)
    requires Exact(c, s) && Enabled(c, s, Fail(w, ReplyLost))
    ensures Exact(c, Next(c, s, Fail(w, ReplyLost)))
  {
    // Nothing here depends on what these say.
    hide CopyOk, ErrorsCovered, PhaseOk, TableOk, ErrorsOk, StreamOk, ProgressOk, DeliveriesOk;
    var s' := Next(c, s, Fail(w, ReplyLost));
    StepKeepsSafe(c, s, Fail(w, ReplyLost));
    HolderIsAlone(c, s, w);
    EndKeepsHolders(c, s, s', w);
    forall i | i in s'.db.jobs
      ensures ProgressOk(c, s', i) && DeliveriesOk(s', i)
    {
      assert ProgressOk(c, s, i) && DeliveriesOk(s, i);
      if i == s.workers[w].job {
        StrandedJobIsOk(c, s, w);
      } else {
        StrandedElsewhere(c, s, w, i);
      }
    }
  }

  // The job an acknowledgement settles.
  lemma AcknowledgedJobIsOk(c: World, s: State, w: int)
    requires Exact(c, s) && Enabled(c, s, Acknowledge(w))
    ensures var s', j := Next(c, s, Acknowledge(w)), s.workers[w].job;
            j in s'.db.jobs && j in s'.history && j in c.files && ProgressOk(c, s', j) && DeliveriesOk(s', j)
  {
    // Nothing here depends on what these say.
    hide CopyOk, ErrorsCovered, TableOk, ErrorsOk;
    var s' := Next(c, s, Acknowledge(w));
    var j, e := s.workers[w].job, s.workers[w].entry;
    HolderIsAlone(c, s, w);
    EndKeepsHolders(c, s, s', w);
    assert ProgressOk(c, s, j) && DeliveriesOk(s, j);
    assert e < s'.delivered && s'.stream[e] == j && e !in s'.pending;
    assert Acked(s', j);
  }

  lemma AcknowledgeKeepsExact(c: World, s: State, w: int)
    requires Exact(c, s) && Enabled(c, s, Acknowledge(w))
    ensures Exact(c, Next(c, s, Acknowledge(w)))
  {
    // Nothing here depends on what these say.
    hide CopyOk, ErrorsCovered, PhaseOk, TableOk, ErrorsOk;
    var s' := Next(c, s, Acknowledge(w));
    StepKeepsSafe(c, s, Acknowledge(w));
    HolderIsAlone(c, s, w);
    EndKeepsHolders(c, s, s', w);
    AcknowledgedJobIsOk(c, s, w);
    forall i | i in s'.db.jobs
      ensures ProgressOk(c, s', i) && DeliveriesOk(s', i)
    {
      assert ProgressOk(c, s, i) && DeliveriesOk(s, i);
      if i != s.workers[w].job {
        LiveElsewhere(s, s', w, i);
        AckedElsewhere(s, s', s.workers[w].entry, i);
      }
    }
  }

  lemma AckedElsewhere(s: State, s': State, e: nat, i: JobId)
    requires e < |s.stream| && s.stream[e] != i
    requires s'.stream == s.stream && s'.delivered == s.delivered && s'.pending == s.pending - {e}
    ensures Acked(s', i) <==> Acked(s, i)
  {
    if d :| 0 <= d < s'.delivered <= |s'.stream| && s'.stream[d] == i && d !in s'.pending {
      assert d !in s.pending;
    }
  }

  // ---------- New jobs and entries ----------

  lemma {:induction false} NoneTagged(table: seq<Entry>, j: JobId)
    requires forall k :: 0 <= k < |table| ==> table[k].job != j
    ensures Tagged(table, j) == 0
  {
    if table != [] {
      NoneTagged(table[..|table| - 1], j);
    }
  }

  lemma {:induction false} NoErrorsOf(errors: seq<JobError>, j: JobId)
    requires forall k :: 0 <= k < |errors| ==> errors[k].job != j
    ensures ErrorsOf(errors, j) == []
  {
    if errors != [] {
      NoErrorsOf(errors[..|errors| - 1], j);
    }
  }

  lemma NewJobIsUntouched(c: World, s: State, j: JobId)
    requires WorldOk(c) && Safe(c, s) && j in c.files && j !in s.db.jobs
    ensures Tagged(s.db.table, j) == 0 && ErrorsOf(s.db.errors, j) == []
  {
    forall k | 0 <= k < |s.db.table|
      ensures s.db.table[k].job != j
    {
      if k >= |c.before| {
        assert EntryOk(c, s, k);
      }
    }
    NoneTagged(s.db.table, j);
    NoErrorsOf(s.db.errors, j);
  }

  lemma CreateKeepsExact(c: World, s: State, j: JobId)
    requires WorldOk(c) && Exact(c, s) && Enabled(c, s, Create(j))
    ensures Exact(c, Next(c, s, Create(j)))
  {
    var s' := Next(c, s, Create(j));
    StepKeepsSafe(c, s, Create(j));
    NewJobIsUntouched(c, s, j);
    forall w | w in s'.workers
      ensures HolderOk(s', w) && s.workers[w].job != j
    {
      assert HolderOk(s, w);
    }
    forall i | i in s'.db.jobs
      ensures ProgressOk(c, s', i) && DeliveriesOk(s', i)
    {
      assert Acked(s', i) <==> Acked(s, i);
      assert Live(s', i) <==> Live(s, i);
      if i == j {
        assert 0 * BatchLength(c) == 0;
        assert ProgressOk(c, s', j);
      } else {
        assert ProgressOk(c, s, i) && DeliveriesOk(s, i);
      }
    }
  }

  lemma EnqueueKeepsAcked(c: World, s: State, j: JobId, i: JobId)
    requires Enabled(c, s, Enqueue(j)) && s.delivered <= |s.stream|
    ensures Acked(Next(c, s, Enqueue(j)), i) <==> Acked(s, i)
  {
    var s' := Next(c, s, Enqueue(j));
    if e :| 0 <= e < s.delivered && s.stream[e] == i && e !in s.pending {
      assert s'.stream[e] == i;
    }
    if e :| 0 <= e < s'.delivered && s'.stream[e] == i && e !in s'.pending {
      assert s.stream[e] == i;
    }
  }

  lemma EnqueueKeepsExact(c: World, s: State, j: JobId)
    requires Exact(c, s) && Enabled(c, s, Enqueue(j)) && IsExclusive(s, Enqueue(j))
    ensures Exact(c, Next(c, s, Enqueue(j)))
  {
    // Nothing here depends on what these say.
    hide CopyOk, ErrorsCovered, PhaseOk, TableOk, ErrorsOk;
    var s' := Next(c, s, Enqueue(j));
    StepKeepsSafe(c, s, Enqueue(j));
    forall w | w in s'.workers
      ensures HolderOk(s', w)
    {
      assert HolderOk(s, w);
    }
    forall i | i in s'.db.jobs
      ensures ProgressOk(c, s', i) && DeliveriesOk(s', i)
    {
      assert ProgressOk(c, s, i) && DeliveriesOk(s, i);
      assert Live(s', i) <==> Live(s, i);
      EnqueueKeepsAcked(c, s, j, i);
    }
  }

  lemma DeliverKeepsAcked(c: World, s: State, i: JobId)
    requires Enabled(c, s, Deliver)
    ensures Acked(Next(c, s, Deliver), i) <==> Acked(s, i)
  {
    var s' := Next(c, s, Deliver);
    if e :| 0 <= e < s.delivered <= |s.stream| && s.stream[e] == i && e !in s.pending {
      assert e < s'.delivered && e !in s'.pending;
    }
  }

  lemma DeliverKeepsExact(c: World, s: State)
    requires Exact(c, s) && Enabled(c, s, Deliver)
    ensures Exact(c, Next(c, s, Deliver))
  {
    // Nothing here depends on what these say.
    hide CopyOk, ErrorsCovered, PhaseOk, TableOk, ErrorsOk;
    var s' := Next(c, s, Deliver);
    StepKeepsSafe(c, s, Deliver);
    forall w | w in s'.workers
      ensures HolderOk(s', w)
    {
      assert HolderOk(s, w);
    }
    forall i | i in s'.db.jobs
      ensures ProgressOk(c, s', i) && DeliveriesOk(s', i)
    {
      assert ProgressOk(c, s, i) && DeliveriesOk(s, i);
      assert Live(s', i) <==> Live(s, i);
      DeliverKeepsAcked(c, s, i);
    }
  }

  lemma StepKeepsExact(c: World, s: State, a: Action)
    requires WorldOk(c) && Exact(c, s) && Enabled(c, s, a) && IsExclusive(s, a)
    ensures Exact(c, Next(c, s, a))
  {
    match a
    case Create(j) => CreateKeepsExact(c, s, j);
    case Enqueue(j) => EnqueueKeepsExact(c, s, j);
    case Deliver => DeliverKeepsExact(c, s);
    case Begin(w, e) => BeginKeepsExact(c, s, w, e);
    case Retire(_) => StatusStepKeepsExact(c, s, a);
    case Start(_) => StatusStepKeepsExact(c, s, a);
    case RejectFile(_) => StatusStepKeepsExact(c, s, a);
    case Commit(w) => CommitKeepsExact(c, s, w);
    case Complete(_) => StatusStepKeepsExact(c, s, a);
    case Fail(w, cause) =>
      if cause.ReplyLost? {
        StrandKeepsExact(c, s, w);
      } else {
        RequeueKeepsExact(c, s, w, cause);
      }
    case Acknowledge(w) => AcknowledgeKeepsExact(c, s, w);
    case Crash(w) => CrashKeepsExact(c, s, w);
  }

  lemma {:induction false} RunKeepsExact(t: Tier, c: World, s: State, actions: seq<Action>, final: State)
    requires WorldOk(c) && t.exclusive && Exact(c, s) && Run(t, c, s, actions, final)
    ensures Exact(c, final)
    decreases |actions|
  {
    if actions != [] {
      StepKeepsExact(c, s, actions[0]);
      RunKeepsExact(t, c, Next(c, s, actions[0]), actions[1..], final);
    }
  }

  lemma ReachableIsExact(t: Tier, c: World, s: State)
    requires WorldOk(c) && t.exclusive && Reachable(t, c, s)
    ensures Exact(c, s)
  {
    var actions :| Run(t, c, Initial(c), actions, s);
    RunKeepsExact(t, c, Initial(c), actions, s);
  }
}
