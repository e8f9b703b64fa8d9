/**
 Where the protocol's promises end: rows the database refuses, a crash that turns a file
 that can be imported into one that cannot, and what double claims and acknowledgement
 errors can undo.
 */
module Limits {
  import opened Common
  import opened Validation
  import opened Ledger
  import opened Protocol
  import opened Safety
  import opened Guarantees
  import opened Exclusive
  import opened Accounting
  import opened Recovery
  import opened Outcomes

  // ---------- Rows the database refuses ----------

  // Nothing was ever counted against the job, and it never ended.
  predicate NeverCharged(s: State, j: JobId, i: nat) {
    && (j in s.history ==> s.history[j].reach <= i && !s.history[j].failed)
    && (j in s.db.jobs ==> s.db.jobs[j].retries == 0)
    && (forall w :: w in s.workers && s.workers[w].job == j ==> s.workers[w].local.retries == 0)
  }

  lemma BatchEndsInOrder(c: World, rows: seq<RowOutcome>, lo: nat, mid: nat)
    requires lo <= mid < |rows|
    ensures BatchEnd(c, rows, lo) <= BatchEnd(c, rows, mid)
  {
  }

  lemma NothingRaisesSoEarly(c: World, s: State, w: int, i: nat)
    requires InFile(c, s, w) && WorkerOk(c, s, w) && i < |Rows(c, s, w)| && s.workers[w].local.checkpoint <= i
    requires NoneRaises(Rows(c, s, w), 0, BatchEnd(c, Rows(c, s, w), Floor(c, i)))
    ensures !NextBatchRaises(c, s, w)
  {
    var lo := s.workers[w].local.checkpoint;
    MultipleBelow(lo, i, BatchLength(c));
    BatchEndsInOrder(c, Rows(c, s, w), lo, Floor(c, i));
  }

  lemma CopiesStayUncharged(c: World, s: State, a: Action, j: JobId, i: nat)
    requires Enabled(c, s, a) && NeverCharged(s, j, i)
    ensures forall w :: w in Next(c, s, a).workers && Next(c, s, a).workers[w].job == j
                        ==> Next(c, s, a).workers[w].local.retries == 0
  {
  }

  lemma RowStaysUncharged(c: World, s: State, a: Action, j: JobId, i: nat)
    requires Enabled(c, s, a) && NeverCharged(s, j, i) && (j in s.db.jobs ==> j in s.history)
    requires Writes(s, a, j) ==> !a.Fail? && !a.Retire? && !a.RejectFile?
    ensures j in Next(c, s, a).db.jobs ==> Next(c, s, a).db.jobs[j].retries == 0
    ensures j in Next(c, s, a).history ==> !Next(c, s, a).history[j].failed
  {
  }

  lemma StepKeepsNeverCharged(t: Tier, c: World, s: State, a: Action, j: JobId, i: nat)
    requires Safe(c, s) && !t.surprises && Allowed(t, c, s, a) && NeverCharged(s, j, i)
    requires j in c.files && c.files[j].columnsOk && i < |c.files[j].rows| && Refused(c.files[j].rows, 0, i)
    requires NoneRaises(c.files[j].rows, 0, BatchEnd(c, c.files[j].rows, Floor(c, i)))
    ensures NeverCharged(Next(c, s, a), j, i)
  {
    StepKeepsBlocked(c, s, a, j, i);
    CopiesStayUncharged(c, s, a, j, i);
    if Writes(s, a, j) {
      assert WorkerOk(c, s, a.worker);
      if a.Fail? {
        NothingRaisesSoEarly(c, s, a.worker, i);
      }
    }
    RowStaysUncharged(c, s, a, j, i);
  }

  lemma {:induction false} RunKeepsNeverCharged(t: Tier, c: World, s: State, actions: seq<Action>, final: State, j: JobId, i: nat)
    requires Safe(c, s) && !t.surprises && Run(t, c, s, actions, final) && NeverCharged(s, j, i)
    requires j in c.files && c.files[j].columnsOk && i < |c.files[j].rows| && Refused(c.files[j].rows, 0, i)
    requires NoneRaises(c.files[j].rows, 0, BatchEnd(c, c.files[j].rows, Floor(c, i)))
    ensures NeverCharged(final, j, i) && Safe(c, final)
    decreases |actions|
  {
    if actions != [] {
      StepKeepsNeverCharged(t, c, s, actions[0], j, i);
      StepKeepsSafe(c, s, actions[0]);
      RunKeepsNeverCharged(t, c, Next(c, s, actions[0]), actions[1..], final, j, i);
    }
  }

  // A batch the database refuses fails without a counted retry, so the retry limit
  // never ends the job: in every interleaving without other exceptions, double claims
  // included, its entry is delivered again and again, neither COMPLETED nor FAILED, with
  // no retry recorded. For the rows that only a resumed attempt is refused see
  // RetriedForever.
  lemma RefusedFileIsNeverCharged(t: Tier, c: World, s: State, j: JobId, i: nat, e: nat)
    requires WorldOk(c) && !t.surprises && Reachable(t, c, s)
    requires j in c.files && c.files[j].columnsOk && i < |c.files[j].rows| && Refused(c.files[j].rows, 0, i)
    requires NoneRaises(c.files[j].rows, 0, BatchEnd(c, c.files[j].rows, Floor(c, i)))
    requires e < |s.stream| && s.stream[e] == j
    ensures e < s.delivered ==> e in s.pending
    ensures j in s.db.jobs && s.db.jobs[j].retries == 0
    ensures !s.db.jobs[j].status.Completed? && !s.db.jobs[j].status.Failed?
  {
    var actions :| Run(t, c, Initial(c), actions, s);
    RunKeepsNeverCharged(t, c, Initial(c), actions, s, j, i);
    assert JobOk(c, s, j);
    assert e < s.delivered && e !in s.pending ==> Settled(s, e);
  }

  // ---------- Acknowledgement errors ----------

  // Worker w has committed COMPLETED and is about to acknowledge.
  predicate AboutToAcknowledge(c: World, s: State, w: int) {
    && w in s.workers && Holds(c, s, w)
    && s.workers[w].phase.Finished? && s.workers[w].local.status.Completed?
  }

  // `again` is `s` after worker w failed to acknowledge and began the entry again.
  predicate Redelivered(c: World, s: State, again: State, w: int)
    requires w in s.workers && Holds(c, s, w)
  {
    var j, e, row := s.workers[w].job, s.workers[w].entry, s.db.jobs[s.workers[w].job];
    && w in again.workers && Holds(c, again, w) && j in again.db.jobs && j in again.history
    && again.db.table == s.db.table && again.history[j].completed
    && again.workers[w] == Worker(e, j, again.db.jobs[j], FirstPhase(again.db.jobs[j]))
    && again.db.jobs[j] == row.(status := Queued, retries := row.retries + 1)
    && row.checkpoint == |c.files[j].rows| && c.files[j].columnsOk
  }

  // One acknowledgement error.
  lemma AcknowledgementFails(c: World, s: State, w: int) returns (failed: State)
    requires AboutToAcknowledge(c, s, w) && WorldOk(c) && Exact(c, s)
    ensures Allowed(EXCLUSIVE, c, s, Fail(w, Unexpected)) && failed == Next(c, s, Fail(w, Unexpected)) && Exact(c, failed)
    ensures var j, e := s.workers[w].job, s.workers[w].entry;
            && w !in failed.workers && e in failed.pending && e < failed.delivered <= |failed.stream| && failed.stream[e] == j
            && (forall v :: v in failed.workers ==> failed.workers[v].job != j && failed.workers[v].entry != e)
            && failed.db.table == s.db.table && j in failed.history && failed.history[j].completed
            && j in failed.db.jobs && failed.db.jobs[j] == s.db.jobs[j].(status := Queued, retries := s.db.jobs[j].retries + 1)
            && s.db.jobs[j].checkpoint == |c.files[j].rows| && c.files[j].columnsOk
  {
    HolderIsAlone(c, s, w);
    var j := s.workers[w].job;
    assert JobOk(c, s, j) && ProgressOk(c, s, j);
    failed := Next(c, s, Fail(w, Unexpected));
    StepKeepsExact(c, s, Fail(w, Unexpected));
    forall v | v in failed.workers
      ensures failed.workers[v].entry != s.workers[w].entry
    {
      assert WorkerOk(c, s, v);
    }
  }

  // And the redelivery of the same entry.
  lemma FailAndBeginAgain(c: World, s: State, w: int) returns (actions: seq<Action>, again: State)
    requires AboutToAcknowledge(c, s, w) && WorldOk(c) && Exact(c, s)
    ensures Run(EXCLUSIVE, c, s, actions, again) && Exact(c, again)
    ensures Redelivered(c, s, again, w)
  {
    var failed := AcknowledgementFails(c, s, w);
    var e := s.workers[w].entry;
    again := Next(c, failed, Begin(w, e));
    StepKeepsExact(c, failed, Begin(w, e));
    TwoSteps(EXCLUSIVE, c, s, Fail(w, Unexpected), failed, Begin(w, e), again);
    actions := [Fail(w, Unexpected), Begin(w, e)];
  }

  lemma RetireAndAcknowledge(c: World, s: State, w: int) returns (actions: seq<Action>, final: State)
    requires w in s.workers && Holds(c, s, w) && s.workers[w].phase.Retiring?
    requires s.workers[w].local == s.db.jobs[s.workers[w].job] && !s.workers[w].local.status.Failed?
    ensures Run(EXCLUSIVE, c, s, actions, final)
    ensures var j := s.workers[w].job;
            && final.db.jobs.Keys == s.db.jobs.Keys && final.history.Keys == s.history.Keys
            && final.db.jobs[j] == s.db.jobs[j].(status := Failed)
            && final.history[j].completed == s.history[j].completed
            && s.workers[w].entry !in final.pending && w !in final.workers && final.db.table == s.db.table
  {
    var retired := Next(c, s, Retire(w));
    final := Next(c, retired, Acknowledge(w));
    actions := [Retire(w), Acknowledge(w)];
    assert Run(EXCLUSIVE, c, final, [], final);
    StepThenRun(EXCLUSIVE, c, retired, Acknowledge(w), [], final);
    StepThenRun(EXCLUSIVE, c, s, Retire(w), [Acknowledge(w)], final);
  }

  lemma CompleteStarted(c: World, s: State, w: int) returns (final: State)
    requires WorldOk(c) && Exact(c, s) && w in s.workers && Holds(c, s, w) && s.workers[w].phase.Running?
    requires s.workers[w].local.checkpoint == |c.files[s.workers[w].job].rows|
    ensures Allowed(EXCLUSIVE, c, s, Complete(w)) && final == Next(c, s, Complete(w))
    ensures Exact(c, final) && AboutToAcknowledge(c, final, w)
    ensures var j := s.workers[w].job;
            && final.workers[w].job == j && final.workers[w].entry == s.workers[w].entry
            && final.db.jobs[j].retries == s.db.jobs[j].retries && final.workers[w].local.retries == s.workers[w].local.retries
            && final.db.jobs[j].successful == s.db.jobs[j].successful && final.db.table == s.db.table
  {
    final := Next(c, s, Complete(w));
    StepKeepsExact(c, s, Complete(w));
  }

  lemma StartAndComplete(c: World, s: State, w: int) returns (actions: seq<Action>, final: State)
    requires WorldOk(c) && Exact(c, s) && w in s.workers && Holds(c, s, w) && s.workers[w].phase.Starting?
    requires c.files[s.workers[w].job].columnsOk && s.workers[w].local.checkpoint == |c.files[s.workers[w].job].rows|
    ensures Run(EXCLUSIVE, c, s, actions, final) && Exact(c, final) && AboutToAcknowledge(c, final, w)
    ensures var j := s.workers[w].job;
            && final.workers[w].job == j && final.workers[w].entry == s.workers[w].entry
            && final.db.jobs[j].retries == s.db.jobs[j].retries && final.workers[w].local.retries == s.workers[w].local.retries
            && final.db.jobs[j].successful == s.db.jobs[j].successful && final.db.table == s.db.table
  {
    var started := StartBegun(EXCLUSIVE, c, s, w);
    final := CompleteStarted(c, started, w);
    // Nothing here depends on what these say.
    hide Next, Safe, Enabled;
    TwoSteps(EXCLUSIVE, c, s, Start(w), started, Complete(w), final);
    actions := [Start(w), Complete(w)];
  }

  // The acknowledgement runs inside the exception handler's reach: errors there alone
  // take a job whose rows are all imported back to QUEUED and, retries used up, to
  // FAILED, with the entry acknowledged.
  lemma {:induction false} ImportedJobCanEndFailed(c: World, s: State, w: int) returns (actions: seq<Action>, final: State)
    requires AboutToAcknowledge(c, s, w) && WorldOk(c) && Exact(c, s)
    ensures Run(EXCLUSIVE, c, s, actions, final)
    ensures var j := s.workers[w].job;
            && j in final.db.jobs && final.db.jobs[j].status.Failed?
            && j in final.history && final.history[j].completed
            && s.workers[w].entry !in final.pending && w !in final.workers
            && final.db.jobs[j].successful == s.db.jobs[j].successful
            && final.db.table == s.db.table
    decreases if s.workers[w].local.retries < MAX_RETRIES then MAX_RETRIES - s.workers[w].local.retries else 0
  {
    assert HolderOk(s, w);
    var again: State, mid: State, more: seq<Action>, rest: seq<Action>;
    actions, again := FailAndBeginAgain(c, s, w);
    if again.workers[w].phase.Retiring? {
      rest, final := RetireAndAcknowledge(c, again, w);
    } else {
      more, mid := StartAndComplete(c, again, w);
      rest, final := ImportedJobCanEndFailed(c, mid, w);
      RunThenRun(EXCLUSIVE, c, again, more, mid, rest, final);
      rest := more + rest;
    }
    RunThenRun(EXCLUSIVE, c, s, actions, again, rest, final);
    actions := actions + rest;
  }

  // And when the acknowledgement took effect while its reply was lost, one error is
  // enough: the job says QUEUED and has no entry left to be delivered again.
  lemma ImportedJobCanBeStranded(c: World, s: State, w: int) returns (final: State)
    requires AboutToAcknowledge(c, s, w) && WorldOk(c) && Exact(c, s)
    ensures Run(EXCLUSIVE, c, s, [Fail(w, ReplyLost)], final) && Exact(c, final)
    ensures var j := s.workers[w].job;
            && j in final.db.jobs && final.db.jobs[j].status.Queued? && Acked(final, j)
            && j in final.history && final.history[j].completed
            && final.db.jobs[j].checkpoint == |c.files[j].rows|
  {
    // Nothing here depends on what these say.
    hide ErrorsCovered, TableOk, ErrorsOk;
    HolderIsAlone(c, s, w);
    var j, e := s.workers[w].job, s.workers[w].entry;
    assert JobOk(c, s, j);
    final := Next(c, s, Fail(w, ReplyLost));
    StepKeepsExact(c, s, Fail(w, ReplyLost));
    assert Run(EXCLUSIVE, c, final, [], final);
    StepThenRun(EXCLUSIVE, c, s, Fail(w, ReplyLost), [], final);
    assert e < final.delivered <= |final.stream| && final.stream[e] == j && e !in final.pending;
  }

  // ---------- Double claims ----------

  // Worker 2 has claimed the job's only entry and loaded the fresh row, nothing more.
  predicate ClaimedOnce(c: World, s: State, j: JobId) {
    && Safe(c, s) && j in c.files && j in s.db.jobs && j in s.history
    && s.stream == [j] && s.delivered == 1 && s.pending == {0}
    && s.db.jobs[j] == NEW_JOB && !s.history[j].completed
    && s.workers == map[2 := Worker(0, j, NEW_JOB, Starting)]
  }

  // The API's part: the job is created, enqueued and handed to the group.
  predicate Handed(c: World, s: State, j: JobId) {
    && Safe(c, s) && j in c.files && j in s.db.jobs && j in s.history
    && s.stream == [j] && s.delivered == 1 && s.pending == {0}
    && s.db.jobs[j] == NEW_JOB && !s.history[j].completed && s.workers == map[]
  }

  lemma HandOver(t: Tier, c: World, j: JobId) returns (actions: seq<Action>, s: State)
    requires WorldOk(c) && j in c.files
    ensures Run(t, c, Initial(c), actions, s) && Handed(c, s, j)
  {
    var s0 := Initial(c);
    var s1 := Next(c, s0, Create(j));
    var s2 := Next(c, s1, Enqueue(j));
    s := Next(c, s2, Deliver);
    assert Run(t, c, s, [], s);
    StepThenRun(t, c, s2, Deliver, [], s);
    StepThenRun(t, c, s1, Enqueue(j), [Deliver], s);
    actions := [Create(j)] + ([Enqueue(j)] + [Deliver]);
    StepThenRun(t, c, s0, Create(j), [Enqueue(j)] + [Deliver], s);
    RunKeepsSafe(t, c, s0, actions, s);
  }

  lemma FirstClaim(t: Tier, c: World, j: JobId) returns (actions: seq<Action>, s: State)
    requires WorldOk(c) && j in c.files
    ensures Run(t, c, Initial(c), actions, s) && ClaimedOnce(c, s, j)
  {
    var handed: State;
    actions, handed := HandOver(t, c, j);
    s := Next(c, handed, Begin(2, 0));
    StepKeepsSafe(c, handed, Begin(2, 0));
    RunThenStep(t, c, Initial(c), actions, handed, Begin(2, 0));
    actions := actions + [Begin(2, 0)];
  }

  // Another worker has meanwhile finished and acknowledged; worker 2 still has its copy.
  predicate StaleCopyLeft(c: World, s: State, j: JobId) {
    && Safe(c, s) && j in c.files && j in s.db.jobs && j in s.history && s.history[j].completed
    && s.pending == {} && s.delivered == |s.stream|
    && s.workers == map[2 := Worker(0, j, NEW_JOB, Starting)]
  }

  lemma OtherWorkerCompletes(c: World, s: State, j: JobId) returns (actions: seq<Action>, final: State)
    requires ClaimedOnce(c, s, j) && Importable(c.files[j], 0)
    ensures Run(ANY_INTERLEAVING, c, s, actions, final) && StaleCopyLeft(c, final, j)
  {
    var rows := c.files[j].rows;
    forall i | 0 <= i < |rows|
      ensures !Refused(rows, 0, i) && !rows[i].Raises?
    {
      assert !Blocks(rows, 0, i);
    }
    actions, final := OneDelivery(ANY_INTERLEAVING, c, s, 1, 0);
    RunKeepsSafe(ANY_INTERLEAVING, c, s, actions, final);
    assert 0 !in final.pending;
    assert final.pending == {};
  }

  // Worker 2 marks PROCESSING and commits one batch from its stale copy.
  lemma StaleCopyCommits(c: World, s: State, j: JobId)
    requires StaleCopyLeft(c, s, j) && Importable(c.files[j], 0) && |c.files[j].rows| > 0
    ensures Enabled(c, s, Start(2)) && Enabled(c, Next(c, s, Start(2)), Commit(2))
    ensures var s' := Next(c, Next(c, s, Start(2)), Commit(2));
            && s'.workers.Keys == {2} && s'.pending == {} && s'.db.table == s.db.table
            && j in s'.db.jobs && s'.db.jobs[j].status.Processing? && s'.db.jobs[j].successful == 0
            && s'.db.jobs[j].checkpoint == BatchEnd(c, c.files[j].rows, 0)
  {
    assert WorkerOk(c, s, 2) && JobOk(c, s, j);
    var rows := c.files[j].rows;
    var hi := BatchEnd(c, rows, 0);
    var started := Next(c, s, Start(2));
    StepKeepsSafe(c, s, Start(2));
    forall i | 0 <= i < |rows|
      ensures !Refused(rows, 0, i) && !rows[i].Raises?
    {
      assert !Blocks(rows, 0, i);
    }
    ScanFits(rows, 0, 0, hi);
    // Nothing here depends on what these say.
    hide Safe, Covered, Importable, Refused;
    BatchKeepsCopyOk(c, started, 2);
    ImportOfCoveredRowsIsNoOp(started.db.table, j, rows, 0, hi);
  }

  lemma OnlyWorkerCrashes(t: Tier, c: World, s: State, w: int)
    requires t.losses && s.workers.Keys == {w}
    ensures Allowed(t, c, s, Crash(w))
    ensures var s' := Next(c, s, Crash(w));
            s'.workers == map[] && s'.db == s.db && s'.stream == s.stream && s'.delivered == s.delivered && s'.pending == s.pending
  {
    assert (s.workers - {w}).Keys == {};
  }

  // And dies.
  lemma StaleCopyWrites(c: World, s: State, j: JobId) returns (actions: seq<Action>, final: State)
    requires StaleCopyLeft(c, s, j) && Importable(c.files[j], 0) && |c.files[j].rows| > 0
    ensures Run(ANY_INTERLEAVING, c, s, actions, final)
    ensures final.workers == map[] && final.pending == {} && final.db.table == s.db.table
    ensures j in final.db.jobs && final.db.jobs[j].status.Processing? && final.db.jobs[j].successful == 0
    ensures final.db.jobs[j].checkpoint == BatchEnd(c, c.files[j].rows, 0)
  {
    StaleCopyCommits(c, s, j);
    // What is left to show is read off these lemmas.
    hide StaleCopyLeft, Importable, Next, Enabled;
    var started := Next(c, s, Start(2));
    var committed := Next(c, started, Commit(2));
    OnlyWorkerCrashes(ANY_INTERLEAVING, c, committed, 2);
    final := Next(c, committed, Crash(2));
    actions := [Start(2), Commit(2), Crash(2)];
    ThreeSteps(ANY_INTERLEAVING, c, s, Start(2), started, Commit(2), committed, Crash(2), final);
  }

  // Without exclusive delivery the stored row can lie for good. For every importable
  // file with rows there is a run that leaves the job PROCESSING at the end of its
  // first batch with no successful row, although it was COMPLETED, every row is in the
  // table, and its acknowledged entry will not be delivered again.
  lemma DoubleClaimUndoesCompletion(c: World, j: JobId) returns (actions: seq<Action>, final: State)
    requires WorldOk(c) && j in c.files && Importable(c.files[j], 0) && |c.files[j].rows| > 0
    ensures Run(ANY_INTERLEAVING, c, Initial(c), actions, final)
    ensures final.workers == map[] && final.pending == {}
    ensures j in final.db.jobs && final.db.jobs[j].status.Processing?
    ensures final.db.jobs[j].checkpoint == BatchEnd(c, c.files[j].rows, 0) && final.db.jobs[j].successful == 0
    ensures forall i :: 0 <= i < |c.files[j].rows| && c.files[j].rows[i].Valid?
                        ==> Has(final.db.table, c.files[j].rows[i].txn.id)
  {
    var s1, s2, a1, a2, a3;
    a1, s1 := FirstClaim(ANY_INTERLEAVING, c, j);
    a2, s2 := OtherWorkerCompletes(c, s1, j);
    assert JobOk(c, s2, j);
    a3, final := StaleCopyWrites(c, s2, j);
    RunThenRun(ANY_INTERLEAVING, c, Initial(c), a1, s1, a2, s2);
    RunThenRun(ANY_INTERLEAVING, c, Initial(c), a1 + a2, s2, a3, final);
    actions := a1 + a2 + a3;
  }

  // ---------- A crash that leaves a file unimportable ----------

  // On the smallest such file: two rows with one id, the second with an amount the column
  // cannot hold.
  lemma LateDuplicateBlocksOnlyAResumedAttempt(first: Txn, second: Txn)
    requires FitsTxn(first) && !FitsTxn(second) && first.id == second.id
    ensures var file := File(true, [Valid(first), Valid(second)]);
            Importable(file, 0) && !Importable(file, 1)
  {
    var rows := [Valid(first), Valid(second)];
    assert rows[0].Valid? && rows[0].txn.id == rows[1].txn.id;
    assert Repeats(rows, 0, 1) && !Repeats(rows, 1, 1);
    assert Blocks(rows, 1, 1);
  }

  // Worker 2 commits the first row.
  lemma FirstRowCommits(c: World, s: State, j: JobId)
    requires Safe(c, s) && 2 in s.workers && Holds(c, s, 2) && s.workers[2].job == j
    requires s.workers[2].phase == Running(0, {}) && s.workers[2].local.checkpoint == 0 && s.workers[2].local.retries == 0
    requires s.db.jobs[j].retries == 0
    requires BatchLength(c) == 1 && |c.files[j].rows| > 1 && c.files[j].rows[0].Valid? && FitsTxn(c.files[j].rows[0].txn)
    ensures Enabled(c, s, Commit(2))
    ensures var s' := Next(c, s, Commit(2));
            && s'.workers.Keys == s.workers.Keys && s'.workers - {2} == s.workers - {2}
            && s'.stream == s.stream && s'.delivered == s.delivered && s'.pending == s.pending
            && j in s'.db.jobs && s'.db.jobs[j].checkpoint == 1 && s'.db.jobs[j].retries == 0
            && j in s'.history && s'.history[j].completed == s.history[j].completed
            && s'.workers[2].job == j
  {
    var rows := c.files[j].rows;
    // Nothing here depends on what this says.
    hide Safe;
    assert Scan(rows, 0, 1, {}) == ScanRow(Scan(rows, 0, 0, {}), rows[0], 1);
  }

  // And dies.
  lemma CommitThenCrash(t: Tier, c: World, s: State, j: JobId) returns (actions: seq<Action>, final: State)
    requires t.losses && Safe(c, s) && 2 in s.workers && Holds(c, s, 2) && s.workers[2].job == j
    requires s.workers[2].phase == Running(0, {}) && s.workers[2].local.checkpoint == 0 && s.workers[2].local.retries == 0
    requires s.db.jobs[j].retries == 0
    requires BatchLength(c) == 1 && |c.files[j].rows| > 1 && c.files[j].rows[0].Valid? && FitsTxn(c.files[j].rows[0].txn)
    ensures Run(t, c, s, actions, final) && final.workers == s.workers - {2}
    ensures final.stream == s.stream && final.delivered == s.delivered && final.pending == s.pending
    ensures j in final.db.jobs && final.db.jobs[j].checkpoint == 1 && final.db.jobs[j].retries == 0
    ensures j in final.history && final.history[j].completed == s.history[j].completed
  {
    FirstRowCommits(c, s, j);
    var committed := Next(c, s, Commit(2));
    // Nothing here depends on what these say.
    hide Safe, NextCommit, InFile, FitsBatch, NextBatchRaises;
    final := Next(c, committed, Crash(2));
    assert Run(t, c, final, [], final);
    StepThenRun(t, c, committed, Crash(2), [], final);
    actions := [Commit(2)] + [Crash(2)];
    StepThenRun(t, c, s, Commit(2), [Crash(2)], final);
  }

  lemma FirstRowThenCrash(c: World, s: State, j: JobId) returns (actions: seq<Action>, final: State)
    requires WorldOk(c) && Exact(c, s) && ClaimedOnce(c, s, j) && c.files[j].columnsOk
    requires BatchLength(c) == 1 && |c.files[j].rows| > 1 && c.files[j].rows[0].Valid? && FitsTxn(c.files[j].rows[0].txn)
    ensures Run(NO_SURPRISES, c, s, actions, final) && Between(c, final, j, 0)
    ensures final.db.jobs[j].checkpoint == 1 && final.db.jobs[j].retries == 0
  {
    assert s.workers[2].phase.Starting?;
    var started := StartBegun(NO_SURPRISES, c, s, 2);
    var rest: seq<Action>;
    rest, final := CommitThenCrash(NO_SURPRISES, c, started, j);
    StepThenRun(NO_SURPRISES, c, s, Start(2), rest, final);
    actions := [Start(2)] + rest;
    assert final.workers == map[];
  }

  // Neither row raises, so no retry is counted.
  lemma LateDuplicateIsNotFailable(c: World, row: JobRow, first: Txn, second: Txn)
    requires row.retries < MAX_RETRIES
    ensures !Failable(c, File(true, [Valid(first), Valid(second)]), row)
  {
  }

  // One crash, and that file is retried for ever: RetriedForever applies.
  lemma LateDuplicateLoopsAfterACrash(c: World, j: JobId, first: Txn, second: Txn) returns (actions: seq<Action>, s: State)
    requires WorldOk(c) && j in c.files && BatchLength(c) == 1
    requires c.files[j] == File(true, [Valid(first), Valid(second)])
    requires FitsTxn(first) && !FitsTxn(second) && first.id == second.id
    ensures Importable(c.files[j], 0)
    ensures Run(NO_SURPRISES, c, Initial(c), actions, s) && Between(c, s, j, 0)
    ensures !Importable(c.files[j], s.db.jobs[j].checkpoint) && !Failable(c, c.files[j], s.db.jobs[j])
  {
    LateDuplicateBlocksOnlyAResumedAttempt(first, second);
    // What is left to show is read off these lemmas.
    hide Importable, Failable, Exact, Safe;
    var claimed: State, more: seq<Action>;
    actions, claimed := FirstClaim(NO_SURPRISES, c, j);
    RunKeepsExact(NO_SURPRISES, c, Initial(c), actions, claimed);
    more, s := FirstRowThenCrash(c, claimed, j);
    LateDuplicateIsNotFailable(c, s.db.jobs[j], first, second);
    RunThenRun(NO_SURPRISES, c, Initial(c), actions, claimed, more, s);
    actions := actions + more;
  }
}
