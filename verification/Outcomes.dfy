/**
 How a job can end: from a state between two deliveries, exactly when it can still be
 COMPLETED, exactly when it can end FAILED, and that otherwise it is retried for ever. And
 when a raising row is all that goes wrong, the job takes a bounded number of steps, has
 one to take until its entry is acknowledged, and is then FAILED where it should be.
 */
module Outcomes {
  import opened Common
  import opened Validation
  import opened Ledger
  import opened Protocol
  import opened Safety
  import opened Guarantees
  import opened Exclusive
  import opened Accounting
  import opened Recovery

  // Exclusive delivery in which attempts may be lost, and no exception is counted but
  // that of a raising row.
  const NO_SURPRISES := Tier(true, true, false)

  // ---------- How far an attempt gets ----------

  // Job j cannot get past row i: it has not, and every attempt in progress started
  // from checkpoint k or later.
  predicate StuckBelow(s: State, j: JobId, k: nat, i: nat) {
    && j in s.db.jobs && j in s.history && k <= s.db.jobs[j].checkpoint
    && s.history[j].reach <= i
    && forall w :: w in s.workers && s.workers[w].job == j && s.workers[w].phase.Running?
                   ==> k <= s.workers[w].phase.start
  }

  // What stops an attempt started from checkpoint k: a row that blocks it, or the end of
  // the file.
  predicate Bound(rows: seq<RowOutcome>, k: nat, i: nat) {
    i <= |rows| && (i < |rows| ==> Blocks(rows, k, i))
  }

  lemma StuckCommit(c: World, s: State, w: int, j: JobId, k: nat, i: nat)
    requires Safe(c, s) && Enabled(c, s, Commit(w)) && s.workers[w].job == j && StuckBelow(s, j, k, i)
    requires j in c.files && Bound(c.files[j].rows, k, i)
    ensures BatchEnd(c, c.files[j].rows, s.workers[w].local.checkpoint) <= i
  {
    assert WorkerOk(c, s, w);
    if i < BatchEnd(c, Rows(c, s, w), s.workers[w].local.checkpoint) {
      BlockedBatchIsRefused(c, s, w, k, i);
    }
  }

  lemma StepKeepsStuck(c: World, s: State, a: Action, j: JobId, k: nat, i: nat)
    requires Enabled(c, s, a) && StuckBelow(s, j, k, i)
    requires Writes(s, a, j) ==> HolderOk(s, a.worker)
    requires j in c.files && a.Commit? && Writes(s, a, j) ==>
               BatchEnd(c, c.files[j].rows, s.workers[a.worker].local.checkpoint) <= i
    ensures StuckBelow(Next(c, s, a), j, k, i)
  {
    StepOnRow(c, s, a, j);
  }

  lemma StepKeepsBound(t: Tier, c: World, s: State, a: Action, j: JobId, k: nat, i: nat)
    requires WorldOk(c) && t.exclusive && Exact(c, s) && Allowed(t, c, s, a) && StuckBelow(s, j, k, i)
    requires j in c.files && Bound(c.files[j].rows, k, i)
    ensures StuckBelow(Next(c, s, a), j, k, i) && Exact(c, Next(c, s, a))
  {
    if Writes(s, a, j) {
      HolderIsAlone(c, s, a.worker);
      if a.Commit? {
        StuckCommit(c, s, a.worker, j, k, i);
      }
    }
    StepKeepsStuck(c, s, a, j, k, i);
    StepKeepsExact(c, s, a);
  }

  lemma {:induction false} RunKeepsStuck(t: Tier, c: World, s: State, actions: seq<Action>, final: State, j: JobId, k: nat, i: nat)
    requires WorldOk(c) && t.exclusive && Exact(c, s) && Run(t, c, s, actions, final) && StuckBelow(s, j, k, i)
    requires j in c.files && Bound(c.files[j].rows, k, i)
    ensures StuckBelow(final, j, k, i) && Exact(c, final)
    decreases |actions|
  {
    if actions != [] {
      StepKeepsBound(t, c, s, actions[0], j, k, i);
      RunKeepsStuck(t, c, Next(c, s, actions[0]), actions[1..], final, j, k, i);
    }
  }

  // ---------- Exactly when a job can still be COMPLETED ----------

  ghost predicate CanComplete(c: World, s: State, j: JobId) {
    exists actions, final :: Run(EXCLUSIVE, c, s, actions, final) && j in final.history && final.history[j].completed
  }

  // What a caller can check of the file and the stored checkpoint.
  predicate Importable(file: File, checkpoint: nat) {
    && file.columnsOk
    && forall i :: checkpoint <= i < |file.rows| ==> !Blocks(file.rows, checkpoint, i)
  }

  // Under exclusive delivery, a job between deliveries with retries left can still be
  // completed if and only if its header is complete and no row after its checkpoint
  // blocks an attempt that starts there. A crash can turn the answer from yes to no:
  // a repeated id that the first attempt would have recorded as a duplicate is
  // inserted by a later attempt, which no longer remembers the id.
  lemma CompletableIff(t: Tier, c: World, s: State, j: JobId, e: nat)
    requires WorldOk(c) && t.exclusive && Reachable(t, c, s) && j in s.db.jobs && j in c.files && !Live(s, j)
    requires e in s.pending && e < |s.stream| && s.stream[e] == j
    requires j in s.history && !s.history[j].completed && s.db.jobs[j].retries < MAX_RETRIES
    ensures CanComplete(c, s, j) <==> Importable(c.files[j], s.db.jobs[j].checkpoint)
  {
    ReachableIsExact(t, c, s);
    assert JobOk(c, s, j) && ProgressOk(c, s, j);
    var file, k := c.files[j], s.db.jobs[j].checkpoint;
    if Importable(file, k) {
      OneWorkerCompletes(c, s, j, e);
    }
    if CanComplete(c, s, j) {
      var actions, final :| Run(EXCLUSIVE, c, s, actions, final) && j in final.history && final.history[j].completed;
      CompletionNeedsImportable(c, s, j, actions, final);
    }
  }

  lemma CompletionNeedsImportable(c: World, s: State, j: JobId, actions: seq<Action>, final: State)
    requires WorldOk(c) && Exact(c, s) && j in s.db.jobs && j in c.files && !Live(s, j)
    requires j in s.history && s.history[j].reach == s.db.jobs[j].checkpoint
    requires Run(EXCLUSIVE, c, s, actions, final) && j in final.history && final.history[j].completed
    ensures Importable(c.files[j], s.db.jobs[j].checkpoint)
  {
    var rows, k := c.files[j].rows, s.db.jobs[j].checkpoint;
    RunKeepsExact(EXCLUSIVE, c, s, actions, final);
    assert JobOk(c, final, j);
    forall i | k <= i < |rows|
      ensures !Blocks(rows, k, i)
    {
      if Blocks(rows, k, i) {
        RunKeepsStuck(EXCLUSIVE, c, s, actions, final, j, k, i);
      }
    }
  }

  lemma OneWorkerCompletes(c: World, s: State, j: JobId, e: nat)
    requires Exact(c, s) && j in s.db.jobs && j in c.files && !Live(s, j) && j in s.history
    requires e in s.pending && e < |s.stream| && s.stream[e] == j
    requires !s.history[j].completed && s.db.jobs[j].retries < MAX_RETRIES
    requires Importable(c.files[j], s.db.jobs[j].checkpoint)
    ensures CanComplete(c, s, j)
  {
    var w := FreshWorker(s.workers.Keys);
    forall v | v in s.workers
      ensures s.workers[v].entry != e
    {
      assert WorkerOk(c, s, v);
    }
    assert JobOk(c, s, j);
    var rows, k := c.files[j].rows, s.db.jobs[j].checkpoint;
    forall i | k <= i < |rows|
      ensures !Refused(rows, k, i) && !rows[i].Raises?
    {
      assert !Blocks(rows, k, i);
    }
    var actions, final := OneDelivery(EXCLUSIVE, c, s, w, e);
    assert Run(EXCLUSIVE, c, s, actions, final) && final.history[j].completed;
  }

  lemma {:induction false} FreshWorker(used: set<int>) returns (w: int)
    ensures w !in used && forall v :: v in used ==> v < w
  {
    if v :| v in used {
      var u := FreshWorker(used - {v});
      w := if u <= v then v + 1 else u;
      assert forall x :: x in used ==> x == v || x in used - {v};
    } else {
      w := 0;
    }
  }

  // ---------- Exactly when a job can end FAILED ----------

  // What a caller can check: the first raising row after the checkpoint, and nothing
  // the database refuses before the batch that row is in.
  predicate PoisonedBy(c: World, rows: seq<RowOutcome>, k: nat, p: nat) {
    && k <= p < |rows| && rows[p].Raises? && NoneRaises(rows, k, p)
    && AcceptsBelow(rows, k, Floor(c, p))
  }

  predicate Failable(c: World, file: File, row: JobRow) {
    || row.retries >= MAX_RETRIES
    || !file.columnsOk
    || exists p :: row.checkpoint <= p < |file.rows| && PoisonedBy(c, file.rows, row.checkpoint, p)
  }

  // The job ends: FAILED is stored and its entry acknowledged.
  ghost predicate CanEndFailed(c: World, s: State, j: JobId) {
    exists actions, final ::
      Run(NO_SURPRISES, c, s, actions, final) && j in final.db.jobs && final.db.jobs[j].status.Failed? && Acked(final, j)
  }

  // Under exclusive delivery, where attempts may be lost at any time and nothing is
  // counted but raising rows, a job between deliveries that was not COMPLETED can end
  // FAILED if and only if its retries are used up, its header is incomplete, or a row
  // after its checkpoint raises with nothing the database refuses before that row's
  // batch.
  // ---------- Only if: nothing is charged ----------

  // Attempts from checkpoint k on are stopped at i, and until then meet no raising row.
  predicate OutOfReach(c: World, rows: seq<RowOutcome>, k: nat, i: nat) {
    Bound(rows, k, i) && NoneRaises(rows, k, if i < |rows| then BatchEnd(c, rows, Floor(c, i)) else |rows|)
  }

  lemma UnpoisonedIsOutOfReach(c: World, rows: seq<RowOutcome>, k: nat) returns (i: nat)
    requires k <= |rows| && forall p :: k <= p < |rows| ==> !PoisonedBy(c, rows, k, p)
    ensures k <= i && OutOfReach(c, rows, k, i)
  {
    if NoneRaises(rows, k, |rows|) {
      i := |rows|;
    } else {
      var p := FirstRaisingAfter(rows, k, |rows|);
      assert !PoisonedBy(c, rows, k, p);
      i :| k <= i < Floor(c, p) && Refused(rows, k, i);
      FloorsInOrder(c, i, p);
    }
  }

  lemma {:induction false} FirstRaisingAfter(rows: seq<RowOutcome>, k: nat, hi: nat) returns (p: nat)
    requires k <= hi <= |rows| && !NoneRaises(rows, k, hi)
    ensures k <= p < hi && rows[p].Raises? && NoneRaises(rows, k, p)
    decreases hi
  {
    if NoneRaises(rows, k, hi - 1) {
      p := hi - 1;
    } else {
      p := FirstRaisingAfter(rows, k, hi - 1);
    }
  }

  // The batch of a row below a boundary ends at that boundary or before.
  lemma FloorsInOrder(c: World, i: nat, p: nat)
    requires i < Floor(c, p)
    ensures Floor(c, i) + BatchLength(c) <= Floor(c, p)
  {
    var b := BatchLength(c);
    var q, r := i / b, p / b;
    if q >= r {
      ProductMonotone(b, r, q);
    } else {
      ProductMonotone(b, q + 1, r);
    }
  }

  // No retry was counted, and FAILED was never committed.
  predicate Uncharged(s: State, j: JobId, retries: nat) {
    && j in s.db.jobs && j in s.history
    && s.db.jobs[j].retries == retries < MAX_RETRIES
    && !s.history[j].failed
  }

  lemma NoRaiseInReach(c: World, s: State, w: int, j: JobId, k: nat, i: nat)
    requires Exact(c, s) && InFile(c, s, w) && s.workers[w].job == j && StuckBelow(s, j, k, i)
    requires OutOfReach(c, c.files[j].rows, k, i)
    ensures !NextBatchRaises(c, s, w)
  {
    HolderIsAlone(c, s, w);
    var lo := s.workers[w].local.checkpoint;
    assert k <= lo <= i;
    if i < |Rows(c, s, w)| {
      MultipleBelow(lo, i, BatchLength(c));
    }
  }

  lemma StepKeepsUncharged(t: Tier, c: World, s: State, a: Action, j: JobId, k: nat, i: nat, retries: nat)
    requires WorldOk(c) && t.exclusive && !t.surprises && Exact(c, s) && Allowed(t, c, s, a)
    requires StuckBelow(s, j, k, i) && Uncharged(s, j, retries)
    requires j in c.files && c.files[j].columnsOk && OutOfReach(c, c.files[j].rows, k, i)
    ensures Uncharged(Next(c, s, a), j, retries)
  {
    if Writes(s, a, j) {
      HolderIsAlone(c, s, a.worker);
      if a.Fail? {
        NoRaiseInReach(c, s, a.worker, j, k, i);
      }
    }
    StepOnRow(c, s, a, j);
    NewlyFailed(c, s, a, j);
  }

  lemma {:induction false} RunKeepsUncharged(t: Tier, c: World, s: State, actions: seq<Action>, final: State, j: JobId, k: nat, i: nat, retries: nat)
    requires WorldOk(c) && t.exclusive && !t.surprises && Exact(c, s) && Run(t, c, s, actions, final)
    requires StuckBelow(s, j, k, i) && Uncharged(s, j, retries)
    requires j in c.files && c.files[j].columnsOk && OutOfReach(c, c.files[j].rows, k, i)
    ensures Uncharged(final, j, retries) && StuckBelow(final, j, k, i) && Exact(c, final)
    decreases |actions|
  {
    if actions != [] {
      StepKeepsUncharged(t, c, s, actions[0], j, k, i, retries);
      StepKeepsBound(t, c, s, actions[0], j, k, i);
      RunKeepsUncharged(t, c, Next(c, s, actions[0]), actions[1..], final, j, k, i, retries);
    }
  }

  // FAILED is committed only for used-up retries or an incomplete header, and retries
  // are not given back.
  predicate FailedOk(c: World, s: State, j: JobId) {
    j in c.files && j in s.db.jobs && j in s.history && s.history[j].failed
    ==> s.db.jobs[j].retries >= MAX_RETRIES || !c.files[j].columnsOk
  }

  lemma StepKeepsFailedOk(c: World, s: State, a: Action, j: JobId)
    requires WorldOk(c) && Exact(c, s) && Enabled(c, s, a) && IsExclusive(s, a) && FailedOk(c, s, j)
    ensures FailedOk(c, Next(c, s, a), j)
  {
    if j in s.db.jobs {
      if Writes(s, a, j) {
        HolderIsAlone(c, s, a.worker);
      }
      StepOnRow(c, s, a, j);
      NewlyFailed(c, s, a, j);
    }
  }

  lemma {:induction false} RunKeepsFailedOk(t: Tier, c: World, s: State, actions: seq<Action>, final: State, j: JobId)
    requires WorldOk(c) && t.exclusive && Exact(c, s) && Run(t, c, s, actions, final) && FailedOk(c, s, j)
    ensures FailedOk(c, final, j) && Exact(c, final)
    decreases |actions|
  {
    if actions != [] {
      StepKeepsFailedOk(c, s, actions[0], j);
      StepKeepsExact(c, s, actions[0]);
      RunKeepsFailedOk(t, c, Next(c, s, actions[0]), actions[1..], final, j);
    }
  }

  // Between two deliveries of a job that nothing can charge, nothing ever does.
  lemma NothingIsCharged(t: Tier, c: World, s: State, actions: seq<Action>, final: State, j: JobId) returns (i: nat)
    requires WorldOk(c) && t.exclusive && !t.surprises && Exact(c, s) && FailedOk(c, s, j) && Run(t, c, s, actions, final)
    requires j in s.db.jobs && j in c.files && !Live(s, j) && !Failable(c, c.files[j], s.db.jobs[j])
    ensures Uncharged(final, j, s.db.jobs[j].retries) && Exact(c, final)
    ensures s.db.jobs[j].checkpoint <= i && StuckBelow(final, j, s.db.jobs[j].checkpoint, i)
  {
    assert JobOk(c, s, j) && ProgressOk(c, s, j);
    var rows, k := c.files[j].rows, s.db.jobs[j].checkpoint;
    i := UnpoisonedIsOutOfReach(c, rows, k);
    RunKeepsUncharged(t, c, s, actions, final, j, k, i, s.db.jobs[j].retries);
  }

  // ---------- If: a run that ends FAILED ----------

  // Worker w is in the row loop, in an attempt that can get to the raising row's batch.
  predicate Approaches(c: World, s: State, w: int, p: nat) {
    && w in s.workers && Holds(c, s, w) && s.workers[w].phase.Running?
    && s.workers[w].local.checkpoint <= p && PoisonedBy(c, Rows(c, s, w), s.workers[w].phase.start, p)
  }

  lemma ApproachCommits(c: World, s: State, w: int, p: nat)
    requires Safe(c, s) && Approaches(c, s, w, p) && s.workers[w].local.checkpoint < Floor(c, p)
    ensures Enabled(c, s, Commit(w))
    ensures var mid := NextCommit(c, s, w);
            && Approaches(c, mid, w, p) && mid.workers[w].job == s.workers[w].job
            && mid.workers[w].local.checkpoint > s.workers[w].local.checkpoint
            && mid.workers - {w} == s.workers - {w}
            && mid.pending == s.pending && mid.stream == s.stream && mid.delivered == s.delivered
            && mid.db.jobs[s.workers[w].job].retries == s.db.jobs[s.workers[w].job].retries
            && mid.history[s.workers[w].job].completed == s.history[s.workers[w].job].completed
  {
    assert WorkerOk(c, s, w);
    var lo := s.workers[w].local.checkpoint;
    BoundaryIsFloor(c, lo, lo);
    FloorsInOrder(c, lo, p);
    ScanFits(Rows(c, s, w), s.workers[w].phase.start, lo, BatchEnd(c, Rows(c, s, w), lo));
  }

  // One delivery that the raising row ends.
  predicate CountedOut(s: State, final: State, w: int, j: JobId, checkpoint: nat) {
    && OthersAsBefore(s, final, w) && final.pending == s.pending
    && j in s.db.jobs && j in s.history && j in final.db.jobs && j in final.history
    && final.db.jobs[j].retries == s.db.jobs[j].retries + 1
    && final.db.jobs[j].checkpoint == checkpoint
    && final.history[j].completed == s.history[j].completed
  }

  lemma FailAtPoison(t: Tier, c: World, s: State, w: int, p: nat) returns (actions: seq<Action>, final: State)
    requires WorldOk(c) && t.exclusive && Exact(c, s) && Approaches(c, s, w, p) && s.workers[w].local.checkpoint == Floor(c, p)
    ensures Run(t, c, s, actions, final) && CountedOut(s, final, w, s.workers[w].job, Floor(c, p))
  {
    HolderIsAlone(c, s, w);
    assert !NoneRaises(Rows(c, s, w), Floor(c, p), BatchEnd(c, Rows(c, s, w), Floor(c, p)));
    final := Next(c, s, Fail(w, RowRaised));
    actions := [Fail(w, RowRaised)];
    assert Run(t, c, final, [], final);
    StepThenRun(t, c, s, Fail(w, RowRaised), [], final);
  }

  lemma {:induction false} ReachPoison(t: Tier, c: World, s: State, w: int, p: nat) returns (actions: seq<Action>, final: State)
    requires WorldOk(c) && t.exclusive && Exact(c, s) && Approaches(c, s, w, p)
    ensures Run(t, c, s, actions, final) && CountedOut(s, final, w, s.workers[w].job, Floor(c, p))
    decreases p - s.workers[w].local.checkpoint
  {
    var lo := s.workers[w].local.checkpoint;
    assert WorkerOk(c, s, w);
    MultipleBelow(lo, p, BatchLength(c));
    if lo == Floor(c, p) {
      actions, final := FailAtPoison(t, c, s, w, p);
    } else {
      ApproachCommits(c, s, w, p);
      StepKeepsExact(c, s, Commit(w));
      var rest: seq<Action>;
      rest, final := ReachPoison(t, c, NextCommit(c, s, w), w, p);
      actions := [Commit(w)] + rest;
      StepThenRun(t, c, s, Commit(w), rest, final);
    }
  }

  lemma RetireEnds(t: Tier, c: World, s: State, w: int) returns (actions: seq<Action>, final: State)
    requires Exact(c, s) && w in s.workers && s.workers[w].phase.Retiring?
    ensures Run(t, c, s, actions, final)
    ensures var j := s.workers[w].job; j in final.db.jobs && final.db.jobs[j].status.Failed? && Acked(final, j)
  {
    HolderIsAlone(c, s, w);
    var retired := Next(c, s, Retire(w));
    final := Next(c, retired, Acknowledge(w));
    actions := [Retire(w), Acknowledge(w)];
    assert Run(t, c, final, [], final);
    StepThenRun(t, c, retired, Acknowledge(w), [], final);
    StepThenRun(t, c, s, Retire(w), [Acknowledge(w)], final);
    var e := s.workers[w].entry;
    assert e < final.delivered <= |final.stream| && final.stream[e] == s.workers[w].job && e !in final.pending;
  }

  lemma RejectEnds(t: Tier, c: World, s: State, w: int) returns (actions: seq<Action>, final: State)
    requires Exact(c, s) && w in s.workers && s.workers[w].phase.NoColumns?
    ensures Run(t, c, s, actions, final)
    ensures var j := s.workers[w].job; j in final.db.jobs && final.db.jobs[j].status.Failed? && Acked(final, j)
  {
    HolderIsAlone(c, s, w);
    var rejected := Next(c, s, RejectFile(w));
    final := Next(c, rejected, Acknowledge(w));
    actions := [RejectFile(w), Acknowledge(w)];
    assert Run(t, c, final, [], final);
    StepThenRun(t, c, rejected, Acknowledge(w), [], final);
    StepThenRun(t, c, s, RejectFile(w), [Acknowledge(w)], final);
    var e := s.workers[w].entry;
    assert e < final.delivered <= |final.stream| && final.stream[e] == s.workers[w].job && e !in final.pending;
  }

  // What a state between deliveries of job j is.
  predicate Between(c: World, s: State, j: JobId, e: nat) {
    && j in s.db.jobs && j in c.files && j in s.history && !s.history[j].completed
    && e in s.pending && e < |s.stream| && s.stream[e] == j
    && forall w :: w in s.workers ==> s.workers[w].job != j
  }

  lemma BetweenAllowsBegin(t: Tier, c: World, s: State, j: JobId, e: nat, w: int)
    requires Exact(c, s) && Between(c, s, j, e) && w !in s.workers
    ensures Allowed(t, c, s, Begin(w, e)) && IsExclusive(s, Begin(w, e)) && !s.db.jobs[j].status.Completed?
  {
    // Nothing here depends on what these say.
    hide ErrorsCovered, PhaseOk, TableOk, ErrorsOk, ProgressOk, DeliveriesOk, HolderOk;
    assert JobOk(c, s, j);
    forall v | v in s.workers
      ensures s.workers[v].entry != e
    {
      assert WorkerOk(c, s, v);
    }
  }

  lemma BegunWorker(c: World, s: State, j: JobId, e: nat, w: int)
    requires Enabled(c, s, Begin(w, e)) && Between(c, s, j, e) && !s.db.jobs[j].status.Completed?
    ensures var begun := Next(c, s, Begin(w, e));
            && w in begun.workers && Holds(c, begun, w) && begun.workers - {w} == s.workers
            && begun.workers[w] == Worker(e, j, s.db.jobs[j], if s.db.jobs[j].retries >= MAX_RETRIES then Retiring else Starting)
            && begun.db == s.db && begun.pending == s.pending && begun.stream == s.stream && begun.delivered == s.delivered
            && j in begun.history && !begun.history[j].completed
  {
    assert Next(c, s, Begin(w, e)).workers - {w} == s.workers;
  }

  // A delivery begun by a fresh worker.
  lemma BeginBetween(t: Tier, c: World, s: State, j: JobId, e: nat) returns (w: int, begun: State)
    requires WorldOk(c) && t.exclusive && Exact(c, s) && Between(c, s, j, e)
    ensures w !in s.workers && Allowed(t, c, s, Begin(w, e)) && begun == Next(c, s, Begin(w, e)) && Exact(c, begun)
    ensures w in begun.workers && Holds(c, begun, w) && begun.workers - {w} == s.workers
    ensures begun.workers[w] == Worker(e, j, s.db.jobs[j], if s.db.jobs[j].retries >= MAX_RETRIES then Retiring else Starting)
    ensures begun.db == s.db && begun.pending == s.pending && begun.stream == s.stream && begun.delivered == s.delivered
    ensures j in begun.history && !begun.history[j].completed
  {
    w := FreshWorker(s.workers.Keys);
    BetweenAllowsBegin(t, c, s, j, e, w);
    BegunWorker(c, s, j, e, w);
    // What is left to show is read off these lemmas.
    hide Next, Exact, Safe, IsExclusive;
    begun := Next(c, s, Begin(w, e));
    StepKeepsExact(c, s, Begin(w, e));
  }

  lemma StartBegun(t: Tier, c: World, s: State, w: int) returns (started: State)
    requires WorldOk(c) && Exact(c, s) && w in s.workers && Holds(c, s, w) && s.workers[w].phase.Starting?
    ensures Allowed(t, c, s, Start(w)) && started == Next(c, s, Start(w)) && Exact(c, started)
    ensures w in started.workers && Holds(c, started, w) && started.workers - {w} == s.workers - {w}
    ensures var me, j := s.workers[w], s.workers[w].job;
            && started.workers[w] == me.(local := me.local.(status := Processing),
                                         phase := if c.files[j].columnsOk then Running(me.local.checkpoint, {}) else NoColumns)
            && started.db.jobs[j].retries == s.db.jobs[j].retries && started.history == s.history
    ensures started.pending == s.pending && started.stream == s.stream && started.delivered == s.delivered
  {
    started := Next(c, s, Start(w));
    StepKeepsExact(c, s, Start(w));
    assert started.workers - {w} == s.workers - {w};
  }

  // One delivery of a poisoned job.
  lemma PoisonDelivery(t: Tier, c: World, s: State, j: JobId, e: nat, p: nat) returns (actions: seq<Action>, final: State)
    requires WorldOk(c) && t.exclusive && Exact(c, s) && Between(c, s, j, e) && c.files[j].columnsOk
    requires s.db.jobs[j].retries < MAX_RETRIES && PoisonedBy(c, c.files[j].rows, s.db.jobs[j].checkpoint, p)
    ensures Run(t, c, s, actions, final) && Exact(c, final) && Between(c, final, j, e)
    ensures final.db.jobs[j].retries == s.db.jobs[j].retries + 1 && final.db.jobs[j].checkpoint == Floor(c, p)
  {
    var w, begun := BeginBetween(t, c, s, j, e);
    var started := StartBegun(t, c, begun, w);
    actions, final := ReachPoison(t, c, started, w, p);
    RunKeepsExact(t, c, started, actions, final);
    StepThenRun(t, c, begun, Start(w), actions, final);
    StepThenRun(t, c, s, Begin(w, e), [Start(w)] + actions, final);
    actions := [Begin(w, e)] + ([Start(w)] + actions);
    assert final.workers == s.workers;
  }

  lemma LastDelivery(t: Tier, c: World, s: State, j: JobId, e: nat) returns (actions: seq<Action>, final: State)
    requires WorldOk(c) && t.exclusive && Exact(c, s) && Between(c, s, j, e)
    requires s.db.jobs[j].retries >= MAX_RETRIES || !c.files[j].columnsOk
    ensures Run(t, c, s, actions, final) && j in final.db.jobs && final.db.jobs[j].status.Failed? && Acked(final, j)
  {
    var w, begun := BeginBetween(t, c, s, j, e);
    if s.db.jobs[j].retries >= MAX_RETRIES {
      actions, final := RetireEnds(t, c, begun, w);
    } else {
      var started := StartBegun(t, c, begun, w);
      actions, final := RejectEnds(t, c, started, w);
      StepThenRun(t, c, begun, Start(w), actions, final);
      actions := [Start(w)] + actions;
    }
    StepThenRun(t, c, s, Begin(w, e), actions, final);
    actions := [Begin(w, e)] + actions;
  }

  lemma FailableDelivery(t: Tier, c: World, s: State, j: JobId, e: nat) returns (actions: seq<Action>, final: State)
    requires WorldOk(c) && t.exclusive && Exact(c, s) && Between(c, s, j, e) && Failable(c, c.files[j], s.db.jobs[j])
    requires s.db.jobs[j].retries < MAX_RETRIES && c.files[j].columnsOk
    ensures Run(t, c, s, actions, final) && Exact(c, final) && Between(c, final, j, e)
    ensures final.db.jobs[j].retries == s.db.jobs[j].retries + 1 && Failable(c, c.files[j], final.db.jobs[j])
  {
    var rows, k := c.files[j].rows, s.db.jobs[j].checkpoint;
    var p :| k <= p < |rows| && PoisonedBy(c, rows, k, p);
    actions, final := PoisonDelivery(t, c, s, j, e, p);
    assert NoneRaises(rows, Floor(c, p), p) by {
      assert JobOk(c, s, j);
      if k < |rows| {
        MultipleBelow(k, p, BatchLength(c));
      }
    }
    assert PoisonedBy(c, rows, Floor(c, p), p);
  }

  lemma {:induction false} EndFailed(t: Tier, c: World, s: State, j: JobId, e: nat) returns (actions: seq<Action>, final: State)
    requires WorldOk(c) && t.exclusive && Exact(c, s) && Between(c, s, j, e) && Failable(c, c.files[j], s.db.jobs[j])
    ensures Run(t, c, s, actions, final) && j in final.db.jobs && final.db.jobs[j].status.Failed? && Acked(final, j)
    decreases if s.db.jobs[j].retries < MAX_RETRIES then MAX_RETRIES - s.db.jobs[j].retries else 0
  {
    if s.db.jobs[j].retries >= MAX_RETRIES || !c.files[j].columnsOk {
      actions, final := LastDelivery(t, c, s, j, e);
    } else {
      var mid: State, rest: seq<Action>;
      actions, mid := FailableDelivery(t, c, s, j, e);
      rest, final := EndFailed(t, c, mid, j, e);
      RunThenRun(t, c, s, actions, mid, rest, final);
      actions := actions + rest;
    }
  }

  // Under exclusive delivery, where attempts may be lost at any time and nothing is
  // counted but raising rows, a job between deliveries that was not COMPLETED can end
  // FAILED if and only if its retries are used up, its header is incomplete, or a row
  // after its checkpoint raises with nothing the database refuses before that row's
  // batch.
  lemma FailableIff(t: Tier, c: World, s: State, j: JobId, e: nat)
    requires WorldOk(c) && t.exclusive && Reachable(t, c, s) && Between(c, s, j, e)
    ensures CanEndFailed(c, s, j) <==> Failable(c, c.files[j], s.db.jobs[j])
  {
    ReachableIsOk(t, c, s, j);
    if Failable(c, c.files[j], s.db.jobs[j]) {
      var actions, final := EndFailed(NO_SURPRISES, c, s, j, e);
    }
    if CanEndFailed(c, s, j) {
      var actions, final :|
        Run(NO_SURPRISES, c, s, actions, final) && j in final.db.jobs && final.db.jobs[j].status.Failed? && Acked(final, j);
      FailingNeedsFailable(NO_SURPRISES, c, s, actions, final, j);
    }
  }

  // FAILED is not even stored, acknowledged or not, unless the condition holds.
  lemma FailingNeedsFailable(t: Tier, c: World, s: State, actions: seq<Action>, final: State, j: JobId)
    requires WorldOk(c) && t.exclusive && !t.surprises && Exact(c, s) && FailedOk(c, s, j) && Run(t, c, s, actions, final)
    requires j in s.db.jobs && j in c.files && !Live(s, j)
    requires j in final.db.jobs && final.db.jobs[j].status.Failed?
    ensures Failable(c, c.files[j], s.db.jobs[j])
  {
    RunKeepsExact(t, c, s, actions, final);
    assert JobOk(c, final, j);
    if !Failable(c, c.files[j], s.db.jobs[j]) {
      var i := NothingIsCharged(t, c, s, actions, final, j);
    }
  }

  lemma ReachableIsOk(t: Tier, c: World, s: State, j: JobId)
    requires WorldOk(c) && t.exclusive && Reachable(t, c, s)
    ensures Exact(c, s) && FailedOk(c, s, j)
  {
    var actions :| Run(t, c, Initial(c), actions, s);
    RunKeepsFailedOk(t, c, Initial(c), actions, s, j);
  }

  // ---------- Otherwise: retried for ever ----------

  // A job between deliveries that can neither be completed nor end FAILED is delivered
  // again and again: however the run goes on, short of exceptions other than a raising
  // row's, its entry stays pending, no retry is recorded, and neither COMPLETED nor
  // FAILED is stored.
  lemma RetriedForever(t: Tier, c: World, s: State, actions: seq<Action>, final: State, j: JobId, e: nat)
    requires WorldOk(c) && t.exclusive && !t.surprises && Reachable(t, c, s) && Between(c, s, j, e) && Run(t, c, s, actions, final)
    requires !Failable(c, c.files[j], s.db.jobs[j]) && !Importable(c.files[j], s.db.jobs[j].checkpoint)
    ensures e in final.pending
    ensures j in final.db.jobs && final.db.jobs[j].retries == s.db.jobs[j].retries
    ensures !final.db.jobs[j].status.Completed? && !final.db.jobs[j].status.Failed?
  {
    ReachableIsOk(t, c, s, j);
    var i := NothingIsCharged(t, c, s, actions, final, j);
    assert JobOk(c, s, j) && ProgressOk(c, s, j);
    var rows, k := c.files[j].rows, s.db.jobs[j].checkpoint;
    var b :| k <= b < |rows| && Blocks(rows, k, b);
    RunKeepsStuck(t, c, s, actions, final, j, k, b);
    assert JobOk(c, final, j);
    EntryStays(t, c, s, actions, final, e);
    assert e !in final.pending ==> Settled(final, e);
  }

  lemma {:induction false} EntryStays(t: Tier, c: World, s: State, actions: seq<Action>, final: State, e: nat)
    requires Run(t, c, s, actions, final) && e < s.delivered <= |s.stream|
    ensures e < final.delivered <= |final.stream| && final.stream[e] == s.stream[e]
    decreases |actions|
  {
    if actions != [] {
      EntryStays(t, c, Next(c, s, actions[0]), actions[1..], final, e);
    }
  }

  // The three outcomes exclude one another.
  lemma OneOutcome(c: World, file: File, row: JobRow)
    requires row.retries < MAX_RETRIES && row.checkpoint <= |file.rows|
    ensures !(Importable(file, row.checkpoint) && Failable(c, file, row))
  {
    if Importable(file, row.checkpoint) {
      forall p | row.checkpoint <= p < |file.rows|
        ensures !PoisonedBy(c, file.rows, row.checkpoint, p)
      {
        assert !Blocks(file.rows, row.checkpoint, p);
      }
    }
  }

  // ---------- A raising row, and nothing else going wrong ----------

  predicate FirstRaising(rows: seq<RowOutcome>, p: nat) {
    p < |rows| && rows[p].Raises? && NoneRaises(rows, 0, p)
  }

  predicate PoisonOk(c: World, s: State, j: JobId, p: nat) {
    && (j in s.history ==> s.history[j].reach <= p && (s.history[j].failed ==> j in s.db.jobs && s.db.jobs[j].retries >= MAX_RETRIES))
    && (j in s.db.jobs && s.db.jobs[j].retries > 0 ==> s.db.jobs[j].checkpoint == Floor(c, p))
    && Unlost(s, j)
  }

  predicate Unlost(s: State, j: JobId) {
    j in s.history ==> s.history[j].lost == 0 && !s.history[j].stranded
  }

  lemma StepKeepsUnlost(t: Tier, c: World, s: State, a: Action, j: JobId)
    requires !t.losses && !t.surprises && Allowed(t, c, s, a) && Unlost(s, j)
    ensures Unlost(Next(c, s, a), j)
  {
  }

  // A worker stopped by the poison row stands at the boundary below it.
  lemma StoppedAtFloor(c: World, s: State, w: int, p: nat)
    requires Safe(c, s) && Enabled(c, s, Fail(w, RowRaised)) && FirstRaising(Rows(c, s, w), p)
    requires s.history[s.workers[w].job].reach <= p
    ensures s.workers[w].local.checkpoint == Floor(c, p)
  {
    assert WorkerOk(c, s, w);
    var rows, lo := Rows(c, s, w), s.workers[w].local.checkpoint;
    var hi := BatchEnd(c, rows, lo);
    var i :| lo <= i < hi && rows[i].Raises?;
    BoundaryIsFloor(c, lo, p);
  }

  lemma StepKeepsPoison(t: Tier, c: World, s: State, a: Action, j: JobId, p: nat)
    requires WorldOk(c) && t.exclusive && !t.losses && !t.surprises
    requires j in c.files && c.files[j].columnsOk && FirstRaising(c.files[j].rows, p)
    requires Exact(c, s) && Allowed(t, c, s, a) && PoisonOk(c, s, j, p)
    ensures PoisonOk(c, Next(c, s, a), j, p)
  {
    StepKeepsBlocked(c, s, a, j, p);
    StepKeepsUnlost(t, c, s, a, j);
    // What is left to show is read off these lemmas.
    hide Unlost;
    if j in s.db.jobs {
      if Writes(s, a, j) {
        assert HolderOk(s, a.worker) && WorkerOk(c, s, a.worker);
        PoisonedWrite(c, s, a, j, p);
      }
      StepOnRow(c, s, a, j);
      NewlyFailed(c, s, a, j);
    }
  }

  lemma PoisonedWrite(c: World, s: State, a: Action, j: JobId, p: nat)
    requires Safe(c, s) && Enabled(c, s, a) && Writes(s, a, j) && WorkerOk(c, s, a.worker) && HolderOk(s, a.worker)
    requires c.files[j].columnsOk && FirstRaising(c.files[j].rows, p) && s.history[j].reach <= p
    requires a.Fail? ==> a.cause.RowRaised?
    ensures a.Fail? ==> s.db.jobs[j].checkpoint == Floor(c, p)
    ensures a.Commit? ==> s.db.jobs[j].checkpoint != Floor(c, p)
    ensures a.Retire? ==> s.db.jobs[j].retries >= MAX_RETRIES
    ensures !a.RejectFile?
  {
    if a.Fail? {
      StoppedAtFloor(c, s, a.worker, p);
    } else if a.Commit? && s.db.jobs[j].checkpoint == Floor(c, p) {
      FloorBatchIsBlocked(c, s, a.worker, p);
    }
  }

  lemma FloorBatchIsBlocked(c: World, s: State, w: int, p: nat)
    requires Safe(c, s) && InFile(c, s, w) && FirstRaising(Rows(c, s, w), p)
    requires s.workers[w].local.checkpoint == Floor(c, p)
    ensures !Enabled(c, s, Commit(w))
  {
    // Nothing here depends on what these say.
    hide Safe, Floor;
    BlockedBatchIsRefused(c, s, w, 0, p);
  }

  lemma {:induction false} RunKeepsPoison(t: Tier, c: World, s: State, actions: seq<Action>, final: State, j: JobId, p: nat)
    requires WorldOk(c) && t.exclusive && !t.losses && !t.surprises
    requires j in c.files && c.files[j].columnsOk && FirstRaising(c.files[j].rows, p)
    requires Exact(c, s) && PoisonOk(c, s, j, p) && Run(t, c, s, actions, final)
    ensures PoisonOk(c, final, j, p)
    decreases |actions|
  {
    if actions != [] {
      StepKeepsPoison(t, c, s, actions[0], j, p);
      StepKeepsExact(c, s, actions[0]);
      RunKeepsPoison(t, c, Next(c, s, actions[0]), actions[1..], final, j, p);
    }
  }

  lemma ReachablePoison(c: World, s: State, j: JobId, p: nat)
    requires WorldOk(c) && j in c.files && c.files[j].columnsOk && FirstRaising(c.files[j].rows, p)
    requires Reachable(ONLY_BAD_ROWS, c, s)
    ensures Exact(c, s) && PoisonOk(c, s, j, p)
  {
    var actions :| Run(ONLY_BAD_ROWS, c, Initial(c), actions, s);
    RunKeepsExact(ONLY_BAD_ROWS, c, Initial(c), actions, s);
    RunKeepsPoison(ONLY_BAD_ROWS, c, Initial(c), actions, s, j, p);
  }

  // When a raising row is the only thing that goes wrong, a job whose entry was
  // acknowledged is FAILED, at the batch boundary below the first such row, with exactly
  // that prefix imported.
  lemma PoisonedJobIsFailed(c: World, s: State, j: JobId, p: nat)
    requires WorldOk(c) && j in c.files && Alone(c, j) && c.files[j].columnsOk && FirstRaising(c.files[j].rows, p)
    requires Reachable(ONLY_BAD_ROWS, c, s) && j in s.db.jobs && Acked(s, j)
    ensures s.db.jobs[j].status.Failed? && s.db.jobs[j].retries == MAX_RETRIES
    ensures s.db.jobs[j].checkpoint == BatchLength(c) * (p / BatchLength(c)) <= |c.files[j].rows|
    ensures Share(c, s, j) == Sequential(c, j, s.db.jobs[j].checkpoint)
  {
    ReachablePoison(c, s, j, p);
    ResumedCountersAreExact(ONLY_BAD_ROWS, c, s, j);
    NoJobPassesABlockingRow(ONLY_BAD_ROWS, c, s, j, p);
    assert JobOk(c, s, j) && DeliveriesOk(s, j);
  }

  // ---------- It always has a step to take ----------

  // A step on job j: the beginning of a delivery of it, or a step of its holder.
  predicate OnJob(s: State, a: Action, j: JobId) {
    match a
    case Create(_) => false
    case Enqueue(_) => false
    case Deliver => false
    case Begin(_, e) => e < |s.stream| && s.stream[e] == j
    case _ => a.worker in s.workers && s.workers[a.worker].job == j
  }

  // A holder in the row loop of its first attempt, or one at the raising row's batch.
  lemma PoisonedHolderGoesOn(c: World, s: State, w: int, p: nat) returns (a: Action)
    requires Exact(c, s) && w in s.workers && s.workers[w].phase.Running?
    requires var j := s.workers[w].job;
             && j in c.files && FirstRaising(c.files[j].rows, p) && PoisonOk(c, s, j, p)
             && AcceptsBelow(c.files[j].rows, 0, Floor(c, p))
    ensures (a == Commit(w) || a == Fail(w, RowRaised)) && Enabled(c, s, a)
  {
    HolderIsAlone(c, s, w);
    var j, lo := s.workers[w].job, s.workers[w].local.checkpoint;
    var rows := c.files[j].rows;
    assert ProgressOk(c, s, j) && DeliveriesOk(s, j);
    MultipleBelow(lo, p, BatchLength(c));
    if lo == Floor(c, p) {
      a := Fail(w, RowRaised);
    } else {
      a := Commit(w);
      assert s.workers[w].phase.start == 0;
      assert PoisonedBy(c, rows, 0, p);
      ApproachCommits(c, s, w, p);
    }
  }

  // Until its entry is acknowledged, a step on the job is allowed, if the database
  // accepts what precedes the raising row's batch.
  lemma PoisonedJobGoesOn(c: World, s: State, j: JobId, p: nat, e: nat) returns (a: Action)
    requires WorldOk(c) && j in c.files && c.files[j].columnsOk && FirstRaising(c.files[j].rows, p)
    requires AcceptsBelow(c.files[j].rows, 0, Floor(c, p))
    requires Reachable(ONLY_BAD_ROWS, c, s) && e < s.delivered <= |s.stream| && s.stream[e] == j && !Acked(s, j)
    ensures Allowed(ONLY_BAD_ROWS, c, s, a) && OnJob(s, a, j)
  {
    ReachablePoison(c, s, j, p);
    if w :| w in s.workers && s.workers[w].job == j {
      HolderIsAlone(c, s, w);
      match s.workers[w].phase
      case Running(_, _) => a := PoisonedHolderGoesOn(c, s, w, p);
      case Starting => a := Start(w);
      case Retiring => a := Retire(w);
      case NoColumns => a := RejectFile(w);
      case _ => a := Acknowledge(w);
    } else {
      var w := FreshWorker(s.workers.Keys);
      a := Begin(w, e);
      assert e in s.pending;
      assert JobOk(c, s, j);
      forall v | v in s.workers
        ensures s.workers[v].entry != e
      {
        assert WorkerOk(c, s, v);
      }
    }
  }

  // ---------- It takes a bounded number of them ----------

  // Steps left to a delivery: more than there are rows.
  function Rank(n: nat, worker: Worker): nat {
    match worker.phase
    case Starting => n + 4
    case Running(_, _) => if worker.local.checkpoint <= n then n - worker.local.checkpoint + 3 else 3
    case NoColumns => 2
    case Retiring => 2
    case _ => 1
  }

  // What the deliveries still to begin can take.
  ghost function Budget(s: State, j: JobId, n: nat): nat {
    var begun := if j in s.history then s.history[j].begun else 0;
    if begun <= MAX_RETRIES then (MAX_RETRIES + 1 - begun) * (n + 5) else 0
  }

  // And what the one in progress can.
  ghost function Work(s: State, j: JobId, n: nat): nat {
    Budget(s, j, n) + if w :| w in s.workers && s.workers[w].job == j then Rank(n, s.workers[w]) else 0
  }

  lemma WorkOfHolder(s: State, j: JobId, n: nat, w: int)
    requires Sole(s) && w in s.workers && s.workers[w].job == j
    ensures Work(s, j, n) == Budget(s, j, n) + Rank(n, s.workers[w])
  {
  }

  lemma WorkWithoutHolder(s: State, j: JobId, n: nat)
    requires !Live(s, j)
    ensures Work(s, j, n) == Budget(s, j, n)
  {
    if w :| w in s.workers && s.workers[w].job == j {
      assert Live(s, j);
    }
  }

  lemma BudgetOfOneMore(s: State, s': State, j: JobId, n: nat)
    requires j in s.history && j in s'.history && s'.history[j].begun == s.history[j].begun + 1 <= MAX_RETRIES + 1
    ensures Budget(s', j, n) + (n + 5) == Budget(s, j, n)
  {
    var left := MAX_RETRIES + 1 - s.history[j].begun;
    assert left * (n + 5) == (left - 1) * (n + 5) + (n + 5);
  }

  // A delivery that begins is one of the first four, and has less to do than there was.
  lemma BeginHasLessLeft(c: World, s: State, w: int, e: nat, n: nat)
    requires Exact(c, s) && Enabled(c, s, Begin(w, e)) && IsExclusive(s, Begin(w, e)) && !Live(s, s.stream[e])
    requires s.stream[e] in s.history && s.history[s.stream[e]].lost == 0
    ensures var j, s' := s.stream[e], Next(c, s, Begin(w, e));
            && w in s'.workers && s'.workers[w].job == j && Rank(n, s'.workers[w]) < n + 5
            && j in s'.history && s'.history[j].begun == s.history[j].begun + 1 <= MAX_RETRIES + 1
  {
    var j := s.stream[e];
    assert JobOk(c, s, j) && DeliveriesOk(s, j);
    assert !Acked(s, j);
  }

  lemma BeginTakesWork(c: World, s: State, w: int, e: nat, n: nat)
    requires Exact(c, s) && Enabled(c, s, Begin(w, e)) && IsExclusive(s, Begin(w, e))
    requires s.stream[e] in s.history && s.history[s.stream[e]].lost == 0
    ensures Work(Next(c, s, Begin(w, e)), s.stream[e], n) < Work(s, s.stream[e], n)
  {
    var j, s' := s.stream[e], Next(c, s, Begin(w, e));
    BeginFindsNoHolder(c, s, w, e);
    BeginKeepsHolders(c, s, w, e);
    BeginHasLessLeft(c, s, w, e, n);
    // What is left to show is read off these lemmas.
    hide Next, NextBegin, Safe, Exact, HolderOk, Rank, Work;
    BudgetOfOneMore(s, s', j, n);
    WorkWithoutHolder(s, j, n);
    WorkOfHolder(s', j, n, w);
  }

  // A holder's own step lowers its rank or ends the delivery.
  lemma HolderTakesWork(c: World, s: State, a: Action, w: int, n: nat)
    requires Enabled(c, s, a) && w in s.workers && !a.Begin? && !a.Create? && !a.Enqueue? && !a.Deliver? && a.worker == w
    requires a.Commit? ==> |Rows(c, s, w)| <= n
    requires !a.Crash?
    ensures var s' := Next(c, s, a);
            && (w in s'.workers ==> s'.workers[w].job == s.workers[w].job && Rank(n, s'.workers[w]) < Rank(n, s.workers[w]))
            && (forall v :: v in s'.workers && v != w ==> v in s.workers && s'.workers[v] == s.workers[v])
            && (s.workers[w].job in s.history ==> s.workers[w].job in s'.history
                                                  && s'.history[s.workers[w].job].begun == s.history[s.workers[w].job].begun)
  {
  }

  // So it lowers the work left, since nobody else holds the job.
  lemma SoleHolderTakesWork(s: State, s': State, j: JobId, n: nat, w: int)
    requires Sole(s) && Sole(s') && w in s.workers && s.workers[w].job == j
    requires w in s'.workers ==> s'.workers[w].job == j && Rank(n, s'.workers[w]) < Rank(n, s.workers[w])
    requires forall v :: v in s'.workers && v != w ==> v in s.workers && s'.workers[v] == s.workers[v]
    requires j in s.history && j in s'.history && s'.history[j].begun == s.history[j].begun
    ensures Work(s', j, n) < Work(s, j, n)
  {
    WorkOfHolder(s, j, n, w);
    if w in s'.workers {
      WorkOfHolder(s', j, n, w);
    } else {
      WorkWithoutHolder(s', j, n);
    }
  }

  lemma OwnStepTakesWork(c: World, s: State, a: Action, j: JobId)
    requires WorldOk(c) && Exact(c, s) && Allowed(ONLY_BAD_ROWS, c, s, a) && !a.Begin? && OnJob(s, a, j) && j in c.files
    ensures Work(Next(c, s, a), j, |c.files[j].rows|) < Work(s, j, |c.files[j].rows|)
  {
    var w, n, s' := a.worker, |c.files[j].rows|, Next(c, s, a);
    HolderIsAlone(c, s, w);
    HolderTakesWork(c, s, a, w, n);
    StepKeepsExact(c, s, a);
    assert j in s.history;
    // What is left to show is read off these lemmas.
    hide Next, Enabled, WorkerOk, HolderOk, Sole, Work, Rank;
    SoleHolderTakesWork(s, s', j, n, w);
  }

  // Nobody else's step touches the holder.
  lemma OthersTakeNone(c: World, s: State, a: Action, j: JobId, n: nat)
    requires Enabled(c, s, a) && !OnJob(s, a, j) && Sole(s) && Sole(Next(c, s, a))
    requires a.Create? && a.job == j ==> j !in s.history
    ensures Work(Next(c, s, a), j, n) == Work(s, j, n)
  {
    var s' := Next(c, s, a);
    OthersKeepHolder(c, s, a, j);
    // Nothing here depends on what these say.
    hide Next, Enabled, Sole;
    if w :| w in s.workers && s.workers[w].job == j {
      WorkOfHolder(s, j, n, w);
      WorkOfHolder(s', j, n, w);
    } else {
      WorkWithoutHolder(s, j, n);
      WorkWithoutHolder(s', j, n);
    }
  }

  lemma OthersKeepHolder(c: World, s: State, a: Action, j: JobId)
    requires Enabled(c, s, a) && !OnJob(s, a, j)
    ensures forall w :: w in s.workers && s.workers[w].job == j ==> w in Next(c, s, a).workers && Next(c, s, a).workers[w] == s.workers[w]
    ensures forall w :: w in Next(c, s, a).workers && Next(c, s, a).workers[w].job == j ==> w in s.workers && s.workers[w].job == j
    ensures j in s.history ==> j in Next(c, s, a).history && (!a.Create? ==> Next(c, s, a).history[j].begun == s.history[j].begun)
    ensures j !in s.history && j in Next(c, s, a).history ==> Next(c, s, a).history[j].begun == 0
  {
  }

  // How many of a run's steps are on job j.
  ghost function StepsOn(c: World, s: State, actions: seq<Action>, j: JobId): nat
    decreases |actions|
  {
    if actions == [] || !Enabled(c, s, actions[0]) then 0
    else (if OnJob(s, actions[0], j) then 1 else 0) + StepsOn(c, Next(c, s, actions[0]), actions[1..], j)
  }

  lemma StepTakesWork(c: World, s: State, a: Action, j: JobId, p: nat)
    requires WorldOk(c) && Exact(c, s) && Allowed(ONLY_BAD_ROWS, c, s, a) && j in c.files && PoisonOk(c, s, j, p)
    ensures Work(Next(c, s, a), j, |c.files[j].rows|) + (if OnJob(s, a, j) then 1 else 0) <= Work(s, j, |c.files[j].rows|)
  {
    StepKeepsExact(c, s, a);
    if !OnJob(s, a, j) {
      OthersTakeNone(c, s, a, j, |c.files[j].rows|);
    } else if a.Begin? {
      assert JobOk(c, s, j);
      BeginTakesWork(c, s, a.worker, a.entry, |c.files[j].rows|);
    } else {
      OwnStepTakesWork(c, s, a, j);
    }
  }

  lemma {:induction false} RunTakesWork(c: World, s: State, actions: seq<Action>, final: State, j: JobId, p: nat)
    requires WorldOk(c) && j in c.files && c.files[j].columnsOk && FirstRaising(c.files[j].rows, p)
    requires Exact(c, s) && PoisonOk(c, s, j, p) && Run(ONLY_BAD_ROWS, c, s, actions, final)
    ensures StepsOn(c, s, actions, j) + Work(final, j, |c.files[j].rows|) <= Work(s, j, |c.files[j].rows|)
    decreases |actions|
  {
    if actions != [] {
      StepTakesWork(c, s, actions[0], j, p);
      StepKeepsPoison(ONLY_BAD_ROWS, c, s, actions[0], j, p);
      StepKeepsExact(c, s, actions[0]);
      RunTakesWork(c, Next(c, s, actions[0]), actions[1..], final, j, p);
    }
  }

  // When a raising row is the only thing that goes wrong, the job ends, and FAILED. No
  // run has more than four times the file's length, and a little, of steps on it; until
  // its entry is acknowledged another step is allowed, if the database accepts what
  // precedes the raising row's batch; and once it is acknowledged it is FAILED, at the
  // batch boundary below that row, with exactly that prefix imported.
  lemma PoisonRowEndsTheJob(c: World, actions: seq<Action>, s: State, j: JobId, p: nat, e: nat)
    requires WorldOk(c) && j in c.files && Alone(c, j) && c.files[j].columnsOk && FirstRaising(c.files[j].rows, p)
    requires Run(ONLY_BAD_ROWS, c, Initial(c), actions, s) && e < s.delivered <= |s.stream| && s.stream[e] == j
    ensures StepsOn(c, Initial(c), actions, j) <= 4 * (|c.files[j].rows| + 5)
    ensures AcceptsBelow(c.files[j].rows, 0, Floor(c, p)) && !Acked(s, j)
            ==> exists a :: Allowed(ONLY_BAD_ROWS, c, s, a) && OnJob(s, a, j)
    ensures Acked(s, j) ==>
              && j in s.db.jobs && s.db.jobs[j].status.Failed? && s.db.jobs[j].retries == 3
              && s.db.jobs[j].checkpoint == Floor(c, p) <= |c.files[j].rows|
              && Share(c, s, j) == Sequential(c, j, s.db.jobs[j].checkpoint)
  {
    RunTakesWork(c, Initial(c), actions, s, j, p);
    WorkWithoutHolder(Initial(c), j, |c.files[j].rows|);
    ReachablePoison(c, s, j, p);
    if Acked(s, j) {
      PoisonedJobIsFailed(c, s, j, p);
    } else if AcceptsBelow(c.files[j].rows, 0, Floor(c, p)) {
      var a := PoisonedJobGoesOn(c, s, j, p, e);
    }
  }
}
