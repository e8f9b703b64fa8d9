/**
 Recovery: from every reachable state, whatever the other workers are doing, one idle
 worker that meets no further fault settles a pending entry by itself.
 */
module Recovery {
  import opened Common
  import opened Validation
  import opened Ledger
  import opened Protocol
  import opened Safety
  import opened Guarantees

  // The database accepts every row of the file, whichever list it ends up in.
  predicate Storable(rows: seq<RowOutcome>) {
    forall i :: 0 <= i < |rows| ==>
                  && (rows[i].Valid? ==> FitsTxn(rows[i].txn))
                  && (rows[i].Invalid? ==> FitsError(RowError(i + 1, rows[i].id, rows[i].error)))
  }

  // The database accepts every batch of an attempt started from this checkpoint, up to
  // row `hi`.
  predicate AcceptsBelow(rows: seq<RowOutcome>, start: nat, hi: nat)
    requires hi <= |rows|
  {
    forall i :: start <= i < hi ==> !Refused(rows, start, i)
  }

  predicate Accepts(rows: seq<RowOutcome>, start: nat) {
    AcceptsBelow(rows, start, |rows|)
  }

  lemma StorableIsAccepted(rows: seq<RowOutcome>, start: nat)
    requires Storable(rows)
    ensures Accepts(rows, start)
  {
  }

  lemma {:induction false} AcceptedIdFits(rows: seq<RowOutcome>, start: nat, i: nat)
    requires start <= i < |rows| && AcceptsBelow(rows, start, i + 1) && rows[i].Valid?
    ensures |rows[i].txn.id| <= 128
    decreases i
  {
    assert !Refused(rows, start, i);
    if Repeats(rows, start, i) {
      var p :| start <= p < i && rows[p].Valid? && rows[p].txn.id == rows[i].txn.id;
      AcceptedIdFits(rows, start, p);
    }
  }

  lemma ScanRowFits(b: Batch, row: RowOutcome, rowNumber: nat)
    requires FitsBatch(b) && !row.Raises?
    requires row.Invalid? ==> FitsError(RowError(rowNumber, row.id, row.error))
    requires row.Valid? ==> |row.txn.id| <= 128 && (row.txn.id !in b.seen ==> FitsTxn(row.txn))
    ensures FitsBatch(ScanRow(b, row, rowNumber))
  {
  }

  lemma {:induction false} ScanFits(rows: seq<RowOutcome>, start: nat, lo: nat, hi: nat)
    requires start <= lo <= hi <= |rows| && NoneRaises(rows, lo, hi) && AcceptsBelow(rows, start, hi)
    ensures FitsBatch(Scan(rows, lo, hi, ValidIds(rows, start, lo)))
  {
    if lo < hi {
      ScanFits(rows, start, lo, hi - 1);
      assert !Refused(rows, start, hi - 1);
      if rows[hi - 1].Valid? {
        AcceptedIdFits(rows, start, hi - 1);
        ScanPartitions(rows, start, lo, hi - 1);
        ValidIdsMembers(rows, start, hi - 1, rows[hi - 1].txn.id);
      }
      // Nothing here depends on what these say.
      hide FitsBatch, FitsTxn, FitsError, ValidIds, ScanRow;
      ScanRowFits(Scan(rows, lo, hi - 1, ValidIds(rows, start, lo)), rows[hi - 1], hi);
    }
  }

  lemma StepThenRun(t: Tier, c: World, s: State, a: Action, rest: seq<Action>, final: State)
    requires Allowed(t, c, s, a) && Run(t, c, Next(c, s, a), rest, final)
    ensures Run(t, c, s, [a] + rest, final)
  {
    assert ([a] + rest)[1..] == rest;
  }

  lemma TwoSteps(t: Tier, c: World, s: State, a: Action, mid: State, b: Action, final: State)
    requires Allowed(t, c, s, a) && mid == Next(c, s, a)
    requires Allowed(t, c, mid, b) && final == Next(c, mid, b)
    ensures Run(t, c, s, [a, b], final)
  {
    // Nothing here depends on what these say.
    hide Next, Enabled;
    assert Run(t, c, final, [], final);
    StepThenRun(t, c, mid, b, [], final);
    assert [b] + [] == [b] && [a] + [b] == [a, b];
    StepThenRun(t, c, s, a, [b], final);
  }

  lemma ThreeSteps(t: Tier, c: World, s: State, a: Action, mid: State, b: Action, later: State, d: Action, final: State)
    requires Allowed(t, c, s, a) && mid == Next(c, s, a)
    requires Allowed(t, c, mid, b) && later == Next(c, mid, b)
    requires Allowed(t, c, later, d) && final == Next(c, later, d)
    ensures Run(t, c, s, [a, b, d], final)
  {
    // Nothing here depends on what these say.
    hide Next, Enabled;
    TwoSteps(t, c, mid, b, later, d, final);
    assert [a] + [b, d] == [a, b, d];
    StepThenRun(t, c, s, a, [b, d], final);
  }

  lemma {:induction false} RunThenRun(t: Tier, c: World, s: State, first: seq<Action>, mid: State, rest: seq<Action>, final: State)
    requires Run(t, c, s, first, mid) && Run(t, c, mid, rest, final)
    ensures Run(t, c, s, first + rest, final)
    decreases |first|
  {
    if first == [] {
      assert first + rest == rest;
    } else {
      RunThenRun(t, c, Next(c, s, first[0]), first[1..], mid, rest, final);
      assert (first + rest)[1..] == first[1..] + rest;
    }
  }

  // What a solo delivery leaves alone.
  predicate OthersAsBefore(s: State, final: State, w: int) {
    && final.workers == s.workers - {w}
    && final.stream == s.stream && final.delivered == s.delivered
  }

  // How one undisturbed delivery, importing from row k on, ends: acknowledged, or
  // requeued by a raising row.
  predicate Ends(c: World, s: State, final: State, w: int, j: JobId, e: nat, k: nat) {
    && OthersAsBefore(s, final, w)
    && j in s.db.jobs && j in final.db.jobs && j in final.history && j in c.files
    && if e in final.pending then
         && !NoneRaises(c.files[j].rows, k, |c.files[j].rows|)
         && final.pending == s.pending
         && final.db.jobs[j].retries == s.db.jobs[j].retries + 1
         && !final.db.jobs[j].status.Completed?
       else
         && final.pending == s.pending - {e}
         && (final.history[j].completed || final.history[j].failed)
  }

  // Worker w is in the row loop of a file its attempt can store, and nobody counted a
  // retry since it loaded the job.
  predicate InLoop(c: World, s: State, w: int) {
    && w in s.workers && s.workers[w].phase.Running?
    && s.workers[w].job in c.files && Accepts(c.files[s.workers[w].job].rows, s.workers[w].phase.start)
    && s.workers[w].job in s.db.jobs && s.workers[w].local.retries == s.db.jobs[s.workers[w].job].retries
    && s.workers[w].entry in s.pending
  }

  lemma CommitStaysInLoop(c: World, s: State, w: int)
    requires Safe(c, s) && InLoop(c, s, w) && InFile(c, s, w) && !NextBatchRaises(c, s, w)
    ensures Enabled(c, s, Commit(w))
    ensures var mid := NextCommit(c, s, w);
            && InLoop(c, mid, w)
            && mid.workers[w].job == s.workers[w].job && mid.workers[w].entry == s.workers[w].entry
            && mid.workers[w].local.checkpoint == BatchEnd(c, Rows(c, s, w), s.workers[w].local.checkpoint)
            && mid.workers - {w} == s.workers - {w}
            && mid.pending == s.pending && mid.stream == s.stream && mid.delivered == s.delivered
            && mid.db.jobs[s.workers[w].job].retries == s.db.jobs[s.workers[w].job].retries
  {
    var lo := s.workers[w].local.checkpoint;
    assert WorkerOk(c, s, w);
    ScanFits(Rows(c, s, w), s.workers[w].phase.start, lo, BatchEnd(c, Rows(c, s, w), lo));
  }

  lemma CompleteThenAcknowledge(t: Tier, c: World, s: State, w: int) returns (actions: seq<Action>, final: State)
    requires Safe(c, s) && InLoop(c, s, w) && Enabled(c, s, Complete(w))
    ensures Run(t, c, s, actions, final)
    ensures Ends(c, s, final, w, s.workers[w].job, s.workers[w].entry, s.workers[w].local.checkpoint)
    ensures s.workers[w].entry !in final.pending && final.history[s.workers[w].job].completed
  {
    var done := Next(c, s, Complete(w));
    final := Next(c, done, Acknowledge(w));
    actions := [Complete(w), Acknowledge(w)];
    assert Run(t, c, final, [], final);
    StepThenRun(t, c, done, Acknowledge(w), [], final);
    StepThenRun(t, c, s, Complete(w), [Acknowledge(w)], final);
  }

  lemma FailOnRow(t: Tier, c: World, s: State, w: int) returns (actions: seq<Action>, final: State)
    requires Safe(c, s) && InLoop(c, s, w) && Enabled(c, s, Fail(w, RowRaised))
    ensures Run(t, c, s, actions, final)
    ensures Ends(c, s, final, w, s.workers[w].job, s.workers[w].entry, s.workers[w].local.checkpoint)
    ensures s.workers[w].entry in final.pending
  {
    assert WorkerOk(c, s, w);
    final := Next(c, s, Fail(w, RowRaised));
    actions := [Fail(w, RowRaised)];
    assert Run(t, c, final, [], final);
    StepThenRun(t, c, s, Fail(w, RowRaised), [], final);
  }

  lemma EndsAfterBatch(c: World, s: State, final: State, w: int)
    requires Safe(c, s) && InLoop(c, s, w) && InFile(c, s, w) && !NextBatchRaises(c, s, w) && Enabled(c, s, Commit(w))
    requires var me := NextCommit(c, s, w).workers[w]; Ends(c, NextCommit(c, s, w), final, w, me.job, me.entry, me.local.checkpoint)
    ensures Ends(c, s, final, w, s.workers[w].job, s.workers[w].entry, s.workers[w].local.checkpoint)
  {
    CommitStaysInLoop(c, s, w);
  }

  // The row loop, from any batch boundary, run to its end.
  lemma {:induction false} FinishRun(t: Tier, c: World, s: State, w: int) returns (actions: seq<Action>, final: State)
    requires Safe(c, s) && InLoop(c, s, w)
    ensures Run(t, c, s, actions, final)
    ensures Ends(c, s, final, w, s.workers[w].job, s.workers[w].entry, s.workers[w].local.checkpoint)
    ensures s.workers[w].entry !in final.pending ==> final.history[s.workers[w].job].completed
    decreases |c.files[s.workers[w].job].rows| - s.workers[w].local.checkpoint
  {
    assert Holds(c, s, w) by { assert WorkerOk(c, s, w); }
    if s.workers[w].local.checkpoint >= |Rows(c, s, w)| {
      actions, final := CompleteThenAcknowledge(t, c, s, w);
    } else if NextBatchRaises(c, s, w) {
      actions, final := FailOnRow(t, c, s, w);
    } else {
      CommitStaysInLoop(c, s, w);
      StepKeepsSafe(c, s, Commit(w));
      var rest: seq<Action>;
      rest, final := FinishRun(t, c, NextCommit(c, s, w), w);
      actions := [Commit(w)] + rest;
      StepThenRun(t, c, s, Commit(w), rest, final);
      EndsAfterBatch(c, s, final, w);
    }
  }

  // The exits that import nothing.
  lemma EarlyExit(t: Tier, c: World, s: State, w: int) returns (actions: seq<Action>, final: State)
    requires Safe(c, s) && w in s.workers && (s.workers[w].phase.Skipping? || s.workers[w].phase.Retiring?)
    ensures Run(t, c, s, actions, final)
    ensures OthersAsBefore(s, final, w) && final.pending == s.pending - {s.workers[w].entry}
    ensures var j := s.workers[w].job;
            && j in s.db.jobs && j in final.db.jobs && j in final.history && j in c.files
            && (final.history[j].completed || final.history[j].failed)
  {
    assert WorkerOk(c, s, w);
    var last := if s.workers[w].phase.Retiring? then Next(c, s, Retire(w)) else s;
    final := Next(c, last, Acknowledge(w));
    assert Run(t, c, final, [], final);
    StepThenRun(t, c, last, Acknowledge(w), [], final);
    actions := [Acknowledge(w)];
    if s.workers[w].phase.Retiring? {
      StepThenRun(t, c, s, Retire(w), actions, final);
      actions := [Retire(w), Acknowledge(w)];
    }
  }

  // One delivery of a pending entry by an idle worker, with no fault but the file's.
  lemma OneDelivery(t: Tier, c: World, s: State, w: int, e: nat) returns (actions: seq<Action>, final: State)
    requires Safe(c, s) && w !in s.workers && e in s.pending
    requires t.exclusive ==> forall v :: v in s.workers ==> s.workers[v].entry != e
    requires e < |s.stream| && s.stream[e] in c.files && s.stream[e] in s.db.jobs
    requires Accepts(c.files[s.stream[e]].rows, s.db.jobs[s.stream[e]].checkpoint)
    ensures Run(t, c, s, actions, final)
    ensures Ends(c, s, final, w, s.stream[e], e, s.db.jobs[s.stream[e]].checkpoint)
    ensures e in final.pending ==> s.db.jobs[s.stream[e]].retries < MAX_RETRIES
    ensures (!s.db.jobs[s.stream[e]].status.Completed? && s.db.jobs[s.stream[e]].retries < MAX_RETRIES
             && c.files[s.stream[e]].columnsOk && e !in final.pending) ==> final.history[s.stream[e]].completed
  {
    var j := s.stream[e];
    assert e < s.delivered && JobOk(c, s, j);
    var begun := Next(c, s, Begin(w, e));
    StepKeepsSafe(c, s, Begin(w, e));
    assert begun.workers - {w} == s.workers;
    assert s.workers - {w} == s.workers;
    var rest: seq<Action>;
    if begun.workers[w].phase.Skipping? || begun.workers[w].phase.Retiring? {
      rest, final := EarlyExit(t, c, begun, w);
    } else {
      rest, final := StartedDelivery(t, c, begun, w);
    }
    actions := [Begin(w, e)] + rest;
    StepThenRun(t, c, s, Begin(w, e), rest, final);
  }

  // A file without the required columns.
  lemma RejectedDelivery(t: Tier, c: World, s: State, w: int) returns (actions: seq<Action>, final: State)
    requires Safe(c, s) && w in s.workers && s.workers[w].phase.NoColumns?
    ensures Run(t, c, s, actions, final)
    ensures Ends(c, s, final, w, s.workers[w].job, s.workers[w].entry, s.workers[w].local.checkpoint)
    ensures s.workers[w].entry !in final.pending && final.workers == s.workers - {w}
    ensures s.workers[w].job in c.files && !c.files[s.workers[w].job].columnsOk
  {
    assert WorkerOk(c, s, w);
    var rejected := Next(c, s, RejectFile(w));
    final := Next(c, rejected, Acknowledge(w));
    // Nothing here depends on what this says.
    hide Safe;
    assert Run(t, c, final, [], final);
    StepThenRun(t, c, rejected, Acknowledge(w), [], final);
    actions := [RejectFile(w)] + [Acknowledge(w)];
    StepThenRun(t, c, s, RejectFile(w), [Acknowledge(w)], final);
  }

  lemma StartedDelivery(t: Tier, c: World, s: State, w: int) returns (actions: seq<Action>, final: State)
    requires Safe(c, s) && w in s.workers && s.workers[w].phase.Starting?
    requires s.workers[w].job in c.files && Accepts(c.files[s.workers[w].job].rows, s.workers[w].local.checkpoint)
    requires s.workers[w].job in s.db.jobs && s.workers[w].local == s.db.jobs[s.workers[w].job]
    requires s.workers[w].entry in s.pending
    ensures Run(t, c, s, actions, final)
    ensures Ends(c, s, final, w, s.workers[w].job, s.workers[w].entry, s.workers[w].local.checkpoint)
    ensures s.workers[w].entry !in final.pending && c.files[s.workers[w].job].columnsOk
            ==> final.history[s.workers[w].job].completed
  {
    // Nothing here depends on what these say.
    hide TableOk, ErrorsOk, StreamOk, ErrorsCovered;
    assert WorkerOk(c, s, w);
    var started := Next(c, s, Start(w));
    StepKeepsSafe(c, s, Start(w));
    var rest: seq<Action>;
    if started.workers[w].phase.NoColumns? {
      rest, final := RejectedDelivery(t, c, started, w);
    } else {
      rest, final := FinishRun(t, c, started, w);
    }
    assert started.workers - {w} == s.workers - {w};
    actions := [Start(w)] + rest;
    StepThenRun(t, c, s, Start(w), rest, final);
  }

  // From every reachable state an idle worker can settle any pending entry of a
  // storable file; if no row raises, one delivery does it, and the job is COMPLETED
  // unless its retries were used up or its header is incomplete.
  lemma {:induction false} EveryEntryCanBeSettled(t: Tier, c: World, s: State, w: int, e: nat)
    returns (actions: seq<Action>, final: State)
    requires Safe(c, s) && w !in s.workers && e in s.pending
    requires t.exclusive ==> forall v :: v in s.workers ==> s.workers[v].entry != e
    requires e < |s.stream| && s.stream[e] in c.files && Storable(c.files[s.stream[e]].rows)
    ensures Run(t, c, s, actions, final) && Safe(c, final)
    ensures e !in final.pending && final.workers == s.workers
    ensures s.stream[e] in final.history
            && (final.history[s.stream[e]].completed || final.history[s.stream[e]].failed)
    ensures s.db.jobs[s.stream[e]].retries < MAX_RETRIES && c.files[s.stream[e]].columnsOk
            && NoneRaises(c.files[s.stream[e]].rows, 0, |c.files[s.stream[e]].rows|)
            ==> final.history[s.stream[e]].completed
    decreases if s.stream[e] in s.db.jobs && s.db.jobs[s.stream[e]].retries < MAX_RETRIES
              then MAX_RETRIES - s.db.jobs[s.stream[e]].retries else 0
  {
    var j := s.stream[e];
    assert e < s.delivered && JobOk(c, s, j);
    StorableIsAccepted(c.files[j].rows, s.db.jobs[j].checkpoint);
    actions, final := OneDelivery(t, c, s, w, e);
    RunKeepsSafe(t, c, s, actions, final);
    assert s.workers - {w} == s.workers;
    if e in final.pending {
      var mid := final;
      var more: seq<Action>;
      more, final := EveryEntryCanBeSettled(t, c, mid, w, e);
      RunThenRun(t, c, s, actions, mid, more, final);
      actions := actions + more;
    } else if s.db.jobs[j].status.Completed? {
      HistoryOnlyGrows(t, c, s, actions, final, j);
    }
  }

  lemma StepKeepsOutcome(c: World, s: State, a: Action, j: JobId)
    requires Enabled(c, s, a) && j in s.db.jobs && j in s.history
    ensures var s' := Next(c, s, a);
            && j in s'.db.jobs && j in s'.history
            && (s.history[j].completed ==> s'.history[j].completed)
            && (s.history[j].failed ==> s'.history[j].failed)
  {
  }

  lemma {:induction false} HistoryOnlyGrows(t: Tier, c: World, s: State, actions: seq<Action>, final: State, j: JobId)
    requires Safe(c, s) && Run(t, c, s, actions, final) && j in s.db.jobs && j in s.history
    ensures j in final.db.jobs && j in final.history
    ensures s.history[j].completed ==> final.history[j].completed
    ensures s.history[j].failed ==> final.history[j].failed
    decreases |actions|
  {
    if actions != [] {
      StepKeepsSafe(c, s, actions[0]);
      StepKeepsOutcome(c, s, actions[0], j);
      HistoryOnlyGrows(t, c, Next(c, s, actions[0]), actions[1..], final, j);
    }
  }
}
