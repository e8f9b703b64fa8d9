/**
 The account summary cache: a keyed store with expiry that fails open, and what its
 entries mean while readers race with the worker's commits and invalidations.
 */
module SummaryCache {
  import opened Common
  import opened Validation
  import opened Ledger
  import opened Accounts
  import Protocol

  const TTL := 60

  datatype Cell = Cell(summary: Summary, expiresAt: int)

  // ---------- The store ----------

  function Lookup(cells: map<string, Cell>, account: string, now: int): Option<Summary> {
    if account in cells && now < cells[account].expiresAt then Some(cells[account].summary) else None
  }

  // The keyed store, the server's clock, and the three operations; an unreachable server
  // reads as a miss and swallows a write.
  class Cache {
    var cells: map<string, Cell>
    var clock: int

    constructor (now: int)
      ensures cells == map[] && clock == now
    {
      cells, clock := map[], now;
    }

    method Get(account: string, reachable: bool) returns (summary: Option<Summary>)
      ensures summary == if reachable then Lookup(cells, account, clock) else None
    {
      summary := None;
      if reachable && account in cells && clock < cells[account].expiresAt {
        summary := Some(cells[account].summary);
      }
    }

    method Set(account: string, summary: Summary, reachable: bool)
      modifies this`cells
      ensures cells == if reachable then old(cells)[account := Cell(summary, clock + TTL)] else old(cells)
    {
      if reachable {
        cells := cells[account := Cell(summary, clock + TTL)];
      }
    }

    method Invalidate(account: string, reachable: bool)
      modifies this`cells
      ensures cells == if reachable then old(cells) - {account} else old(cells)
    {
      if reachable {
        cells := cells - {account};
      }
    }

    // The worker's loop over the accounts of a committed batch; `lost` says for which
    // accounts the server could not be reached.
    method InvalidateAll(accounts: set<string>, lost: set<string>)
      modifies this`cells
      ensures cells == old(cells) - (accounts - lost)
    {
      var left := accounts;
      while left != {}
        invariant left <= accounts
        invariant cells == old(cells) - ((accounts - left) - lost)
        decreases left
      {
        var account :| account in left;
        Invalidate(account, account !in lost);
        left := left - {account};
      }
    }
  }

  // ---------- One account's entry among readers and writers ----------

  // The fate of the invalidation that a commit owes this account; `at` is the step at
  // which the delete ran.
  datatype Fate = NotOwed | Pending | Lost | Deleted(at: nat)

  // A stored entry, with the history of how it came about: the state of the table its
  // summary was queried from, the steps of that query and of the set, and their times.
  datatype Entered = Entered(
    summary: Summary,
    version: nat,
    queriedAt: nat,
    setAt: nat,
    queryTime: int,
    setTime: int
  )

  datatype Reader = Reader(summary: Summary, version: nat, queriedAt: nat, queryTime: int)

  // tables[v] is the transactions table after v commits; fates[v] belongs to the commit
  // that brought it there.
  datatype Race = Race(
    account: string,
    tables: seq<seq<Entry>>,
    fates: seq<Fate>,
    cell: Option<Entered>,
    readers: map<int, Reader>,   // readers that queried and have not set yet
    step: nat,
    time: int
  )

  datatype Move =
    | Commit(txns: seq<Txn>, job: JobId)   // a worker's batch
    | Delete(version: nat, reached: bool)  // the invalidation a commit owes
    | Query(reader: int)                   // after a miss: read the aggregate
    | Set(reader: int, reached: bool)
    | Wait(seconds: nat)

  predicate WellFormed(r: Race) {
    r.tables != [] && |r.fates| == |r.tables|
  }

  function Table(r: Race): seq<Entry>
    requires WellFormed(r)
  {
    r.tables[|r.tables| - 1]
  }

  function TotalOf(r: Race, v: nat): Summary
    requires v < |r.tables|
  {
    Aggregate(r.tables[v], r.account)
  }

  // The aggregate a query would compute now.
  function Fresh(r: Race): Summary
    requires WellFormed(r)
  {
    Aggregate(Table(r), r.account)
  }

  predicate CanMove(r: Race, m: Move) {
    && WellFormed(r)
    && match m
       case Commit(_, _) => true
       case Delete(v, _) => v < |r.fates| && r.fates[v].Pending?
       case Query(reader) => reader !in r.readers
       case Set(reader, _) => reader in r.readers
       case Wait(_) => true
  }

  // A commit owes an invalidation to the accounts of its rows, conflicting rows or not.
  function Moved(r: Race, m: Move): Race
    requires CanMove(r, m)
  {
    var next := r.(step := r.step + 1);
    match m
    case Commit(txns, job) =>
      next.(tables := r.tables + [InsertAll(Table(r), txns, job)],
            fates := r.fates + [if r.account in AccountsOf(txns) then Pending else NotOwed])
    case Delete(v, reached) =>
      if reached then next.(cell := None, fates := r.fates[v := Deleted(r.step)])
      else next.(fates := r.fates[v := Lost])
    case Query(reader) =>
      next.(readers := r.readers[reader := Reader(Fresh(r), |r.tables| - 1, r.step, r.time)])
    case Set(reader, reached) =>
      var mine := r.readers[reader];
      if reached then
        next.(readers := r.readers - {reader},
              cell := Some(Entered(mine.summary, mine.version, mine.queriedAt, r.step, mine.queryTime, r.time)))
      else next.(readers := r.readers - {reader})
    case Wait(seconds) => next.(time := r.time + seconds)
  }

  function Start(account: string, table: seq<Entry>, time: int): Race {
    Race(account, [table], [NotOwed], None, map[], 0, time)
  }

  ghost predicate Play(r: Race, moves: seq<Move>, final: Race)
    decreases |moves|
  {
    if moves == [] then r == final
    else CanMove(r, moves[0]) && Play(Moved(r, moves[0]), moves[1..], final)
  }

  ghost predicate Possible(r: Race) {
    exists account, table, time, moves :: Play(Start(account, table, time), moves, r)
  }

  // An account whose aggregate a batch changed is among those it invalidates.
  lemma BatchInvalidatesWhatItChanges(table: seq<Entry>, txns: seq<Txn>, job: JobId, account: string)
    ensures account in AccountsOf(txns) || Aggregate(InsertAll(table, txns, job), account) == Aggregate(table, account)
  {
    if account !in AccountsOf(txns) {
      OnlyBatchAccountsChange(table, txns, job, account);
    }
  }

  // ---------- The invariant ----------

  predicate StatesOk(r: Race) {
    && WellFormed(r)
    && (forall v :: 0 <= v < |r.fates| && r.fates[v].Deleted? ==> r.fates[v].at < r.step)
    && (forall v, w :: 0 <= v < w < |r.tables| ==> r.tables[v] <= r.tables[w])
    && (forall v :: 0 < v < |r.tables| && r.fates[v].NotOwed? ==> TotalOf(r, v) == TotalOf(r, v - 1))
  }

  // A summary read at step `queriedAt`: every later commit's delete came after.
  predicate ReadOk(r: Race, summary: Summary, version: nat, queriedAt: nat) {
    && version < |r.tables| == |r.fates|
    && queriedAt < r.step
    && summary == TotalOf(r, version)
    && forall v :: version < v < |r.fates| && r.fates[v].Deleted? ==> r.fates[v].at > queriedAt
  }

  predicate ReaderOk(r: Race, mine: Reader) {
    ReadOk(r, mine.summary, mine.version, mine.queriedAt) && mine.queryTime <= r.time
  }

  predicate EnteredOk(r: Race, e: Entered) {
    && ReadOk(r, e.summary, e.version, e.queriedAt)
    && e.queryTime <= e.setTime <= r.time && e.queriedAt < e.setAt < r.step
    && forall v :: e.version < v < |r.fates| && r.fates[v].Deleted? ==> r.fates[v].at < e.setAt
  }

  predicate RaceOk(r: Race) {
    && StatesOk(r)
    && (forall reader :: reader in r.readers ==> ReaderOk(r, r.readers[reader]))
    && (r.cell.Some? ==> EnteredOk(r, r.cell.value))
  }

  lemma MoveExtendsTables(r: Race, m: Move)
    requires StatesOk(r) && CanMove(r, m)
    ensures r.tables <= Moved(r, m).tables && r.account == Moved(r, m).account
    ensures forall v, w :: 0 <= v < w < |Moved(r, m).tables| ==> Moved(r, m).tables[v] <= Moved(r, m).tables[w]
    ensures forall v :: 0 <= v < |r.tables| ==> TotalOf(Moved(r, m), v) == TotalOf(r, v)
  {
    // Nothing here depends on what this says.
    hide Aggregate;
    if m.Commit? {
      assert Table(r) <= InsertAll(Table(r), m.txns, m.job);
      hide InsertAll;
    }
  }

  lemma MoveKeepsStates(r: Race, m: Move)
    requires StatesOk(r) && CanMove(r, m)
    ensures StatesOk(Moved(r, m))
  {
    MoveExtendsTables(r, m);
    var r' := Moved(r, m);
    if m.Commit? {
      BatchInvalidatesWhatItChanges(Table(r), m.txns, m.job, r.account);
      assert TotalOf(r', |r.tables|) == Aggregate(InsertAll(Table(r), m.txns, m.job), r.account);
    }
    // Nothing here depends on what these say.
    hide Aggregate, InsertAll, AccountsOf;
    forall v | 0 < v < |r'.tables| && r'.fates[v].NotOwed?
      ensures TotalOf(r', v) == TotalOf(r', v - 1)
    {
      if v < |r.tables| {
        assert TotalOf(r, v) == TotalOf(r, v - 1);
      }
    }
  }

  lemma ReadStaysOk(r: Race, m: Move, summary: Summary, version: nat, queriedAt: nat)
    requires StatesOk(r) && CanMove(r, m) && ReadOk(r, summary, version, queriedAt)
    ensures ReadOk(Moved(r, m), summary, version, queriedAt)
  {
    MoveExtendsTables(r, m);
    // Nothing here depends on what these say.
    hide TotalOf, InsertAll, AccountsOf;
  }

  lemma QueryIsOk(r: Race, reader: int)
    requires StatesOk(r) && CanMove(r, Query(reader))
    ensures ReaderOk(Moved(r, Query(reader)), Moved(r, Query(reader)).readers[reader])
  {
  }

  lemma MoveKeepsReader(r: Race, m: Move, reader: int)
    requires RaceOk(r) && CanMove(r, m) && reader in Moved(r, m).readers
    ensures ReaderOk(Moved(r, m), Moved(r, m).readers[reader])
  {
    if reader in r.readers {
      var mine := r.readers[reader];
      assert ReaderOk(r, mine);
      ReadStaysOk(r, m, mine.summary, mine.version, mine.queriedAt);
      // Nothing here depends on what these say.
      hide ReadOk, StatesOk, InsertAll, AccountsOf;
    } else {
      QueryIsOk(r, reader);
    }
  }

  lemma MoveKeepsCell(r: Race, m: Move)
    requires RaceOk(r) && CanMove(r, m) && Moved(r, m).cell.Some?
    ensures EnteredOk(Moved(r, m), Moved(r, m).cell.value)
  {
    var e := Moved(r, m).cell.value;
    if m.Set? && m.reached {
      assert ReaderOk(r, r.readers[m.reader]);
    }
    ReadStaysOk(r, m, e.summary, e.version, e.queriedAt);
    // Nothing here depends on what these say.
    hide TotalOf, InsertAll, AccountsOf;
  }

  lemma MoveKeepsRaceOk(r: Race, m: Move)
    requires RaceOk(r) && CanMove(r, m)
    ensures RaceOk(Moved(r, m))
  {
    MoveKeepsStates(r, m);
    forall reader | reader in Moved(r, m).readers
      ensures ReaderOk(Moved(r, m), Moved(r, m).readers[reader])
    {
      MoveKeepsReader(r, m, reader);
    }
    if Moved(r, m).cell.Some? {
      MoveKeepsCell(r, m);
    }
  }

  lemma {:induction false} PlayKeepsRaceOk(r: Race, moves: seq<Move>, final: Race)
    requires RaceOk(r) && Play(r, moves, final)
    ensures RaceOk(final)
    decreases |moves|
  {
    if moves != [] {
      MoveKeepsRaceOk(r, moves[0]);
      PlayKeepsRaceOk(Moved(r, moves[0]), moves[1..], final);
    }
  }

  lemma PossibleIsOk(r: Race)
    requires Possible(r)
    ensures RaceOk(r)
  {
    var account, table, time, moves :| Play(Start(account, table, time), moves, r);
    PlayKeepsRaceOk(Start(account, table, time), moves, r);
  }

  // ---------- What an entry means ----------

  // Why an entry may differ from the fresh aggregate: a commit after the state it was
  // queried from owes an invalidation that is pending, was lost, or ran while the reader
  // sat between its query and its set.
  predicate Explained(r: Race, e: Entered, v: nat)
    requires v < |r.fates|
  {
    && e.version < v
    && (r.fates[v].Pending? || r.fates[v].Lost? || (r.fates[v].Deleted? && e.queriedAt < r.fates[v].at < e.setAt))
  }

  lemma {:induction false} UnowedKeepsTotal(r: Race, v: nat, w: nat)
    requires StatesOk(r) && v <= w < |r.tables|
    requires forall u :: v < u <= w ==> r.fates[u].NotOwed?
    ensures TotalOf(r, w) == TotalOf(r, v)
  {
    if v < w {
      UnowedKeepsTotal(r, v, w - 1);
    }
  }

  // Over every interleaving, a stored entry is the aggregate of a past state of the
  // table, which the present one extends, and it differs from the present aggregate only
  // for one of the three reasons.
  lemma EntriesArePastAggregates(r: Race)
    requires Possible(r) && r.cell.Some?
    ensures WellFormed(r) && r.cell.value.version < |r.tables|
    ensures r.tables[r.cell.value.version] <= Table(r)
    ensures r.cell.value.summary == Aggregate(r.tables[r.cell.value.version], r.account)
    ensures r.cell.value.summary != Fresh(r) ==> exists v :: 0 <= v < |r.fates| && Explained(r, r.cell.value, v)
  {
    PossibleIsOk(r);
    var e := r.cell.value;
    if forall v :: 0 <= v < |r.fates| ==> !Explained(r, e, v) {
      forall u | e.version < u <= |r.tables| - 1
        ensures r.fates[u].NotOwed?
      {
        assert !Explained(r, e, u);
      }
      UnowedKeepsTotal(r, e.version, |r.tables| - 1);
    }
  }

  // While an entry is live its data is younger than the TTL plus the time its reader
  // took from query to set.
  lemma LiveEntriesAreYoung(r: Race)
    requires Possible(r) && r.cell.Some? && r.time < r.cell.value.setTime + TTL
    ensures 0 <= r.time - r.cell.value.queryTime < 60 + (r.cell.value.setTime - r.cell.value.queryTime)
    ensures r.cell.value.setTime >= r.cell.value.queryTime
  {
    PossibleIsOk(r);
  }

  lemma MoveThenPlay(r: Race, m: Move, rest: seq<Move>, final: Race)
    requires CanMove(r, m) && Play(Moved(r, m), rest, final)
    ensures Play(r, [m] + rest, final)
  {
    assert ([m] + rest)[1..] == rest;
  }

  // The third reason is real: for every batch that changes the account, a reader that
  // sets after the invalidation leaves a stale entry although nothing is pending and
  // nothing was lost.
  lemma SlowReaderLeavesStaleEntry(account: string, table: seq<Entry>, txns: seq<Txn>, job: JobId, time: int) returns (r: Race)
    requires Aggregate(InsertAll(table, txns, job), account) != Aggregate(table, account)
    ensures Possible(r) && r.account == account && r.cell.Some? && r.cell.value.summary == Aggregate(table, account)
    ensures WellFormed(r) && Table(r) == InsertAll(table, txns, job)
    ensures forall v :: 0 <= v < |r.fates| ==> !r.fates[v].Pending? && !r.fates[v].Lost?
  {
    BatchInvalidatesWhatItChanges(table, txns, job, account);
    var r0 := Start(account, table, time);
    var m1, m2, m3, m4 := Query(1), Commit(txns, job), Delete(1, true), Set(1, true);
    var r1 := Moved(r0, m1);
    var r2 := Moved(r1, m2);
    var r3 := Moved(r2, m3);
    r := Moved(r3, m4);
    assert Play(r, [], r);
    MoveThenPlay(r3, m4, [], r);
    MoveThenPlay(r2, m3, [m4], r);
    MoveThenPlay(r1, m2, [m3, m4], r);
    MoveThenPlay(r0, m1, [m2, m3, m4], r);
    assert Play(Start(account, table, time), [m1] + [m2, m3, m4], r);
  }

  // ---------- The import protocol only commits ----------

  // Whatever a run of the protocol does to the table, commits of the race do.
  lemma {:induction false} RunsCommit(t: Protocol.Tier, c: Protocol.World, s: Protocol.State, actions: seq<Protocol.Action>,
                                      final: Protocol.State, r: Race)
    returns (moves: seq<Move>, r': Race)
    requires Protocol.Run(t, c, s, actions, final) && WellFormed(r) && Table(r) == s.db.table
    ensures Play(r, moves, r') && WellFormed(r') && Table(r') == final.db.table
    ensures forall k :: 0 <= k < |moves| ==> moves[k].Commit?
    decreases |actions|
  {
    if actions == [] {
      moves, r' := [], r;
    } else {
      var a := actions[0];
      var next := Protocol.Next(c, s, a);
      if a.Commit? {
        var m := Commit(Protocol.NextBatch(c, s, a.worker).valid, s.workers[a.worker].job);
        var rest: seq<Move>;
        rest, r' := RunsCommit(t, c, next, actions[1..], final, Moved(r, m));
        MoveThenPlay(r, m, rest, r');
        moves := [m] + rest;
      } else {
        moves, r' := RunsCommit(t, c, next, actions[1..], final, r);
      }
    }
  }
}
