/**
 The users of the summary cache as programs: a summary read and a batch commit with its
 invalidations. Between any two of their steps everyone else may commit, invalidate,
 query, set and let time pass; each program is proved to perform, together with them, a
 play of the cache race of whatever account one looks at.
 */
module CacheUsers {
  import opened Validation
  import opened Ledger
  import opened Accounts
  import opened SummaryCache
  import Protocol
  import ImportWorker

  // ---------- The others ----------

  // A reader, by its number in the race, or whoever made a commit.
  datatype Party = TheReader(reader: int) | TheCommitter(version: nat)

  predicate By(m: Move, me: Party) {
    match m
    case Commit(_, _) => false
    case Delete(v, _) => me == TheCommitter(v)
    case Query(reader) => me == TheReader(reader)
    case Set(reader, _) => me == TheReader(reader)
    case Wait(_) => false
  }

  // The race of one account in this database and this cache.
  ghost predicate Mirrors(r: Race, db: ImportWorker.Database, cache: Cache)
    reads db, cache
  {
    && WellFormed(r) && Table(r) == db.table && r.time == cache.clock
    && (r.account in cache.cells <==> r.cell.Some?)
    && (r.cell.Some? ==> cache.cells[r.account] == SummaryCache.Cell(r.cell.value.summary, r.cell.value.setTime + TTL))
  }

  // Whatever anyone else does meanwhile. Callers know the contract alone, so what is
  // proved of them holds for every such interference; doing nothing is the least of it.
  method Others(db: ImportWorker.Database, cache: Cache, ghost r: Race, ghost me: Party)
    returns (ghost moves: seq<Move>, ghost r': Race)
    requires Mirrors(r, db, cache)
    modifies db, cache
    ensures Play(r, moves, r') && Mirrors(r', db, cache)
    ensures forall k :: 0 <= k < |moves| ==> !By(moves[k], me)
  {
    moves, r' := [], r;
  }

  // Nobody else takes a reader's summary or makes a committer's deletes, and tables are
  // only added.
  predicate LeftAlone(r: Race, r': Race, me: Party) {
    && r.account == r'.account && r.time <= r'.time
    && WellFormed(r) && WellFormed(r') && |r.tables| <= |r'.tables| && r.tables == r'.tables[..|r.tables|]
    && match me
       case TheReader(reader) =>
         && (reader in r.readers <==> reader in r'.readers)
         && (reader in r.readers ==> r'.readers[reader] == r.readers[reader])
       case TheCommitter(v) => v < |r.fates| ==> r'.fates[v] == r.fates[v]
  }

  lemma {:induction false} OthersLeaveAlone(r: Race, moves: seq<Move>, r': Race, me: Party)
    requires WellFormed(r) && Play(r, moves, r') && forall k :: 0 <= k < |moves| ==> !By(moves[k], me)
    ensures LeftAlone(r, r', me)
    decreases |moves|
  {
    if moves != [] {
      forall k | 0 <= k < |moves[1..]|
        ensures !By(moves[1..][k], me)
      {
        assert moves[1..][k] == moves[k + 1];
      }
      assert !By(moves[0], me);
      OthersLeaveAlone(Moved(r, moves[0]), moves[1..], r', me);
    }
  }

  // ---------- Following a program in the race ----------

  lemma {:induction false} PlayThenPlay(r: Race, first: seq<Move>, mid: Race, rest: seq<Move>, final: Race)
    requires Play(r, first, mid) && Play(mid, rest, final)
    ensures Play(r, first + rest, final)
    decreases |first|
  {
    if first == [] {
      assert first + rest == rest;
    } else {
      PlayThenPlay(Moved(r, first[0]), first[1..], mid, rest, final);
      assert (first + rest)[1..] == first[1..] + rest;
    }
  }

  // The moves so far, and where they led.
  datatype Track = Track(moves: seq<Move>, r: Race)

  ghost predicate Follows(r0: Race, t: Track, db: ImportWorker.Database, cache: Cache)
    reads db, cache
  {
    Play(r0, t.moves, t.r) && Mirrors(t.r, db, cache)
  }

  ghost method Then(r0: Race, t: Track, m: Move) returns (t': Track)
    requires Play(r0, t.moves, t.r) && CanMove(t.r, m)
    ensures t' == Track(t.moves + [m], Moved(t.r, m)) && Play(r0, t'.moves, t'.r)
  {
    assert Play(Moved(t.r, m), [], Moved(t.r, m));
    MoveThenPlay(t.r, m, [], Moved(t.r, m));
    PlayThenPlay(r0, t.moves, t.r, [m] + [], Moved(t.r, m));
    t' := Track(t.moves + [m], Moved(t.r, m));
    assert [m] + [] == [m];
  }

  method Yield(db: ImportWorker.Database, cache: Cache, ghost r0: Race, ghost t: Track, ghost me: Party)
    returns (ghost t': Track)
    requires Follows(r0, t, db, cache)
    modifies db, cache
    ensures Follows(r0, t', db, cache) && LeftAlone(t.r, t'.r, me)
    ensures |t.moves| <= |t'.moves| && t'.moves[..|t.moves|] == t.moves
  {
    ghost var moves, r';
    moves, r' := Others(db, cache, t.r, me);
    OthersLeaveAlone(t.r, moves, r', me);
    PlayThenPlay(r0, t.moves, t.r, moves, r');
    t' := Track(t.moves + moves, r');
  }

  // ---------- A summary read ----------

  predicate Live(r: Race) {
    r.cell.Some? && r.time < r.cell.value.setTime + TTL
  }

  // The answer is the live entry, or, where the cache has none to give, the aggregate.
  ghost predicate AnswerIn(r: Race, summary: Summary, hit: bool) {
    && WellFormed(r)
    && if hit then Live(r) && summary == r.cell.value.summary
       else summary == Fresh(r)
  }

  lemma PossibleLater(r0: Race, moves: seq<Move>, r: Race)
    requires Play(r0, moves, r)
    ensures Possible(r0) ==> Possible(r)
  {
    if Possible(r0) {
      var account, table, time, first :| Play(Start(account, table, time), first, r0);
      PlayThenPlay(Start(account, table, time), first, r0, moves, r);
    }
  }

  ghost predicate ReportsState(r: Race, v: nat, summary: Summary)
    requires v < |r.tables|
  {
    ExactAmounts(r.tables[v]) && Reports(r.tables[v], r.account, summary)
  }

  // What an answer is: the aggregate of a past state of the table, which the present one
  // extends; and when it is not the present aggregate, it was cached, a commit since owes
  // an invalidation that is pending, was lost, or ran inside its reader's gap, and its
  // data is younger than the TTL and that gap.
  lemma AnswersArePastAggregates(r: Race, summary: Summary, hit: bool)
    requires Possible(r) && AnswerIn(r, summary, hit)
    ensures exists v :: 0 <= v < |r.tables| && r.tables[v] <= Table(r) && summary == TotalOf(r, v)
    // And so both its totals, its balance and its count are exact.
    ensures ExactAmounts(Table(r)) ==> exists v :: 0 <= v < |r.tables| && ReportsState(r, v, summary)
    ensures summary != Fresh(r) ==>
              && hit && (exists v :: 0 <= v < |r.fates| && Explained(r, r.cell.value, v))
              && r.time - r.cell.value.queryTime < TTL + (r.cell.value.setTime - r.cell.value.queryTime)
  {
    // Nothing here depends on what this says.
    hide Aggregate;
    var v := |r.tables| - 1;
    if hit {
      EntriesArePastAggregates(r);
      LiveEntriesAreYoung(r);
      v := r.cell.value.version;
    }
    assert summary == TotalOf(r, v) && r.tables[v] <= Table(r);
    if ExactAmounts(Table(r)) {
      assert forall k :: 0 <= k < |r.tables[v]| ==> r.tables[v][k] == Table(r)[k];
      SummaryIsExact(r.tables[v], r.account);
      assert ReportsState(r, v, summary);
    }
  }

  // A reader that holds a summary tries to cache it.
  method TryToCache(db: ImportWorker.Database, cache: Cache, account: string, summary: Summary, writable: bool,
                    ghost r0: Race, ghost t: Track, ghost reader: int)
    returns (ghost t': Track)
    requires Follows(r0, t, db, cache) && t.r.account == account
    requires reader in t.r.readers && t.r.readers[reader].summary == summary
    modifies db, cache
    ensures Follows(r0, t', db, cache) && reader !in t'.r.readers
    // The last thing it did was to cache the summary, if the cache took it.
    ensures t'.moves != [] && t'.moves[|t'.moves| - 1] == SummaryCache.Set(reader, writable)
    ensures writable ==> account in cache.cells && cache.cells[account] == SummaryCache.Cell(summary, cache.clock + TTL)
  {
    t' := Yield(db, cache, r0, t, TheReader(reader));
    // Nothing here depends on what this says.
    hide Play;
    cache.Set(account, summary, writable);
    t' := Then(r0, t', SummaryCache.Set(reader, writable));
  }

  // The read after a miss: query the aggregate, then try to cache it.
  method QueryAndCache(db: ImportWorker.Database, cache: Cache, account: string, writable: bool,
                       ghost r0: Race, ghost t: Track, ghost reader: int)
    returns (summary: Summary, ghost seen: Race, ghost t': Track)
    requires Follows(r0, t, db, cache) && t.r.account == account && reader !in t.r.readers
    modifies db, cache
    ensures Follows(r0, t', db, cache) && reader !in t'.r.readers
    ensures AnswerIn(seen, summary, false) && LeftAlone(t.r, seen, TheReader(reader))
    ensures Possible(r0) ==> Possible(seen)
    // The last thing it did was to cache the summary, if the cache took it.
    ensures t'.moves != [] && t'.moves[|t'.moves| - 1] == SummaryCache.Set(reader, writable)
    ensures writable ==> account in cache.cells && cache.cells[account] == SummaryCache.Cell(summary, cache.clock + TTL)
  {
    t' := Yield(db, cache, r0, t, TheReader(reader));
    summary := Aggregate(db.table, account);
    seen := t'.r;
    assert summary == Fresh(seen);
    PossibleLater(r0, t'.moves, seen);
    // Nothing here depends on what these say.
    hide Aggregate, Play, Possible;
    t' := Then(r0, t', Query(reader));
    t' := TryToCache(db, cache, account, summary, writable, r0, t', reader);
  }

  // get_account_summary: the cached summary if there is a live one, else the aggregate of
  // the table, which it then tries to cache. `seen` is the state in which the answer was
  // determined.
  method GetAccountSummary(db: ImportWorker.Database, cache: Cache, account: string, readable: bool, writable: bool,
                           ghost r0: Race, ghost reader: int)
    returns (summary: Summary, ghost seen: Race, ghost hit: bool, ghost t: Track)
    requires Mirrors(r0, db, cache) && r0.account == account && reader !in r0.readers
    modifies db, cache
    ensures Follows(r0, t, db, cache) && reader !in t.r.readers
    ensures AnswerIn(seen, summary, hit) && LeftAlone(r0, seen, TheReader(reader))
    ensures Possible(r0) ==> Possible(seen)
    ensures hit <==> readable && Live(r0)
    ensures hit ==> seen == r0 && t.moves == [] && cache.cells == old(cache.cells)
    ensures !hit ==> t.moves != [] && t.moves[|t.moves| - 1] == SummaryCache.Set(reader, writable)
    ensures !hit && writable ==>
              account in cache.cells && cache.cells[account] == SummaryCache.Cell(summary, cache.clock + TTL)
  {
    t := Track([], r0);
    assert Play(r0, [], r0);
    // Nothing here depends on what these say.
    hide Aggregate, Play, Possible;
    var cached := cache.Get(account, readable);
    hit := cached.Some?;
    if cached.Some? {
      return cached.value, t.r, hit, t;
    }
    summary, seen, t := QueryAndCache(db, cache, account, writable, r0, t, reader);
  }

  // ---------- A batch commit and its invalidations ----------

  // The fate of a commit's invalidation of the race's account, once those of `left` alone
  // remain to be made.
  predicate FateIs(r: Race, v: nat, accounts: set<string>, left: set<string>, unreached: set<string>) {
    && v < |r.fates|
    && (r.account !in accounts ==> r.fates[v].NotOwed?)
    && (r.account in left ==> r.fates[v].Pending?)
    && (r.account in accounts - left && r.account in unreached ==> r.fates[v].Lost?)
    && (r.account in accounts - left && r.account !in unreached ==> r.fates[v].Deleted?)
  }

  // One round of the loop over a batch's accounts.
  method InvalidateOne(db: ImportWorker.Database, cache: Cache, account: string, reached: bool,
                       ghost r0: Race, ghost t: Track, ghost v: nat)
    returns (ghost t': Track)
    requires Follows(r0, t, db, cache) && v < |t.r.fates| && (account == t.r.account ==> t.r.fates[v].Pending?)
    modifies db, cache
    ensures Follows(r0, t', db, cache) && WellFormed(t.r) && WellFormed(t'.r) && t'.r.account == t.r.account
    ensures |t.r.tables| <= |t'.r.tables| && t'.r.tables[..|t.r.tables|] == t.r.tables
    ensures account != t.r.account ==> t'.r.fates[v] == t.r.fates[v]
    ensures account == t.r.account ==> if reached then t'.r.fates[v].Deleted? else t'.r.fates[v].Lost?
  {
    t' := Yield(db, cache, r0, t, TheCommitter(v));
    // Nothing here depends on what this says.
    hide Play;
    cache.Invalidate(account, reached);
    if account == t.r.account {
      t' := Then(r0, t', Delete(v, reached));
    }
  }

  // The loop over a batch's accounts; the process lives to make so many deletes.
  method InvalidateAll(db: ImportWorker.Database, cache: Cache, accounts: set<string>, unreached: set<string>, lives: nat,
                       ghost r0: Race, ghost t: Track, ghost v: nat)
    returns (left: set<string>, ghost t': Track)
    requires Follows(r0, t, db, cache) && FateIs(t.r, v, accounts, accounts, unreached)
    modifies db, cache
    ensures Follows(r0, t', db, cache) && FateIs(t'.r, v, accounts, left, unreached)
    ensures |t.r.tables| <= |t'.r.tables| && t'.r.tables[..|t.r.tables|] == t.r.tables
    ensures left <= accounts && (lives >= |accounts| ==> left == {})
  {
    t' := t;
    left := accounts;
    var deletes := 0;
    while left != {} && deletes < lives
      invariant left <= accounts && |left| + deletes == |accounts|
      invariant Follows(r0, t', db, cache) && FateIs(t'.r, v, accounts, left, unreached)
      invariant |t.r.tables| <= |t'.r.tables| && t'.r.tables[..|t.r.tables|] == t.r.tables
      invariant t'.r.account == t.r.account
      decreases left
    {
      var account :| account in left;
      t' := InvalidateOne(db, cache, account, account !in unreached, r0, t', v);
      left, deletes := left - {account}, deletes + 1;
    }
  }

  // _commit_batch among everyone else, as the race of any account sees it: the commit
  // extends the table, and each invalidation it owes has been made or lost when it
  // returns, except those of `left`, which the process did not live to make.
  method CommitBatch(db: ImportWorker.Database, cache: Cache, job: ImportWorker.ImportJob,
                     valid: seq<Txn>, errors: seq<RowError>, upTo: nat, unreached: set<string>, lives: nat, ghost r0: Race)
    returns (committed: bool, left: set<string>, ghost t: Track)
    requires job.id in db.jobs && Mirrors(r0, db, cache)
    modifies db, cache, job
    ensures Follows(r0, t, db, cache)
    ensures committed <==> Protocol.FitsBatch(Batch(valid, errors, {}))
    ensures committed ==>
              var v := |r0.tables|;
              && v < |t.r.tables| && t.r.tables[v] == InsertAll(old(db.table), valid, job.id)
              && FateIs(t.r, v, AccountsOf(valid), left, unreached)
    ensures left <= AccountsOf(valid) && (lives >= |AccountsOf(valid)| ==> left == {})
    ensures !committed ==> t.moves == []
  {
    t, left := Track([], r0), {};
    assert Play(r0, [], r0);
    committed := ImportWorker.CommitTransaction(db, job, valid, errors, upTo);
    if committed {
      t := Then(r0, t, Commit(valid, job.id));
      // Nothing here depends on what these say.
      hide Play, AccountsOf;
      left, t := InvalidateAll(db, cache, AccountsOf(valid), unreached, lives, r0, t, |r0.tables|);
    }
  }
}
