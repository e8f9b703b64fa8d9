/**
 The transactions table and the two ways of importing rows into it: the simple
 row-at-a-time import that says what an import means, and the batched form the
 worker uses, with its in-memory duplicate filter.
 */
module Ledger {
  import opened Common
  import opened Validation

  // ---------- The table ----------

  // A stored transaction and the job that inserted it. Entries are kept in
  // insertion order.
  datatype Entry = Entry(txn: Txn, job: JobId)

  predicate Has(table: seq<Entry>, id: string) {
    exists k :: 0 <= k < |table| && table[k].txn.id == id
  }

  // The unique constraint on transaction_id.
  predicate UniqueIds(table: seq<Entry>) {
    forall p, q :: 0 <= p < q < |table| ==> table[p].txn.id != table[q].txn.id
  }

  // INSERT ... ON CONFLICT (transaction_id) DO NOTHING for one row.
  function Insert(table: seq<Entry>, e: Entry): (after: seq<Entry>)
    ensures table <= after && Has(after, e.txn.id)
    ensures forall id :: Has(after, id) <==> Has(table, id) || id == e.txn.id
    ensures UniqueIds(table) ==> UniqueIds(after)
  {
    if Has(table, e.txn.id) then table
    else
      var after := table + [e];
      assert after[|table|] == e;
      assert forall k :: 0 <= k < |table| ==> after[k] == table[k];
      after
  }

  // The same statement for a list of rows: later rows see the earlier ones.
  function InsertAll(table: seq<Entry>, txns: seq<Txn>, job: JobId): (after: seq<Entry>)
    ensures table <= after && |after| <= |table| + |txns|
    ensures UniqueIds(table) ==> UniqueIds(after)
  {
    if txns == [] then table
    else Insert(InsertAll(table, txns[..|txns| - 1], job), Entry(txns[|txns| - 1], job))
  }

  // ---------- Row-at-a-time import ----------

  function ImportRow(table: seq<Entry>, job: JobId, row: RowOutcome): seq<Entry> {
    if row.Valid? then Insert(table, Entry(row.txn, job)) else table
  }

  // Import rows lo..hi (counting from zero, hi excluded).
  function Import(table: seq<Entry>, job: JobId, rows: seq<RowOutcome>, lo: nat, hi: nat): (after: seq<Entry>)
    requires hi <= |rows|
    ensures table <= after
    ensures UniqueIds(table) ==> UniqueIds(after)
    ensures |after| - |table| <= if lo <= hi then hi - lo else 0
    decreases hi
  {
    if hi <= lo then table
    else ImportRow(Import(table, job, rows, lo, hi - 1), job, rows[hi - 1])
  }

  // Row i is valid and an earlier row, not before `from`, is valid with its id.
  predicate Repeats(rows: seq<RowOutcome>, from: nat, i: nat)
    requires i < |rows|
  {
    rows[i].Valid? && exists p :: from <= p < i && rows[p].Valid? && rows[p].txn.id == rows[i].txn.id
  }

  predicate FirstOccurrence(rows: seq<RowOutcome>, i: nat)
    requires i < |rows|
  {
    rows[i].Valid? && !Repeats(rows, 0, i)
  }

  // Every valid row before k has its transaction in the table.
  predicate Covered(table: seq<Entry>, rows: seq<RowOutcome>, k: nat)
    requires k <= |rows|
  {
    forall i :: 0 <= i < k && rows[i].Valid? ==> Has(table, rows[i].txn.id)
  }

  lemma HasGrows(table: seq<Entry>, after: seq<Entry>, id: string)
    requires table <= after && Has(table, id)
    ensures Has(after, id)
  {
    var k :| 0 <= k < |table| && table[k].txn.id == id;
    assert after[k] == table[k];
  }

  lemma CoveredGrows(table: seq<Entry>, after: seq<Entry>, rows: seq<RowOutcome>, k: nat)
    requires k <= |rows| && table <= after && Covered(table, rows, k)
    ensures Covered(after, rows, k)
  {
    forall i | 0 <= i < k && rows[i].Valid?
      ensures Has(after, rows[i].txn.id)
    {
      HasGrows(table, after, rows[i].txn.id);
    }
  }

  lemma {:induction false} ImportCovers(table: seq<Entry>, job: JobId, rows: seq<RowOutcome>, lo: nat, hi: nat)
    requires lo <= hi <= |rows| && Covered(table, rows, lo)
    ensures Covered(Import(table, job, rows, lo, hi), rows, hi)
  {
    if lo == hi {
    } else {
      ImportCovers(table, job, rows, lo, hi - 1);
      CoveredGrows(Import(table, job, rows, lo, hi - 1), Import(table, job, rows, lo, hi), rows, hi - 1);
    }
  }

  lemma {:induction false} ImportOfCoveredRowsIsNoOp(table: seq<Entry>, job: JobId, rows: seq<RowOutcome>, lo: nat, hi: nat)
    requires hi <= |rows| && Covered(table, rows, hi)
    ensures Import(table, job, rows, lo, hi) == table
  {
    if lo < hi {
      ImportOfCoveredRowsIsNoOp(table, job, rows, lo, hi - 1);
    }
  }

  lemma {:induction false} ImportSplits(table: seq<Entry>, job: JobId, rows: seq<RowOutcome>, lo: nat, mid: nat, hi: nat)
    requires lo <= mid <= hi <= |rows|
    ensures Import(table, job, rows, lo, hi) == Import(Import(table, job, rows, lo, mid), job, rows, mid, hi)
  {
    if mid < hi {
      ImportSplits(table, job, rows, lo, mid, hi - 1);
    }
  }

  // Importing any stretch of rows into the result of importing the first `done`
  // rows extends that result, or leaves it alone when it reaches no further.
  lemma OverlappingImportResumes(table: seq<Entry>, job: JobId, rows: seq<RowOutcome>, done: nat, lo: nat, hi: nat)
    requires lo <= done <= |rows| && lo <= hi <= |rows|
    ensures Import(Import(table, job, rows, 0, done), job, rows, lo, hi)
            == Import(table, job, rows, 0, if done < hi then hi else done)
  {
    var partial := Import(table, job, rows, 0, done);
    ImportCovers(table, job, rows, 0, done);
    if hi <= done {
      ImportOfCoveredRowsIsNoOp(partial, job, rows, lo, hi);
    } else {
      ImportSplits(partial, job, rows, lo, done, hi);
      ImportOfCoveredRowsIsNoOp(partial, job, rows, lo, done);
      ImportSplits(table, job, rows, 0, done, hi);
    }
  }

  // Entry e is what the import of `rows` for `job` is allowed to put in the table.
  predicate Genuine(e: Entry, job: JobId, rows: seq<RowOutcome>) {
    && e.job == job
    && exists i :: 0 <= i < |rows| && FirstOccurrence(rows, i) && rows[i].txn == e.txn
  }

  predicate GenuineFrom(table: seq<Entry>, from: nat, job: JobId, rows: seq<RowOutcome>) {
    forall k :: from <= k < |table| ==> Genuine(table[k], job, rows)
  }

  lemma {:induction false} NewEntriesAreGenuine(table: seq<Entry>, job: JobId, rows: seq<RowOutcome>, lo: nat, hi: nat)
    requires lo <= hi <= |rows| && Covered(table, rows, lo)
    ensures GenuineFrom(Import(table, job, rows, lo, hi), |table|, job, rows)
  {
    if lo < hi {
      NewEntriesAreGenuine(table, job, rows, lo, hi - 1);
      ImportCovers(table, job, rows, lo, hi - 1);
      var before := Import(table, job, rows, lo, hi - 1);
      var row := rows[hi - 1];
      if row.Valid? && !Has(before, row.txn.id) {
        assert FirstOccurrence(rows, hi - 1);
        assert Genuine(Entry(row.txn, job), job, rows);
      }
    }
  }

  // ---------- Counting what a job inserted ----------

  predicate ValidBelow(rows: seq<RowOutcome>, k: nat, id: string)
    requires k <= |rows|
  {
    exists i :: 0 <= i < k && rows[i].Valid? && rows[i].txn.id == id
  }

  // How many entries carry the job's tag and an id that is valid before row k.
  function TaggedBelow(table: seq<Entry>, job: JobId, rows: seq<RowOutcome>, k: nat): nat
    requires k <= |rows|
  {
    if table == [] then 0
    else
      var e := table[|table| - 1];
      TaggedBelow(table[..|table| - 1], job, rows, k)
      + if e.job == job && ValidBelow(rows, k, e.txn.id) then 1 else 0
  }

  // How many entries carry the job's tag.
  function Tagged(table: seq<Entry>, job: JobId): nat {
    if table == [] then 0
    else Tagged(table[..|table| - 1], job) + if table[|table| - 1].job == job then 1 else 0
  }

  lemma TaggedBelowOne(table: seq<Entry>, e: Entry, job: JobId, rows: seq<RowOutcome>, k: nat)
    requires k <= |rows|
    ensures TaggedBelow(table + [e], job, rows, k)
            == TaggedBelow(table, job, rows, k) + if e.job == job && ValidBelow(rows, k, e.txn.id) then 1 else 0
  {
    assert (table + [e])[..|table|] == table;
  }

  lemma TaggedOne(table: seq<Entry>, e: Entry, job: JobId)
    ensures Tagged(table + [e], job) == Tagged(table, job) + if e.job == job then 1 else 0
  {
    assert (table + [e])[..|table|] == table;
  }

  lemma {:induction false} TaggedBelowGrows(table: seq<Entry>, job: JobId, rows: seq<RowOutcome>, k: nat, m: nat)
    requires k <= m <= |rows|
    ensures TaggedBelow(table, job, rows, k) <= TaggedBelow(table, job, rows, m) <= Tagged(table, job)
  {
    if table != [] {
      TaggedBelowGrows(table[..|table| - 1], job, rows, k, m);
    }
  }

  lemma {:induction false} TaggedExtends(table: seq<Entry>, after: seq<Entry>, job: JobId, rows: seq<RowOutcome>, k: nat)
    requires table <= after && k <= |rows|
    ensures TaggedBelow(table, job, rows, k) <= TaggedBelow(after, job, rows, k)
    ensures Tagged(table, job) <= Tagged(after, job)
  {
    if table != after {
      TaggedExtends(table, after[..|after| - 1], job, rows, k);
    }
  }

  // Importing a stretch tags exactly as many entries as the table gained.
  lemma {:induction false} ImportTagsItsGains(table: seq<Entry>, job: JobId, rows: seq<RowOutcome>, lo: nat, hi: nat, k: nat)
    requires lo <= hi <= k <= |rows|
    ensures var after := Import(table, job, rows, lo, hi);
            && TaggedBelow(after, job, rows, k) == TaggedBelow(table, job, rows, k) + |after| - |table|
            && Tagged(after, job) == Tagged(table, job) + |after| - |table|
  {
    if lo < hi {
      ImportTagsItsGains(table, job, rows, lo, hi - 1, k);
      var before := Import(table, job, rows, lo, hi - 1);
      var row := rows[hi - 1];
      if row.Valid? && !Has(before, row.txn.id) {
        TaggedBelowOne(before, Entry(row.txn, job), job, rows, k);
        TaggedOne(before, Entry(row.txn, job), job);
        assert ValidBelow(rows, k, row.txn.id);
      }
    }
  }

  lemma {:induction false} ImportTagsNoOther(table: seq<Entry>, job: JobId, rows: seq<RowOutcome>, lo: nat, hi: nat, other: JobId)
    requires lo <= hi <= |rows| && other != job
    ensures Tagged(Import(table, job, rows, lo, hi), other) == Tagged(table, other)
  {
    if lo < hi {
      ImportTagsNoOther(table, job, rows, lo, hi - 1, other);
      var before := Import(table, job, rows, lo, hi - 1);
      var row := rows[hi - 1];
      if row.Valid? {
        TaggedOne(before, Entry(row.txn, job), other);
      }
    }
  }

  // ---------- The batch the worker builds ----------

  // One recorded row error; row numbers count from one.
  datatype RowError = RowError(rowNumber: nat, id: Option<string>, error: string)

  datatype Batch = Batch(valid: seq<Txn>, errors: seq<RowError>, seen: set<string>)

  const DUPLICATE := "duplicate transaction_id within this file"

  function ScanRow(batch: Batch, row: RowOutcome, rowNumber: nat): Batch
    requires !row.Raises?
  {
    match row
    case Invalid(id, error) => batch.(errors := batch.errors + [RowError(rowNumber, id, error)])
    case Valid(txn) =>
      if txn.id in batch.seen then
        batch.(errors := batch.errors + [RowError(rowNumber, Some(txn.id), DUPLICATE)])
      else
        batch.(valid := batch.valid + [txn], seen := batch.seen + {txn.id})
  }

  predicate NoneRaises(rows: seq<RowOutcome>, lo: nat, hi: nat)
    requires hi <= |rows|
  {
    forall i :: lo <= i < hi ==> !rows[i].Raises?
  }

  function Scan(rows: seq<RowOutcome>, lo: nat, hi: nat, seen: set<string>): Batch
    requires lo <= hi <= |rows| && NoneRaises(rows, lo, hi)
    decreases hi
  {
    if lo == hi then Batch([], [], seen)
    else ScanRow(Scan(rows, lo, hi - 1, seen), rows[hi - 1], hi)
  }

  // The ids of the valid rows lo..hi.
  function ValidIds(rows: seq<RowOutcome>, lo: nat, hi: nat): set<string>
    requires hi <= |rows|
    decreases hi
  {
    if hi <= lo then {}
    else ValidIds(rows, lo, hi - 1) + if rows[hi - 1].Valid? then {rows[hi - 1].txn.id} else {}
  }

  lemma {:induction false} ValidIdsMembers(rows: seq<RowOutcome>, lo: nat, hi: nat, id: string)
    requires hi <= |rows|
    ensures id in ValidIds(rows, lo, hi) <==> exists p :: lo <= p < hi && rows[p].Valid? && rows[p].txn.id == id
  {
    if lo < hi {
      ValidIdsMembers(rows, lo, hi - 1, id);
    }
  }

  // The error row i of a file gets in an attempt that started at checkpoint `start`.
  function ErrorsAt(rows: seq<RowOutcome>, start: nat, i: nat): seq<RowError>
    requires i < |rows|
  {
    if rows[i].Invalid? then [RowError(i + 1, rows[i].id, rows[i].error)]
    else if Repeats(rows, start, i) then [RowError(i + 1, Some(rows[i].txn.id), DUPLICATE)]
    else []
  }

  function ErrorsIn(rows: seq<RowOutcome>, start: nat, lo: nat, hi: nat): seq<RowError>
    requires hi <= |rows|
    decreases hi
  {
    if hi <= lo then [] else ErrorsIn(rows, start, lo, hi - 1) + ErrorsAt(rows, start, hi - 1)
  }

  // An invalid row has its error in any stretch that contains it.
  lemma {:induction false} ErrorsInHold(rows: seq<RowOutcome>, start: nat, lo: nat, hi: nat, i: nat)
    requires lo <= i < hi <= |rows| && rows[i].Invalid?
    ensures RowError(i + 1, rows[i].id, rows[i].error) in ErrorsIn(rows, start, lo, hi)
  {
    if i < hi - 1 {
      ErrorsInHold(rows, start, lo, hi - 1, i);
    } else {
      assert ErrorsAt(rows, start, hi - 1) == [RowError(i + 1, rows[i].id, rows[i].error)];
    }
  }

  // Every row of the stretch goes to exactly one of the two lists, and the filter
  // ends up holding the ids of the valid rows since the attempt started.
  lemma {:induction false} ScanPartitions(rows: seq<RowOutcome>, start: nat, lo: nat, hi: nat)
    requires start <= lo <= hi <= |rows| && NoneRaises(rows, lo, hi)
    ensures var b := Scan(rows, lo, hi, ValidIds(rows, start, lo));
            && |b.valid| + |b.errors| == hi - lo
            && b.seen == ValidIds(rows, start, hi)
            && b.errors == ErrorsIn(rows, start, lo, hi)
  {
    if lo < hi {
      ScanPartitions(rows, start, lo, hi - 1);
      if rows[hi - 1].Valid? {
        ValidIdsMembers(rows, start, hi - 1, rows[hi - 1].txn.id);
      }
    }
  }

  // One row of that argument.
  lemma ScanRowRefinesImportRow(table: seq<Entry>, job: JobId, batch: Batch, row: RowOutcome, rowNumber: nat)
    requires !row.Raises?
    requires forall id :: id in batch.seen ==> Has(InsertAll(table, batch.valid, job), id)
    ensures var b := ScanRow(batch, row, rowNumber);
            && InsertAll(table, b.valid, job) == ImportRow(InsertAll(table, batch.valid, job), job, row)
            && forall id :: id in b.seen ==> Has(InsertAll(table, b.valid, job), id)
  {
    if row.Valid? && row.txn.id !in batch.seen {
      assert (batch.valid + [row.txn])[..|batch.valid|] == batch.valid;
    }
  }

  // The fast form refines the simple one: inserting the filtered list with ON
  // CONFLICT DO NOTHING gives the table that importing row by row gives, as long as
  // every id already in the filter is in the table.
  lemma {:induction false} ScanRefinesImport(table: seq<Entry>, job: JobId, rows: seq<RowOutcome>, lo: nat, hi: nat, seen: set<string>)
    requires lo <= hi <= |rows| && NoneRaises(rows, lo, hi)
    requires forall id :: id in seen ==> Has(table, id)
    ensures InsertAll(table, Scan(rows, lo, hi, seen).valid, job) == Import(table, job, rows, lo, hi)
    ensures forall id :: id in Scan(rows, lo, hi, seen).seen ==> Has(Import(table, job, rows, lo, hi), id)
  {
    if lo < hi {
      ScanRefinesImport(table, job, rows, lo, hi - 1, seen);
      ScanRowRefinesImportRow(table, job, Scan(rows, lo, hi - 1, seen), rows[hi - 1], hi);
    }
  }

  // ---------- One job's share of a shared table ----------

  // The entries whose id is in `ids`, in order.
  function Restrict(table: seq<Entry>, ids: set<string>): seq<Entry> {
    if table == [] then []
    else
      var e := table[|table| - 1];
      Restrict(table[..|table| - 1], ids) + if e.txn.id in ids then [e] else []
  }

  lemma RestrictOne(table: seq<Entry>, e: Entry, ids: set<string>)
    ensures Restrict(table + [e], ids) == Restrict(table, ids) + if e.txn.id in ids then [e] else []
  {
    assert (table + [e])[..|table|] == table;
  }

  lemma {:induction false} RestrictKeepsMembers(table: seq<Entry>, ids: set<string>, id: string)
    requires id in ids
    ensures Has(Restrict(table, ids), id) <==> Has(table, id)
  {
    if table != [] {
      var front := table[..|table| - 1];
      var e := table[|table| - 1];
      assert table == front + [e];
      RestrictKeepsMembers(front, ids, id);
      var kept := Restrict(front, ids);
      assert e.txn.id == id ==> Restrict(table, ids)[|kept|] == e;
      assert forall k :: 0 <= k < |kept| ==> Restrict(table, ids)[k] == kept[k];
      assert forall k :: 0 <= k < |front| ==> table[k] == front[k];
      if Has(front, id) { HasGrows(front, table, id); HasGrows(kept, Restrict(table, ids), id); }
    }
  }

  lemma RestrictImportRow(table: seq<Entry>, job: JobId, row: RowOutcome, ids: set<string>)
    requires row.Valid? ==> row.txn.id in ids
    ensures Restrict(ImportRow(table, job, row), ids) == ImportRow(Restrict(table, ids), job, row)
    ensures |ImportRow(table, job, row)| - |table| == |ImportRow(Restrict(table, ids), job, row)| - |Restrict(table, ids)|
  {
    if row.Valid? {
      RestrictKeepsMembers(table, ids, row.txn.id);
      RestrictOne(table, Entry(row.txn, job), ids);
    }
  }

  // A job's import acts on its own share of the table as if it were alone.
  lemma {:induction false} RestrictImport(table: seq<Entry>, job: JobId, rows: seq<RowOutcome>, lo: nat, hi: nat, ids: set<string>)
    requires lo <= hi <= |rows|
    requires forall i :: 0 <= i < |rows| && rows[i].Valid? ==> rows[i].txn.id in ids
    ensures Restrict(Import(table, job, rows, lo, hi), ids) == Import(Restrict(table, ids), job, rows, lo, hi)
    ensures |Import(table, job, rows, lo, hi)| - |table| == |Import(Restrict(table, ids), job, rows, lo, hi)| - |Restrict(table, ids)|
  {
    if lo < hi {
      RestrictImport(table, job, rows, lo, hi - 1, ids);
      RestrictImportRow(Import(table, job, rows, lo, hi - 1), job, rows[hi - 1], ids);
    }
  }

  // A job with none of these ids leaves that share alone.
  lemma {:induction false} RestrictForeignImport(table: seq<Entry>, job: JobId, rows: seq<RowOutcome>, lo: nat, hi: nat, ids: set<string>)
    requires lo <= hi <= |rows|
    requires forall i :: 0 <= i < |rows| && rows[i].Valid? ==> rows[i].txn.id !in ids
    ensures Restrict(Import(table, job, rows, lo, hi), ids) == Restrict(table, ids)
  {
    if lo < hi {
      RestrictForeignImport(table, job, rows, lo, hi - 1, ids);
      var before := Import(table, job, rows, lo, hi - 1);
      var row := rows[hi - 1];
      if row.Valid? {
        RestrictOne(before, Entry(row.txn, job), ids);
      }
    }
  }
}
