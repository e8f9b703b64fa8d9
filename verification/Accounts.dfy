/**
 Account summaries: the aggregate over the transactions table, its exactness in
 cents, and what imports do to it.
 */
module Accounts {
  import opened Common
  import opened Validation
  import opened Ledger
  import opened Protocol
  import opened Safety
  import opened Guarantees
  import opened Accounting

  datatype Summary = Summary(credits: int, debits: int, count: nat) {
    function Balance(): int {
      credits - debits
    }

    function Plus(other: Summary): Summary {
      Summary(credits + other.credits, debits + other.debits, count + other.count)
    }
  }

  const ZERO := Summary(0, 0, 0)

  // The amount as the NUMERIC(18, 2) column holds it, in cents.
  function AmountCents(txn: Txn): int {
    if txn.amount.Finite? && txn.amount.exponent >= -2 then Cents(txn.amount) else 0
  }

  // What one stored transaction adds to an account's conditional sums and count.
  function Contribution(e: Entry, account: string): Summary {
    if e.txn.account != account then ZERO
    else
      match e.txn.kind
      case Credit => Summary(AmountCents(e.txn), 0, 1)
      case Debit => Summary(0, AmountCents(e.txn), 1)
  }

  // The sum of the first k parts.
  function Total(parts: seq<Summary>, k: nat): Summary
    requires k <= |parts|
  {
    if k == 0 then ZERO else Total(parts, k - 1).Plus(parts[k - 1])
  }

  function Contributions(table: seq<Entry>, account: string): (parts: seq<Summary>)
    ensures |parts| == |table| && forall k :: 0 <= k < |table| ==> parts[k] == Contribution(table[k], account)
  {
    seq(|table|, k requires 0 <= k < |table| => Contribution(table[k], account))
  }

  // The aggregate query: conditional sums and a count over the account's rows.
  function Aggregate(table: seq<Entry>, account: string): Summary {
    Total(Contributions(table, account), |table|)
  }

  lemma {:induction false} TotalOfPrefix(parts: seq<Summary>, more: seq<Summary>, k: nat)
    requires k <= |parts|
    ensures Total(parts + more, k) == Total(parts, k)
  {
    if k > 0 {
      TotalOfPrefix(parts, more, k - 1);
    }
  }

  lemma PlusAssociates(a: Summary, b: Summary, c: Summary)
    ensures a.Plus(b).Plus(c) == a.Plus(b.Plus(c)) && a.Plus(ZERO) == a
  {
  }

  lemma {:induction false} TotalAppends(all: seq<Summary>, parts: seq<Summary>, more: seq<Summary>, k: nat)
    requires all == parts + more && k <= |more|
    ensures Total(all, |parts| + k) == Total(parts, |parts|).Plus(Total(more, k))
  {
    if k == 0 {
      TotalOfPrefix(parts, more, |parts|);
      PlusAssociates(Total(parts, |parts|), ZERO, ZERO);
    } else {
      var n := |parts| + k - 1;
      TotalAppends(all, parts, more, k - 1);
      PlusAssociates(Total(parts, |parts|), Total(more, k - 1), more[k - 1]);
      assert Total(all, n + 1) == Total(all, n).Plus(all[n]);
    }
  }

  lemma ContributionsAppend(table: seq<Entry>, more: seq<Entry>, account: string)
    ensures Contributions(table + more, account) == Contributions(table, account) + Contributions(more, account)
  {
  }

  // Each commit adds exactly what the appended entries contribute.
  lemma AggregateAppends(table: seq<Entry>, more: seq<Entry>, account: string)
    ensures Aggregate(table + more, account) == Aggregate(table, account).Plus(Aggregate(more, account))
  {
    ContributionsAppend(table, more, account);
    TotalAppends(Contributions(table + more, account), Contributions(table, account), Contributions(more, account), |more|);
  }

  lemma AggregateOne(table: seq<Entry>, e: Entry, account: string)
    ensures Aggregate(table + [e], account) == Aggregate(table, account).Plus(Contribution(e, account))
  {
    assert Contributions(table + [e], account) == Contributions(table, account) + [Contribution(e, account)];
    TotalOfPrefix(Contributions(table, account), [Contribution(e, account)], |table|);
  }

  lemma WithoutOne(all: seq<Entry>, left: seq<Entry>, e: Entry, right: seq<Entry>)
    requires all == left + [e] + right
    ensures multiset(left + right) == multiset(all) - multiset{e}
  {
    assert multiset(all) == multiset(left) + multiset{e} + multiset(right);
    assert multiset(left + right) == multiset(left) + multiset(right);
  }

  lemma IndexOf(b: seq<Entry>, e: Entry) returns (k: nat)
    requires multiset(b)[e] > 0
    ensures k < |b| && b[k] == e
  {
    assert e in b;
    k :| 0 <= k < |b| && b[k] == e;
  }

  lemma TakeOut(a: seq<Entry>, b: seq<Entry>) returns (left: seq<Entry>, right: seq<Entry>)
    requires multiset(a) == multiset(b) && a != []
    ensures b == left + [a[|a| - 1]] + right
    ensures multiset(a[..|a| - 1]) == multiset(left + right)
  {
    var front, e := a[..|a| - 1], a[|a| - 1];
    var k := IndexOf(b, e);
    left, right := b[..k], b[k + 1..];
    WithoutOne(b, left, e, right);
    WithoutOne(a, front, e, []);
    assert front + [] == front;
  }

  // The aggregate does not depend on the order of the rows.
  lemma {:induction false} AggregateOfPermutation(a: seq<Entry>, b: seq<Entry>, account: string)
    requires multiset(a) == multiset(b)
    ensures Aggregate(a, account) == Aggregate(b, account)
    decreases |a|
  {
    if a == [] {
      assert |multiset(b)| == 0;
    } else {
      var left, right := TakeOut(a, b);
      var front, e := a[..|a| - 1], a[|a| - 1];
      AggregateOfPermutation(front, left + right, account);
      assert a == front + [e];
      AggregateOne(front, e, account);
      AggregateAppends(left, right, account);
      AggregateOne(left, e, account);
      AggregateAppends(left + [e], right, account);
    }
  }

  lemma LastIsNew(table: seq<Entry>)
    requires UniqueIds(table) && table != []
    ensures table[|table| - 1] !in table[..|table| - 1]
  {
    var front := table[..|table| - 1];
    forall k | 0 <= k < |front|
      ensures front[k] != table[|table| - 1]
    {
      assert table[k].txn.id != table[|table| - 1].txn.id;
    }
  }

  lemma {:induction false} UniqueEntriesCountOnce(table: seq<Entry>, e: Entry)
    requires UniqueIds(table)
    ensures multiset(table)[e] == if e in table then 1 else 0
  {
    if table != [] {
      var front, last := table[..|table| - 1], table[|table| - 1];
      assert table == front + [last];
      UniqueEntriesCountOnce(front, e);
      LastIsNew(table);
    }
  }

  // Two tables under the unique constraint that hold the same transactions give every
  // account the same summary, however the imports that filled them were interleaved.
  lemma SameTransactionsSameSummary(a: seq<Entry>, b: seq<Entry>, account: string)
    requires UniqueIds(a) && UniqueIds(b) && forall e :: e in a <==> e in b
    ensures Aggregate(a, account) == Aggregate(b, account)
  {
    forall e
      ensures multiset(a)[e] == multiset(b)[e]
    {
      UniqueEntriesCountOnce(a, e);
      UniqueEntriesCountOnce(b, e);
    }
    assert multiset(a) == multiset(b);
    AggregateOfPermutation(a, b, account);
  }

  // ---------- Exactness ----------

  ghost predicate ExactAmount(txn: Txn) {
    txn.amount.Finite? && txn.amount.exponent >= -2 && Cents(txn.amount) > 0
  }

  ghost predicate ExactAmounts(table: seq<Entry>) {
    forall k :: 0 <= k < |table| ==> ExactAmount(table[k].txn)
  }

  // The account's credits minus debits, summed as real numbers.
  ghost function RealBalance(table: seq<Entry>, account: string): real
    requires ExactAmounts(table)
  {
    if table == [] then 0.0
    else
      var e := table[|table| - 1];
      RealBalance(table[..|table| - 1], account)
      + if e.txn.account != account then 0.0
        else if e.txn.kind.Credit? then Value(e.txn.amount)
        else -Value(e.txn.amount)
  }

  // The reported balance is the exact real sum: no amount was rounded on the way in and
  // none in the sum.
  lemma {:induction false} BalanceIsExact(table: seq<Entry>, account: string)
    requires ExactAmounts(table)
    ensures RealBalance(table, account) == Aggregate(table, account).Balance() as real / 100.0
  {
    if table != [] {
      var front, e := table[..|table| - 1], table[|table| - 1];
      BalanceIsExact(front, account);
      CentsAreExact(e.txn.amount);
      assert table == front + [e];
      AggregateOne(front, e, account);
    }
  }

  // The account's transactions of one type, summed as real numbers.
  ghost function RealSum(table: seq<Entry>, account: string, kind: TxnType): real
    requires ExactAmounts(table)
  {
    if table == [] then 0.0
    else
      var e := table[|table| - 1];
      RealSum(table[..|table| - 1], account, kind)
      + if e.txn.account == account && e.txn.kind == kind then Value(e.txn.amount) else 0.0
  }

  // The account's rows in the table.
  function RowsOf(table: seq<Entry>, account: string): set<nat> {
    set k | 0 <= k < |table| && table[k].txn.account == account
  }

  lemma {:induction false} TotalsAreExact(table: seq<Entry>, account: string)
    requires ExactAmounts(table)
    ensures RealSum(table, account, Credit) == Aggregate(table, account).credits as real / 100.0
    ensures RealSum(table, account, Debit) == Aggregate(table, account).debits as real / 100.0
  {
    if table != [] {
      var front, e := table[..|table| - 1], table[|table| - 1];
      TotalsAreExact(front, account);
      CentsAreExact(e.txn.amount);
      assert table == front + [e];
      AggregateOne(front, e, account);
      // Nothing here depends on what these say.
      hide Aggregate, Cents, Value;
    }
  }

  lemma OneMoreRow(front: seq<Entry>, e: Entry, account: string)
    ensures |RowsOf(front + [e], account)| == |RowsOf(front, account)| + if e.txn.account == account then 1 else 0
  {
    var rows, more := RowsOf(front, account), RowsOf(front + [e], account);
    assert |front| in more <==> e.txn.account == account;
    assert |front| !in rows && more - {|front|} == rows;
  }

  lemma {:induction false} CountIsExact(table: seq<Entry>, account: string)
    ensures Aggregate(table, account).count == |RowsOf(table, account)|
  {
    if table == [] {
      assert RowsOf(table, account) == {};
    } else {
      var front, e := table[..|table| - 1], table[|table| - 1];
      CountIsExact(front, account);
      assert table == front + [e];
      AggregateOne(front, e, account);
      OneMoreRow(front, e, account);
    }
  }

  // A summary that reports the account as it is: both totals and the balance are exact
  // real sums, and the count is that of its rows.
  ghost predicate Reports(table: seq<Entry>, account: string, summary: Summary)
    requires ExactAmounts(table)
  {
    && summary.credits as real / 100.0 == RealSum(table, account, Credit)
    && summary.debits as real / 100.0 == RealSum(table, account, Debit)
    && summary.Balance() as real / 100.0 == RealBalance(table, account)
    && summary.count == |RowsOf(table, account)|
  }

  lemma SummaryIsExact(table: seq<Entry>, account: string)
    requires ExactAmounts(table)
    ensures Reports(table, account, Aggregate(table, account))
  {
    TotalsAreExact(table, account);
    BalanceIsExact(table, account);
    CountIsExact(table, account);
  }

  // The file is what the validator made of raw rows.
  ghost predicate Validated(py: Python, file: File) {
    exists raw :: file.rows == ClassifyAll(py, raw)
  }

  lemma ValidatedRowsAreExact(py: Python, file: File, i: nat)
    requires Validated(py, file) && i < |file.rows| && file.rows[i].Valid?
    ensures ExactAmount(file.rows[i].txn)
  {
    var raw :| file.rows == ClassifyAll(py, raw);
    AcceptedAmountIsExact(py, raw[i]);
  }

  // In every reachable state of every interleaving, what the query reports of each
  // account is exact.
  lemma ReachableSummariesAreExact(t: Tier, py: Python, c: World, s: State, account: string)
    requires WorldOk(c) && Reachable(t, c, s) && ExactAmounts(c.before)
    requires forall j :: j in c.files ==> Validated(py, c.files[j])
    ensures ExactAmounts(s.db.table)
    ensures Reports(s.db.table, account, Aggregate(s.db.table, account))
  {
    ReachableIsSafe(t, c, s);
    forall k | 0 <= k < |s.db.table|
      ensures ExactAmount(s.db.table[k].txn)
    {
      if k < |c.before| {
        assert s.db.table[k] == c.before[k];
      } else {
        assert EntryOk(c, s, k);
        var file := c.files[s.db.table[k].job];
        var i :| 0 <= i < |file.rows| && FirstOccurrence(file.rows, i) && file.rows[i].txn == s.db.table[k].txn;
        ValidatedRowsAreExact(py, file, i);
      }
    }
    SummaryIsExact(s.db.table, account);
  }

  // ---------- Exactly-once money ----------

  lemma AppendedAreNew(table: seq<Entry>, after: seq<Entry>, k: nat)
    requires table <= after && UniqueIds(after) && |table| <= k < |after|
    ensures !Has(table, after[k].txn.id)
  {
    forall m | 0 <= m < |table|
      ensures table[m].txn.id != after[k].txn.id
    {
      assert table[m] == after[m];
    }
  }

  lemma StepAppends(c: World, s: State, a: Action)
    requires Safe(c, s) && Enabled(c, s, a)
    ensures s.db.table <= Next(c, s, a).db.table && UniqueIds(Next(c, s, a).db.table)
    ensures !a.Commit? ==> Next(c, s, a).db.table == s.db.table
  {
    StepKeepsSafe(c, s, a);
    if a.Commit? {
      BatchKeepsCopyOk(c, s, a.worker);
    }
  }

  // Any step of any interleaving changes an account by exactly the contributions of
  // the transactions it inserted; each is new, and only a batch commit inserts.
  lemma StepsAddOnlyNewTransactions(c: World, s: State, a: Action, account: string) returns (added: seq<Entry>)
    requires Safe(c, s) && Enabled(c, s, a)
    ensures Next(c, s, a).db.table == s.db.table + added
    ensures Aggregate(Next(c, s, a).db.table, account) == Aggregate(s.db.table, account).Plus(Aggregate(added, account))
    ensures added != [] ==> a.Commit?
    ensures forall k :: 0 <= k < |added| ==> !Has(s.db.table, added[k].txn.id)
  {
    StepAppends(c, s, a);
    var table, after := s.db.table, Next(c, s, a).db.table;
    added := after[|table|..];
    AggregateAppends(table, added, account);
    forall k | 0 <= k < |added|
      ensures !Has(table, added[k].txn.id)
    {
      AppendedAreNew(table, after, |table| + k);
    }
  }

  // Importing the same rows again, under any job, moves no money: once one import of
  // them was COMPLETED, no batch of another inserts anything.
  lemma ReimportMovesNoMoney(c: World, s: State, w: int, j: JobId)
    requires Safe(c, s) && Enabled(c, s, Commit(w))
    requires j in s.history && j in s.db.jobs && s.history[j].completed
    requires j in c.files && c.files[s.workers[w].job].rows == c.files[j].rows
    ensures NextCommit(c, s, w).db.table == s.db.table
  {
    assert JobOk(c, s, j) && WorkerOk(c, s, w);
    BatchKeepsCopyOk(c, s, w);
    var lo := s.workers[w].local.checkpoint;
    var hi := BatchEnd(c, Rows(c, s, w), lo);
    ImportOfCoveredRowsIsNoOp(s.db.table, s.workers[w].job, Rows(c, s, w), lo, hi);
  }

  // ---------- Which accounts a batch can change ----------

  function AccountsOf(txns: seq<Txn>): set<string> {
    set k | 0 <= k < |txns| :: txns[k].account
  }

  // A batch insert changes no account outside those of its valid rows.
  lemma {:induction false} OnlyBatchAccountsChange(table: seq<Entry>, txns: seq<Txn>, job: JobId, account: string)
    requires account !in AccountsOf(txns)
    ensures Aggregate(InsertAll(table, txns, job), account) == Aggregate(table, account)
  {
    if txns != [] {
      var front, last := txns[..|txns| - 1], txns[|txns| - 1];
      assert AccountsOf(front) <= AccountsOf(txns) && last.account in AccountsOf(txns);
      // Nothing here depends on what these say.
      hide AccountsOf, Aggregate;
      OnlyBatchAccountsChange(table, front, job, account);
      AggregateOne(InsertAll(table, front, job), Entry(last, job), account);
    }
  }

  // ---------- The same money, however it got there ----------

  lemma {:induction false} RestrictMembers(table: seq<Entry>, ids: set<string>, e: Entry)
    ensures e in Restrict(table, ids) <==> e in table && e.txn.id in ids
  {
    if table != [] {
      RestrictMembers(table[..|table| - 1], ids, e);
      assert table == table[..|table| - 1] + [table[|table| - 1]];
    }
  }

  // How many rows of job j were ever committed.
  function Reach(s: State, j: JobId): nat {
    if j in s.history then s.history[j].reach else 0
  }

  lemma SameReachSameEntries(t1: Tier, c1: World, s1: State, t2: Tier, c2: World, s2: State, e: Entry)
    requires WorldOk(c1) && Reachable(t1, c1, s1) && WorldOk(c2) && Reachable(t2, c2, s2)
    requires c1.files == c2.files && c1.before == c2.before
    requires forall j :: j in c1.files ==> Alone(c1, j) && Reach(s1, j) == Reach(s2, j)
    requires e in s1.db.table
    ensures e in s2.db.table
  {
    ReachableIsSafe(t1, c1, s1);
    ReachableIsSafe(t2, c2, s2);
    var k :| 0 <= k < |s1.db.table| && s1.db.table[k] == e;
    if k < |c1.before| {
      assert s2.db.table[k] == e;
    } else {
      assert EntryOk(c1, s1, k);
      var j := e.job;
      assert Ids(c2, j) == Ids(c1, j);
      ReachableShare(t1, c1, s1, j);
      ReachableShare(t2, c2, s2, j);
      TaggedIdsAreOwn(c1, s1, j);
      ShareIsSequential(c1, s1, j);
      ShareIsSequential(c2, s2, j);
      RestrictMembers(s1.db.table, Ids(c1, j), e);
      RestrictMembers(s2.db.table, Ids(c1, j), e);
    }
  }

  lemma ShareIsSequential(c: World, s: State, j: JobId)
    requires j in c.files && ShareOk(c, s, j)
    ensures Reach(s, j) <= |c.files[j].rows| && Restrict(s.db.table, Ids(c, j)) == Sequential(c, j, Reach(s, j))
  {
  }

  // Two executions of the same jobs, no two of which bring the same ids, that have got
  // equally far with each give every account the same summary: whatever the
  // interleavings, crashes, retries, double claims and batch sizes.
  lemma EquallyFarSameSummaries(t1: Tier, c1: World, s1: State, t2: Tier, c2: World, s2: State, account: string)
    requires WorldOk(c1) && Reachable(t1, c1, s1) && WorldOk(c2) && Reachable(t2, c2, s2)
    requires c1.files == c2.files && c1.before == c2.before
    requires forall j :: j in c1.files ==> Alone(c1, j) && Reach(s1, j) == Reach(s2, j)
    ensures Aggregate(s1.db.table, account) == Aggregate(s2.db.table, account)
  {
    ReachableIsSafe(t1, c1, s1);
    ReachableIsSafe(t2, c2, s2);
    forall j | j in c2.files
      ensures Alone(c2, j)
    {
      assert Ids(c2, j) == Ids(c1, j) && Alone(c1, j);
    }
    forall e
      ensures e in s1.db.table <==> e in s2.db.table
    {
      if e in s1.db.table {
        SameReachSameEntries(t1, c1, s1, t2, c2, s2, e);
      }
      if e in s2.db.table {
        SameReachSameEntries(t2, c2, s2, t1, c1, s1, e);
      }
    }
    SameTransactionsSameSummary(s1.db.table, s2.db.table, account);
  }

  // In particular two that completed the same jobs and created no others.
  lemma CompletedAlikeSameSummaries(t1: Tier, c1: World, s1: State, t2: Tier, c2: World, s2: State, account: string)
    requires WorldOk(c1) && Reachable(t1, c1, s1) && WorldOk(c2) && Reachable(t2, c2, s2)
    requires c1.files == c2.files && c1.before == c2.before
    requires forall j :: j in c1.files ==> Alone(c1, j)
    requires forall j :: j in s1.db.jobs <==> j in s2.db.jobs
    requires forall j :: j in s1.db.jobs && j in s1.history && j in s2.history ==> s1.history[j].completed && s2.history[j].completed
    ensures Aggregate(s1.db.table, account) == Aggregate(s2.db.table, account)
  {
    ReachableIsSafe(t1, c1, s1);
    ReachableIsSafe(t2, c2, s2);
    forall j | j in c1.files
      ensures Reach(s1, j) == Reach(s2, j)
    {
      if j in s1.db.jobs {
        assert JobOk(c1, s1, j) && JobOk(c2, s2, j);
      }
    }
    EquallyFarSameSummaries(t1, c1, s1, t2, c2, s2, account);
  }
}
