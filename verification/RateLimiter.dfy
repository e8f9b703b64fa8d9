/**
 The sliding-window rate limiter: one atomic script over a sorted set of admitted
 requests, called by API replicas whose clocks may disagree.
 */
module RateLimiter {
  import opened Common

  const WINDOW_MS := 60_000

  type Member = string

  // One call: the caller's clock, the server's clock when the script runs, and the
  // name the request is recorded under.
  datatype Call = Call(now: int, server: int, member: Member)

  // The stored key: members with their scores, and when the server drops the key.
  datatype Window = Window(entries: map<Member, int>, expiresAt: Option<int>)

  const EMPTY := Window(map[], None)

  datatype Reply = Reply(allowed: bool, count: int, retryAfter: int)

  // ---------- The script, as a function ----------

  function Alive(w: Window, server: int): map<Member, int> {
    if w.expiresAt.Some? && server >= w.expiresAt.value then map[] else w.entries
  }

  // ZREMRANGEBYSCORE key 0 (now - window).
  function Trim(entries: map<Member, int>, now: int): map<Member, int> {
    map m | m in entries && !(0 <= entries[m] <= now - WINDOW_MS) :: entries[m]
  }

  function Kept(w: Window, call: Call): map<Member, int> {
    Trim(Alive(w, call.server), call.now)
  }

  predicate IsOldest(entries: map<Member, int>, score: int) {
    && (exists m :: m in entries && entries[m] == score)
    && (forall m :: m in entries ==> score <= entries[m])
  }

  lemma {:induction false} OldestAmong(entries: map<Member, int>, keys: set<Member>) returns (oldest: Member)
    requires keys <= entries.Keys && keys != {}
    ensures oldest in keys && forall m :: m in keys ==> entries[oldest] <= entries[m]
    decreases |keys|
  {
    var first :| first in keys;
    var rest := keys - {first};
    oldest := first;
    if rest != {} {
      var other := OldestAmong(entries, rest);
      if entries[other] < entries[first] {
        oldest := other;
      }
    }
    forall m | m in keys
      ensures entries[oldest] <= entries[m]
    {
      assert m == first || m in rest;
    }
  }

  lemma OldestExists(entries: map<Member, int>)
    requires entries != map[]
    ensures exists score :: IsOldest(entries, score)
  {
    var m := OldestAmong(entries, entries.Keys);
    assert IsOldest(entries, entries[m]);
  }

  ghost function Oldest(entries: map<Member, int>): (score: int)
    requires entries != map[]
    ensures IsOldest(entries, score)
  {
    OldestExists(entries);
    var score :| IsOldest(entries, score);
    score
  }

  predicate Admits(w: Window, call: Call, limit: int) {
    |Kept(w, call)| < limit
  }

  ghost function Answer(w: Window, call: Call, limit: int): Reply {
    var kept := Kept(w, call);
    if Admits(w, call, limit) then Reply(true, |kept| + 1, 0)
    else Reply(false, |kept|, if kept == map[] then WINDOW_MS else WINDOW_MS - (call.now - Oldest(kept)))
  }

  function After(w: Window, call: Call, limit: int): Window {
    var kept := Kept(w, call);
    if Admits(w, call, limit) then Window(kept[call.member := call.now], Some(call.server + WINDOW_MS))
    else Window(kept, if kept == map[] then None else w.expiresAt)
  }

  // ---------- The script, run in place ----------

  class Bucket {
    var entries: map<Member, int>
    var expiresAt: Option<int>

    function Value(): Window
      reads this
    {
      Window(entries, expiresAt)
    }

    constructor ()
      ensures Value() == EMPTY
    {
      entries := map[];
      expiresAt := None;
    }

    // The server drops an expired key before it runs the script.
    method DropExpired(server: int)
      modifies this
      ensures entries == Alive(old(Value()), server)
      ensures expiresAt == if old(expiresAt).Some? && server >= old(expiresAt).value then None else old(expiresAt)
    {
      if expiresAt.Some? && server >= expiresAt.value {
        entries := map[];
        expiresAt := None;
      }
    }

    method RemoveRangeByScore(low: int, high: int)
      modifies this`entries
      ensures entries == map m | m in old(entries) && !(low <= old(entries)[m] <= high) :: old(entries)[m]
    {
      entries := map m | m in entries && !(low <= entries[m] <= high) :: entries[m];
    }

    // ZRANGE key 0 0 WITHSCORES.
    method First() returns (score: Option<int>)
      ensures score.None? <==> entries == map[]
      ensures score.Some? ==> IsOldest(entries, score.value)
    {
      score := None;
      var left := entries.Keys;
      while left != {}
        invariant left <= entries.Keys
        invariant score.None? <==> left == entries.Keys
        invariant score.Some? ==> (exists m :: m in entries && m !in left && entries[m] == score.value)
        invariant score.Some? ==> (forall m :: m in entries && m !in left ==> score.value <= entries[m])
        decreases left
      {
        var m :| m in left;
        left := left - {m};
        if score.None? || entries[m] < score.value {
          score := Some(entries[m]);
        }
      }
      if score.None? {
        assert entries.Keys == {};
      }
    }

    method Check(call: Call, limit: int) returns (reply: Reply)
      modifies this
      ensures Value() == After(old(Value()), call, limit)
      ensures reply == Answer(old(Value()), call, limit)
    {
      DropExpired(call.server);
      RemoveRangeByScore(0, call.now - WINDOW_MS);
      assert entries == Kept(old(Value()), call);
      var current := |entries|;
      if current >= limit {
        var oldest := First();
        var retryAfter := WINDOW_MS;
        if oldest.Some? {
          assert oldest.value == Oldest(entries);
          retryAfter := WINDOW_MS - (call.now - oldest.value);
        } else {
          expiresAt := None;
        }
        return Reply(false, current, retryAfter);
      }
      entries := entries[call.member := call.now];
      expiresAt := Some(call.server + WINDOW_MS);
      return Reply(true, current + 1, 0);
    }

    // The caller's side: without a reply the request is let through, whether or not the
    // script ran.
    method CheckOrFailOpen(call: Call, limit: int, sending: Sending) returns (reply: Reply)
      modifies this
      ensures Value() == if sending.Unsent? then old(Value()) else After(old(Value()), call, limit)
      ensures reply == if sending.Heard? then Answer(old(Value()), call, limit) else Reply(true, 0, 0)
    {
      reply := Reply(true, 0, 0);
      if !sending.Unsent? {
        var answer := Check(call, limit);
        if sending.Heard? {
          reply := answer;
        }
      }
    }
  }

  // ---------- Traces ----------

  // Calls in the order the server ran them, the window before each and after the last,
  // and the replies. A call is admitted when its reply says so.
  datatype Trace = Trace(calls: seq<Call>, windows: seq<Window>, replies: seq<Reply>)

  ghost predicate IsStep(t: Trace, limit: int, k: nat)
    requires k < |t.calls| == |t.replies| && |t.windows| == |t.calls| + 1
  {
    && t.replies[k] == Answer(t.windows[k], t.calls[k], limit)
    && t.windows[k + 1] == After(t.windows[k], t.calls[k], limit)
  }

  ghost predicate IsTrace(t: Trace, limit: int) {
    && |t.replies| == |t.calls| && |t.windows| == |t.calls| + 1
    && t.windows[0] == EMPTY
    && forall k :: 0 <= k < |t.calls| ==> IsStep(t, limit, k)
  }

  predicate DistinctMembers(t: Trace) {
    forall i, j :: 0 <= i < j < |t.calls| ==> t.calls[i].member != t.calls[j].member
  }

  // The server's clock never goes back, a caller's clock never lags an earlier caller's
  // by more than d, and once the server has counted a whole window it is at most d short
  // of having moved as far.
  predicate ClocksWithin(t: Trace, d: nat) {
    forall i, j :: 0 <= i < j < |t.calls| ==>
                     && t.calls[i].server <= t.calls[j].server
                     && t.calls[j].now >= t.calls[i].now - d
                     && (t.calls[j].server - t.calls[i].server >= WINDOW_MS
                         ==> t.calls[j].now >= t.calls[i].now + WINDOW_MS - d)
  }

  function Offset(c: Call): int {
    c.now - c.server
  }

  // Replicas whose offsets from the server's clock differ pairwise by at most d.
  lemma BoundedOffsetsAreWithin(t: Trace, d: nat)
    requires forall i, j :: 0 <= i < j < |t.calls| ==> t.calls[i].server <= t.calls[j].server
    requires forall i, j :: 0 <= i < |t.calls| && 0 <= j < |t.calls| ==> Offset(t.calls[i]) - Offset(t.calls[j]) <= d
    ensures ClocksWithin(t, d)
  {
    forall i, j | 0 <= i < j < |t.calls|
      ensures t.calls[j].now - t.calls[i].now >= (t.calls[j].server - t.calls[i].server) - d
    {
      assert Offset(t.calls[i]) - Offset(t.calls[j]) <= d;
    }
  }

  // ---------- What the window remembers ----------

  // No call before k lets the record of call i be dropped.
  predicate Recent(t: Trace, i: nat, k: nat)
    requires i < |t.calls| && k <= |t.calls|
  {
    forall m :: i < m < k ==> t.calls[m].now < t.calls[i].now + WINDOW_MS && t.calls[m].server < t.calls[i].server + WINDOW_MS
  }

  predicate Recorded(t: Trace, entries: map<Member, int>, i: nat)
    requires i < |t.calls|
  {
    t.calls[i].member in entries && entries[t.calls[i].member] == t.calls[i].now
  }

  // Call i, admitted before k, is the one recorded under member m.
  predicate RecordOf(t: Trace, entries: map<Member, int>, k: nat, m: Member, i: nat)
    requires k <= |t.calls| == |t.replies| && m in entries
  {
    i < k && t.replies[i].allowed && t.calls[i].member == m && t.calls[i].now == entries[m]
  }

  // Every record is that of an admitted call.
  ghost predicate OnlyAdmitted(t: Trace, k: nat)
    requires k <= |t.calls| == |t.replies| && |t.windows| == |t.calls| + 1
  {
    forall m :: m in t.windows[k].entries ==> HasRecord(t, t.windows[k].entries, k, m)
  }

  ghost predicate HasRecord(t: Trace, entries: map<Member, int>, k: nat, m: Member)
    requires k <= |t.calls| == |t.replies| && m in entries
  {
    exists i :: 0 <= i < k && RecordOf(t, entries, k, m, i)
  }

  // The key outlives each recorded admission by a window.
  predicate Outlives(t: Trace, k: nat)
    requires k <= |t.calls| == |t.replies| && |t.windows| == |t.calls| + 1
  {
    forall i :: 0 <= i < k && t.replies[i].allowed && t.calls[i].member in t.windows[k].entries
                ==> t.windows[k].expiresAt.Some? && t.windows[k].expiresAt.value >= t.calls[i].server + WINDOW_MS
  }

  predicate Ordered(t: Trace) {
    forall i, j :: 0 <= i < j < |t.calls| ==> t.calls[i].server <= t.calls[j].server
  }

  ghost predicate Sensible(t: Trace, limit: int) {
    IsTrace(t, limit) && DistinctMembers(t) && Ordered(t)
  }

  lemma {:induction false} RecordsAreAdmissions(t: Trace, limit: int, k: nat)
    requires IsTrace(t, limit) && k <= |t.calls|
    ensures OnlyAdmitted(t, k)
  {
    if k > 0 {
      RecordsAreAdmissions(t, limit, k - 1);
      assert IsStep(t, limit, k - 1);
      var before, after := t.windows[k - 1].entries, t.windows[k].entries;
      forall m | m in after
        ensures HasRecord(t, after, k, m)
      {
        if t.replies[k - 1].allowed && m == t.calls[k - 1].member {
          assert RecordOf(t, after, k, m, k - 1);
        } else {
          assert HasRecord(t, before, k - 1, m);
          var i :| 0 <= i < k - 1 && RecordOf(t, before, k - 1, m, i);
          assert RecordOf(t, after, k, m, i);
        }
      }
    }
  }

  lemma {:induction false} KeyOutlivesRecords(t: Trace, limit: int, k: nat)
    requires IsTrace(t, limit) && Ordered(t) && k <= |t.calls|
    ensures Outlives(t, k)
  {
    if k > 0 {
      KeyOutlivesRecords(t, limit, k - 1);
      assert IsStep(t, limit, k - 1);
    }
  }

  // The record of an admitted call is still there while no call could have dropped it.
  lemma {:induction false} RecentIsRecorded(t: Trace, limit: int, i: nat, k: nat)
    requires Sensible(t, limit) && i < k <= |t.calls| && t.replies[i].allowed && Recent(t, i, k)
    ensures Recorded(t, t.windows[k].entries, i)
  {
    assert IsStep(t, limit, k - 1);
    if i < k - 1 {
      assert Recent(t, i, k - 1);
      RecentIsRecorded(t, limit, i, k - 1);
      RecentIsKept(t, limit, i, k - 1);
    }
  }

  // And it survives the trim of call k.
  lemma RecentIsKept(t: Trace, limit: int, i: nat, k: nat)
    requires Sensible(t, limit) && i < k < |t.calls| && t.replies[i].allowed && Recent(t, i, k + 1)
    requires Recorded(t, t.windows[k].entries, i)
    ensures Recorded(t, Kept(t.windows[k], t.calls[k]), i)
  {
    KeyOutlivesRecords(t, limit, k);
    assert t.calls[k].now < t.calls[i].now + WINDOW_MS && t.calls[k].server < t.calls[i].server + WINDOW_MS;
  }

  lemma KeptIfRecent(t: Trace, limit: int, i: nat, k: nat)
    requires Sensible(t, limit) && i < k < |t.calls| && t.replies[i].allowed && Recent(t, i, k + 1)
    ensures Recorded(t, Kept(t.windows[k], t.calls[k]), i)
  {
    assert Recent(t, i, k);
    RecentIsRecorded(t, limit, i, k);
    RecentIsKept(t, limit, i, k);
  }

  // ---------- Counting admissions ----------

  predicate AdmittedWithin(t: Trace, i: nat, low: int, high: int)
    requires i < |t.calls| == |t.replies|
  {
    t.replies[i].allowed && low < t.calls[i].now <= high
  }

  // How many of the first k calls were admitted with low < now <= high.
  function AdmittedIn(t: Trace, k: nat, low: int, high: int): nat
    requires k <= |t.calls| == |t.replies|
  {
    if k == 0 then 0
    else AdmittedIn(t, k - 1, low, high) + if AdmittedWithin(t, k - 1, low, high) then 1 else 0
  }

  // The names those calls were recorded under.
  function MembersIn(t: Trace, k: nat, low: int, high: int): set<Member>
    requires k <= |t.calls| == |t.replies|
  {
    if k == 0 then {}
    else MembersIn(t, k - 1, low, high) + if AdmittedWithin(t, k - 1, low, high) then {t.calls[k - 1].member} else {}
  }

  lemma {:induction false} MembersInMembers(t: Trace, k: nat, low: int, high: int, m: Member)
    requires k <= |t.calls| == |t.replies|
    ensures m in MembersIn(t, k, low, high)
            <==> exists i :: 0 <= i < k && AdmittedWithin(t, i, low, high) && t.calls[i].member == m
  {
    if k > 0 {
      MembersInMembers(t, k - 1, low, high, m);
    }
  }

  // Both admitted in the stretch, under one member.
  predicate Repeats(t: Trace, i: nat, j: nat, low: int, high: int)
    requires i < |t.calls| == |t.replies| && j < |t.calls|
  {
    AdmittedWithin(t, i, low, high) && AdmittedWithin(t, j, low, high) && t.calls[i].member == t.calls[j].member
  }

  lemma MemberIsNew(t: Trace, k: nat, low: int, high: int)
    requires k < |t.calls| == |t.replies| && AdmittedWithin(t, k, low, high)
    requires forall i :: 0 <= i < k ==> !Repeats(t, i, k, low, high)
    ensures t.calls[k].member !in MembersIn(t, k, low, high)
  {
    var m := t.calls[k].member;
    MembersInMembers(t, k, low, high, m);
    if m in MembersIn(t, k, low, high) {
      var i :| 0 <= i < k && AdmittedWithin(t, i, low, high) && t.calls[i].member == m;
      assert Repeats(t, i, k, low, high);
    }
  }

  lemma {:induction false} MembersAreCounted(t: Trace, k: nat, low: int, high: int)
    requires k <= |t.calls| == |t.replies|
    requires forall i, j :: 0 <= i < j < k ==> !Repeats(t, i, j, low, high)
    ensures |MembersIn(t, k, low, high)| == AdmittedIn(t, k, low, high)
  {
    if k > 0 {
      MembersAreCounted(t, k - 1, low, high);
      if AdmittedWithin(t, k - 1, low, high) {
        MemberIsNew(t, k - 1, low, high);
      }
    }
  }

  // ---------- The window bound under clock skew ----------

  lemma InWindowIsRecent(t: Trace, d: nat, low: int, i: nat, k: nat)
    requires ClocksWithin(t, d) && i < k < |t.calls|
    requires low < t.calls[i].now && t.calls[k].now <= low + WINDOW_MS - d
    ensures Recent(t, i, k + 1)
  {
    forall m | i < m < k + 1
      ensures t.calls[m].now < t.calls[i].now + WINDOW_MS && t.calls[m].server < t.calls[i].server + WINDOW_MS
    {
      if m < k {
        assert t.calls[k].now >= t.calls[m].now - d;
        assert t.calls[m].server <= t.calls[k].server;
      }
      assert t.calls[k].server - t.calls[i].server < WINDOW_MS;
    }
  }

  lemma AdmissionLeavesRoom(t: Trace, limit: int, d: nat, k: nat, low: int)
    requires Sensible(t, limit) && ClocksWithin(t, d) && k < |t.calls|
    requires AdmittedWithin(t, k, low, low + WINDOW_MS - d)
    ensures AdmittedIn(t, k, low, low + WINDOW_MS - d) < limit
  {
    var high := low + WINDOW_MS - d;
    var kept := Kept(t.windows[k], t.calls[k]);
    assert IsStep(t, limit, k);
    forall m | m in MembersIn(t, k, low, high)
      ensures m in kept.Keys
    {
      MembersInMembers(t, k, low, high, m);
      var i :| 0 <= i < k && AdmittedWithin(t, i, low, high) && t.calls[i].member == m;
      InWindowIsRecent(t, d, low, i, k);
      KeptIfRecent(t, limit, i, k);
    }
    MembersAreCounted(t, k, low, high);
    SubsetIsSmaller(MembersIn(t, k, low, high), kept.Keys);
  }

  // Over every trace with distinct members, callers within d of each other admit at
  // most `limit` requests in any stretch of WINDOW_MS - d milliseconds (excluding its
  // start, including its end); with d = 0 that is the whole window.
  lemma {:induction false} WindowBound(t: Trace, limit: int, d: nat, k: nat, low: int)
    requires Sensible(t, limit) && ClocksWithin(t, d) && k <= |t.calls|
    ensures AdmittedIn(t, k, low, low + WINDOW_MS - d) <= if limit < 0 then 0 else limit
  {
    if k > 0 {
      WindowBound(t, limit, d, k - 1, low);
      if AdmittedWithin(t, k - 1, low, low + WINDOW_MS - d) {
        AdmissionLeavesRoom(t, limit, d, k - 1, low);
      }
    }
  }

  // ---------- What holds of any members ----------

  // The member of call i is recorded at or after it.
  predicate Remembered(t: Trace, entries: map<Member, int>, i: nat)
    requires i < |t.calls|
  {
    t.calls[i].member in entries && entries[t.calls[i].member] >= t.calls[i].now
  }

  ghost predicate MonotoneClock(t: Trace, limit: int) {
    IsTrace(t, limit) && Ordered(t) && ClocksWithin(t, 0)
  }

  lemma RememberedIsKept(t: Trace, limit: int, i: nat, k: nat)
    requires MonotoneClock(t, limit) && i < k < |t.calls| && t.replies[i].allowed && Recent(t, i, k + 1)
    requires Remembered(t, t.windows[k].entries, i)
    ensures Remembered(t, Kept(t.windows[k], t.calls[k]), i)
  {
    KeyOutlivesRecords(t, limit, k);
    assert t.calls[k].now < t.calls[i].now + WINDOW_MS && t.calls[k].server < t.calls[i].server + WINDOW_MS;
  }

  lemma {:induction false} RecentIsRemembered(t: Trace, limit: int, i: nat, k: nat)
    requires MonotoneClock(t, limit) && i < k <= |t.calls| && t.replies[i].allowed && Recent(t, i, k)
    ensures Remembered(t, t.windows[k].entries, i)
  {
    assert IsStep(t, limit, k - 1);
    if i < k - 1 {
      assert Recent(t, i, k - 1);
      RecentIsRemembered(t, limit, i, k - 1);
      RememberedIsKept(t, limit, i, k - 1);
      assert t.calls[k - 1].now >= t.calls[i].now;
    }
  }

  lemma AdmissionLeavesRoomForMembers(t: Trace, limit: int, k: nat, low: int)
    requires MonotoneClock(t, limit) && k < |t.calls| && AdmittedWithin(t, k, low, low + WINDOW_MS)
    ensures |MembersIn(t, k, low, low + WINDOW_MS)| < limit
  {
    var kept := Kept(t.windows[k], t.calls[k]);
    assert IsStep(t, limit, k);
    forall m | m in MembersIn(t, k, low, low + WINDOW_MS)
      ensures m in kept.Keys
    {
      MembersInMembers(t, k, low, low + WINDOW_MS, m);
      var i :| 0 <= i < k && AdmittedWithin(t, i, low, low + WINDOW_MS) && t.calls[i].member == m;
      InWindowIsRecent(t, 0, low, i, k);
      assert Recent(t, i, k);
      RecentIsRemembered(t, limit, i, k);
      RememberedIsKept(t, limit, i, k);
    }
    SubsetIsSmaller(MembersIn(t, k, low, low + WINDOW_MS), kept.Keys);
  }

  // Over one clock, and whatever the members, no whole window has admissions under more
  // than `limit` of them.
  lemma {:induction false} MembersAreLimited(t: Trace, limit: int, k: nat, low: int)
    requires MonotoneClock(t, limit) && k <= |t.calls|
    ensures |MembersIn(t, k, low, low + WINDOW_MS)| <= if limit < 0 then 0 else limit
  {
    if k > 0 {
      MembersAreLimited(t, limit, k - 1, low);
      if AdmittedWithin(t, k - 1, low, low + WINDOW_MS) {
        AdmissionLeavesRoomForMembers(t, limit, k - 1, low);
      }
    }
  }

  // So a window exceeds the limit only by requests recorded under a member it has had.
  lemma ExcessIsRepetition(t: Trace, limit: int, k: nat, low: int, high: int)
    requires MonotoneClock(t, limit) && k <= |t.calls| && high == low + WINDOW_MS
    requires AdmittedIn(t, k, low, high) > if limit < 0 then 0 else limit
    ensures exists i, j :: 0 <= i < j < k && Repeats(t, i, j, low, high)
  {
    MembersAreLimited(t, limit, k, low);
    if forall i, j :: 0 <= i < j < k ==> !Repeats(t, i, j, low, high) {
      MembersAreCounted(t, k, low, high);
    }
  }

  // Members that repeat defeat the bound: while every request is recorded under one
  // name, a limit of two or more never rejects.
  lemma {:induction false} SharedMemberIsNeverLimited(t: Trace, limit: int, k: nat)
    requires IsTrace(t, limit) && limit >= 2 && k <= |t.calls|
    requires forall i, j :: 0 <= i < |t.calls| && 0 <= j < |t.calls| ==> t.calls[i].member == t.calls[j].member
    ensures forall m :: m in t.windows[k].entries ==> k > 0 && m == t.calls[0].member
    ensures forall i :: 0 <= i < k ==> t.replies[i].allowed
  {
    if k > 0 {
      SharedMemberIsNeverLimited(t, limit, k - 1);
      assert IsStep(t, limit, k - 1);
      var kept := Kept(t.windows[k - 1], t.calls[k - 1]);
      SubsetIsSmaller(kept.Keys, {t.calls[0].member});
    }
  }

  // ---------- One clock: the log it refines, and exact retry times ----------

  // One clock that never goes back, counting from the epoch.
  ghost predicate OneClock(t: Trace, limit: int) {
    && Sensible(t, limit) && ClocksWithin(t, 0)
    && forall i :: 0 <= i < |t.calls| ==> t.calls[i].now >= 0
  }

  // The members admitted in the window that ends at call k.
  function InWindow(t: Trace, k: nat): set<Member>
    requires k < |t.calls| == |t.replies|
  {
    MembersIn(t, k, t.calls[k].now - WINDOW_MS, t.calls[k].now)
  }

  lemma KeptAreInWindow(t: Trace, limit: int, k: nat, m: Member)
    requires OneClock(t, limit) && k < |t.calls|
    requires m in Trim(t.windows[k].entries, t.calls[k].now)
    ensures m in InWindow(t, k)
  {
    RecordsAreAdmissions(t, limit, k);
    assert HasRecord(t, t.windows[k].entries, k, m);
    var i :| 0 <= i < k && RecordOf(t, t.windows[k].entries, k, m, i);
    assert AdmittedWithin(t, i, t.calls[k].now - WINDOW_MS, t.calls[k].now);
    MembersInMembers(t, k, t.calls[k].now - WINDOW_MS, t.calls[k].now, m);
  }

  lemma InWindowAreKept(t: Trace, limit: int, k: nat, m: Member)
    requires OneClock(t, limit) && k < |t.calls| && m in InWindow(t, k)
    ensures m in Kept(t.windows[k], t.calls[k])
  {
    var low := t.calls[k].now - WINDOW_MS;
    MembersInMembers(t, k, low, t.calls[k].now, m);
    var i :| 0 <= i < k && AdmittedWithin(t, i, low, t.calls[k].now) && t.calls[i].member == m;
    InWindowIsRecent(t, 0, low, i, k);
    KeptIfRecent(t, limit, i, k);
  }

  lemma KeptKeysAreInWindow(t: Trace, limit: int, k: nat)
    requires OneClock(t, limit) && k < |t.calls|
    ensures Kept(t.windows[k], t.calls[k]).Keys == InWindow(t, k) == Trim(t.windows[k].entries, t.calls[k].now).Keys
  {
    var kept, trimmed := Kept(t.windows[k], t.calls[k]), Trim(t.windows[k].entries, t.calls[k].now);
    forall m | m in trimmed.Keys
      ensures m in InWindow(t, k)
    {
      KeptAreInWindow(t, limit, k, m);
    }
    forall m | m in InWindow(t, k)
      ensures m in kept.Keys
    {
      InWindowAreKept(t, limit, k, m);
    }
    assert kept.Keys <= trimmed.Keys;
  }

  lemma SameKeysSameRecords(w: Window, call: Call)
    requires Kept(w, call).Keys == Trim(w.entries, call.now).Keys
    ensures Kept(w, call) == Trim(w.entries, call.now)
  {
    if Alive(w, call.server) != w.entries {
      assert Kept(w, call).Keys == {};
    }
  }

  lemma KeysAreCounted(entries: map<Member, int>)
    ensures |entries| == |entries.Keys|
  {
  }

  lemma DecisionByCount(t: Trace, limit: int, k: nat, count: nat)
    requires k < |t.calls| == |t.replies| && |t.windows| == |t.calls| + 1 && IsStep(t, limit, k)
    requires |Kept(t.windows[k], t.calls[k]).Keys| == count
    ensures t.replies[k].allowed <==> count < limit
  {
    KeysAreCounted(Kept(t.windows[k], t.calls[k]));
  }

  lemma InWindowIsCounted(t: Trace, limit: int, k: nat)
    requires OneClock(t, limit) && k < |t.calls|
    ensures |InWindow(t, k)| == AdmittedIn(t, k, t.calls[k].now - WINDOW_MS, t.calls[k].now)
    ensures IsStep(t, limit, k)
  {
    MembersAreCounted(t, k, t.calls[k].now - WINDOW_MS, t.calls[k].now);
  }

  // The sorted set holds exactly the admissions of the last window, so the decision is
  // the one the full admission log would give.
  lemma WindowRefinesLog(t: Trace, limit: int, k: nat)
    requires OneClock(t, limit) && k < |t.calls|
    ensures Kept(t.windows[k], t.calls[k]).Keys == InWindow(t, k)
    ensures |InWindow(t, k)| == AdmittedIn(t, k, t.calls[k].now - WINDOW_MS, t.calls[k].now)
    ensures t.replies[k].allowed <==> AdmittedIn(t, k, t.calls[k].now - WINDOW_MS, t.calls[k].now) < limit
  {
    KeptKeysAreInWindow(t, limit, k);
    InWindowIsCounted(t, limit, k);
    DecisionByCount(t, limit, k, AdmittedIn(t, k, t.calls[k].now - WINDOW_MS, t.calls[k].now));
  }

  // So the reply is the one the log would give: allowed if and only if there is room, with
  // the number of admissions in the window, this one included.
  lemma ReplyIsExact(t: Trace, limit: int, k: nat)
    requires OneClock(t, limit) && k < |t.calls|
    ensures var reply, n := t.replies[k], AdmittedIn(t, k, t.calls[k].now - 60_000, t.calls[k].now);
            && (reply.allowed <==> n < limit)
            && reply.count == n + (if reply.allowed then 1 else 0)
            && (reply.allowed ==> reply.retryAfter == 0)
  {
    WindowRefinesLog(t, limit, k);
    KeysAreCounted(Kept(t.windows[k], t.calls[k]));
    assert IsStep(t, limit, k);
  }

  // A limit that is not positive admits nothing, whatever the clocks, and advises of a
  // whole window.
  lemma {:induction false} NoLimitNoAdmission(t: Trace, limit: int, k: nat)
    requires IsTrace(t, limit) && limit <= 0 && k <= |t.calls|
    ensures t.windows[k] == EMPTY
    ensures forall i :: 0 <= i < k ==> t.replies[i] == Reply(false, 0, WINDOW_MS)
  {
    if k > 0 {
      NoLimitNoAdmission(t, limit, k - 1);
      assert IsStep(t, limit, k - 1);
      assert Kept(t.windows[k - 1], t.calls[k - 1]) == map[];
    }
  }

  // Call i is the last one admitted before k.
  predicate LastAdmitted(t: Trace, i: nat, k: nat)
    requires i < k <= |t.replies|
  {
    t.replies[i].allowed && forall m :: i < m < k ==> !t.replies[m].allowed
  }

  // The key expires a window after the last admission, by the server's clock, and there
  // is no expiry without a record.
  lemma {:induction false} ExpiryFollowsLastAdmission(t: Trace, limit: int, k: nat)
    requires IsTrace(t, limit) && k <= |t.calls|
    ensures t.windows[k].entries == map[] <==> t.windows[k].expiresAt.None?
    ensures t.windows[k].entries != map[] ==>
              exists i :: 0 <= i < k && LastAdmitted(t, i, k) && t.windows[k].expiresAt == Some(t.calls[i].server + WINDOW_MS)
  {
    if k > 0 {
      ExpiryFollowsLastAdmission(t, limit, k - 1);
      assert IsStep(t, limit, k - 1);
      if t.replies[k - 1].allowed {
        assert t.calls[k - 1].member in t.windows[k].entries;
        assert LastAdmitted(t, k - 1, k);
      } else if t.windows[k].entries != map[] {
        var before := t.windows[k - 1];
        assert before.entries != map[];
        var i :| 0 <= i < k - 1 && LastAdmitted(t, i, k - 1) && before.expiresAt == Some(t.calls[i].server + WINDOW_MS);
        assert LastAdmitted(t, i, k);
      }
    }
  }

  // The server dropping an expired key changes no decision: whatever it drops, the trim
  // would have removed.
  lemma ExpiryChangesNothing(t: Trace, limit: int, k: nat)
    requires OneClock(t, limit) && k < |t.calls|
    ensures Kept(t.windows[k], t.calls[k]) == Trim(t.windows[k].entries, t.calls[k].now)
  {
    KeptKeysAreInWindow(t, limit, k);
    SameKeysSameRecords(t.windows[k], t.calls[k]);
  }

  // When call k is rejected: the time at which its advice says to come back.
  ghost function ComeBackAt(t: Trace, k: nat): int
    requires k < |t.calls| == |t.replies|
  {
    t.calls[k].now + t.replies[k].retryAfter
  }

  lemma RejectedIsFull(t: Trace, limit: int, k: nat)
    requires OneClock(t, limit) && limit >= 1 && k < |t.calls| && !t.replies[k].allowed
    ensures |InWindow(t, k)| == limit
    ensures Kept(t.windows[k], t.calls[k]) != map[]
    ensures ComeBackAt(t, k) == Oldest(Kept(t.windows[k], t.calls[k])) + WINDOW_MS
  {
    var kept := Kept(t.windows[k], t.calls[k]);
    WindowRefinesLog(t, limit, k);
    WindowBound(t, limit, 0, k, t.calls[k].now - WINDOW_MS);
    KeysAreCounted(kept);
    assert IsStep(t, limit, k);
  }

  // Call o is the oldest admission in the window that ends at call k.
  predicate OldestIn(t: Trace, o: nat, k: nat)
    requires k < |t.calls| == |t.replies|
  {
    && o < k && AdmittedWithin(t, o, t.calls[k].now - WINDOW_MS, t.calls[k].now)
    && forall i :: 0 <= i < k && AdmittedWithin(t, i, t.calls[k].now - WINDOW_MS, t.calls[k].now)
                   ==> t.calls[o].now <= t.calls[i].now
  }

  // A rejected call is advised of when the oldest admission leaves the window.
  lemma AdviceIsAboutTheOldest(t: Trace, limit: int, k: nat) returns (o: nat)
    requires OneClock(t, limit) && limit >= 1 && k < |t.calls| && !t.replies[k].allowed
    ensures OldestIn(t, o, k)
    ensures ComeBackAt(t, k) == t.calls[o].now + WINDOW_MS
  {
    var kept := Kept(t.windows[k], t.calls[k]);
    var low := t.calls[k].now - WINDOW_MS;
    RejectedIsFull(t, limit, k);
    var m :| m in kept && kept[m] == Oldest(kept);
    RecordsAreAdmissions(t, limit, k);
    assert HasRecord(t, t.windows[k].entries, k, m);
    o :| 0 <= o < k && RecordOf(t, t.windows[k].entries, k, m, o);
    forall i | 0 <= i < k && AdmittedWithin(t, i, low, t.calls[k].now)
      ensures t.calls[o].now <= t.calls[i].now
    {
      InWindowIsRecent(t, 0, low, i, k);
      KeptIfRecent(t, limit, i, k);
    }
  }

  // Until the oldest leaves, the window of a later call has all of this one's.
  lemma WindowStaysFull(t: Trace, limit: int, o: nat, k: nat, j: nat)
    requires OneClock(t, limit) && k < j < |t.calls| && OldestIn(t, o, k)
    requires t.calls[j].now < t.calls[o].now + WINDOW_MS
    ensures InWindow(t, k) <= InWindow(t, j)
  {
    var low, low' := t.calls[k].now - WINDOW_MS, t.calls[j].now - WINDOW_MS;
    forall m | m in InWindow(t, k)
      ensures m in InWindow(t, j)
    {
      MembersInMembers(t, k, low, t.calls[k].now, m);
      var i :| 0 <= i < k && AdmittedWithin(t, i, low, t.calls[k].now) && t.calls[i].member == m;
      assert AdmittedWithin(t, i, low', t.calls[j].now);
      MembersInMembers(t, j, low', t.calls[j].now, m);
    }
  }

  // Once it has left and nothing else came in, the window is smaller.
  lemma WindowHasRoom(t: Trace, limit: int, o: nat, k: nat, j: nat)
    requires OneClock(t, limit) && k < j < |t.calls| && OldestIn(t, o, k)
    requires t.calls[j].now >= t.calls[o].now + WINDOW_MS && forall i :: k <= i < j ==> !t.replies[i].allowed
    ensures t.calls[o].member in InWindow(t, k)
    ensures InWindow(t, j) <= InWindow(t, k) - {t.calls[o].member}
  {
    var low, low' := t.calls[k].now - WINDOW_MS, t.calls[j].now - WINDOW_MS;
    MembersInMembers(t, k, low, t.calls[k].now, t.calls[o].member);
    forall m | m in InWindow(t, j)
      ensures m in InWindow(t, k) - {t.calls[o].member}
    {
      MembersInMembers(t, j, low', t.calls[j].now, m);
      var i :| 0 <= i < j && AdmittedWithin(t, i, low', t.calls[j].now) && t.calls[i].member == m;
      assert AdmittedWithin(t, i, low, t.calls[k].now);
      MembersInMembers(t, k, low, t.calls[k].now, m);
      assert i != o;
    }
  }

  // After a rejection every call before the advised time is rejected.
  lemma TooEarlyIsRejected(t: Trace, limit: int, k: nat, j: nat)
    requires OneClock(t, limit) && limit >= 1 && k < j < |t.calls| && !t.replies[k].allowed
    requires t.calls[j].now < ComeBackAt(t, k)
    ensures !t.replies[j].allowed
  {
    var o := AdviceIsAboutTheOldest(t, limit, k);
    RejectedIsFull(t, limit, k);
    WindowStaysFull(t, limit, o, k, j);
    SubsetIsSmaller(InWindow(t, k), InWindow(t, j));
    WindowRefinesLog(t, limit, j);
  }

  lemma OnTimeIsAdmitted(t: Trace, limit: int, k: nat, j: nat)
    requires OneClock(t, limit) && limit >= 1 && k < j < |t.calls| && !t.replies[k].allowed
    requires forall i :: k <= i < j ==> !t.replies[i].allowed
    requires t.calls[j].now >= ComeBackAt(t, k)
    ensures t.replies[j].allowed
  {
    var o := AdviceIsAboutTheOldest(t, limit, k);
    RejectedIsFull(t, limit, k);
    WindowHasRoom(t, limit, o, k, j);
    SubsetIsSmaller(InWindow(t, j), InWindow(t, k) - {t.calls[o].member});
    WindowRefinesLog(t, limit, j);
  }

  // After a rejection, the first call at or after the advised time is admitted and
  // every earlier one is rejected; the advice is never zero and never over a window.
  lemma RetryAdviceIsExact(t: Trace, limit: int, k: nat, j: nat)
    requires OneClock(t, limit) && limit >= 1 && k < j < |t.calls| && !t.replies[k].allowed
    requires forall m :: k < m < j ==> t.calls[m].now < ComeBackAt(t, k)
    ensures 0 < ComeBackAt(t, k) - t.calls[k].now <= WINDOW_MS
    ensures t.replies[j].allowed <==> t.calls[j].now >= ComeBackAt(t, k)
  {
    var o := AdviceIsAboutTheOldest(t, limit, k);
    if t.calls[j].now < ComeBackAt(t, k) {
      TooEarlyIsRejected(t, limit, k, j);
    } else {
      forall i | k <= i < j
        ensures !t.replies[i].allowed
      {
        if i > k {
          TooEarlyIsRejected(t, limit, k, i);
        }
      }
      OnTimeIsAdmitted(t, limit, k, j);
    }
  }
}
