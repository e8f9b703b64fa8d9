/** The job stream and its consumer group, as the worker and the API use them. */
module Queue {
  import opened Common

  // Who an entry was last delivered to, and when.
  datatype Claim = Claim(consumer: string, since: int)

  predicate Stale(pending: map<nat, Claim>, e: nat, idle: int, now: int) {
    e in pending && now - pending[e].since >= idle
  }

  // Entries of the pending list, and stale ones, with a smaller id.
  function PendingBelow(pending: map<nat, Claim>, e: nat): set<nat> {
    set d | d in pending && d < e
  }

  function StaleBelow(pending: map<nat, Claim>, e: nat, idle: int, now: int): set<nat> {
    set d | d in pending && d < e && Stale(pending, d, idle, now)
  }

  // The server looks at no more than this many pending entries for each one asked for.
  const SCAN_FACTOR := 10

  // What one call to reclaim finds: the stale entries that are among the first `count`
  // of their kind and among the first ten times as many pending ones.
  predicate Found(pending: map<nat, Claim>, e: nat, idle: int, count: nat, now: int) {
    && Stale(pending, e, idle, now)
    && |StaleBelow(pending, e, idle, now)| < count
    && |PendingBelow(pending, e)| < SCAN_FACTOR * count
  }

  lemma MoreBelow(pending: map<nat, Claim>, d: nat, e: nat, idle: int, now: int)
    requires d <= e
    ensures |PendingBelow(pending, d)| <= |PendingBelow(pending, e)|
    ensures |StaleBelow(pending, d, idle, now)| <= |StaleBelow(pending, e, idle, now)|
  {
    SubsetIsSmaller(PendingBelow(pending, d), PendingBelow(pending, e));
    SubsetIsSmaller(StaleBelow(pending, d, idle, now), StaleBelow(pending, e, idle, now));
  }

  // When no more are asked for than there are pending, all that are idle for long enough
  // are found.
  lemma ShortListsAreFoundWhole(pending: map<nat, Claim>, e: nat, idle: int, count: nat, now: int)
    requires e in pending && now - pending[e].since >= idle && |pending| <= count
    ensures Found(pending, e, idle, count, now)
  {
    SubsetIsSmaller(StaleBelow(pending, e, idle, now), pending.Keys - {e});
    SubsetIsSmaller(PendingBelow(pending, e), pending.Keys - {e});
    assert |pending.Keys| == |pending|;
  }

  // What is found is pending and idle for long enough, and of a short list all that is.
  lemma FoundIsIdle(pending: map<nat, Claim>, idle: int, count: nat, now: int)
    ensures forall e: nat :: Found(pending, e, idle, count, now) ==> e in pending && now - pending[e].since >= idle
    ensures |pending| <= count ==>
              forall e: nat :: e in pending && now - pending[e].since >= idle ==> Found(pending, e, idle, count, now)
  {
    if |pending| <= count {
      forall e: nat | e in pending && now - pending[e].since >= idle
        ensures Found(pending, e, idle, count, now)
      {
        ShortListsAreFoundWhole(pending, e, idle, count, now);
      }
    }
  }

  lemma NothingBelow(pending: map<nat, Claim>, idle: int, now: int)
    ensures |PendingBelow(pending, 0)| == 0 && |StaleBelow(pending, 0, idle, now)| == 0
  {
    assert PendingBelow(pending, 0) == {} && StaleBelow(pending, 0, idle, now) == {};
  }

  lemma OnePendingMore(pending: map<nat, Claim>, e: nat)
    ensures |PendingBelow(pending, e + 1)| == |PendingBelow(pending, e)| + if e in pending then 1 else 0
  {
    var below, further := PendingBelow(pending, e), PendingBelow(pending, e + 1);
    assert e in further <==> e in pending;
    assert e !in below && further - {e} == below;
  }

  lemma OneStaleMore(pending: map<nat, Claim>, e: nat, idle: int, now: int)
    ensures |StaleBelow(pending, e + 1, idle, now)|
            == |StaleBelow(pending, e, idle, now)| + if Stale(pending, e, idle, now) then 1 else 0
  {
    var below, further := StaleBelow(pending, e, idle, now), StaleBelow(pending, e + 1, idle, now);
    assert e in further <==> Stale(pending, e, idle, now);
    assert e !in below && further - {e} == below;
  }

  class ConsumerGroup {
    var stream: seq<JobId>            // entries in the order they were added; an entry's id is its index
    var delivered: nat                // entries handed out so far
    var pending: map<nat, Claim>      // delivered, not acknowledged
    ghost var acked: set<nat>         // acknowledged so far

    // Every entry is in exactly one of three places: not delivered, pending, acknowledged.
    ghost predicate Valid()
      reads this
    {
      && delivered <= |stream|
      && pending.Keys !! acked
      && pending.Keys + acked == Below(delivered)
    }

    constructor ()
      ensures Valid() && stream == [] && delivered == 0 && pending == map[] && acked == {}
    {
      stream, delivered, pending, acked := [], 0, map[], {};
    }

    method Enqueue(job: JobId) returns (entry: nat)
      requires Valid()
      modifies this`stream
      ensures Valid()
      ensures entry == |old(stream)| && stream == old(stream) + [job]
    {
      entry := |stream|;
      stream := stream + [job];
    }

    // XREADGROUP with ">": up to `count` entries never delivered before, in order.
    method ReadNew(consumer: string, count: nat, now: int) returns (entries: seq<nat>)
      requires Valid()
      modifies this`delivered, this`pending
      ensures Valid()
      ensures delivered == if old(delivered) + count < |stream| then old(delivered) + count else |stream|
      ensures |entries| == delivered - old(delivered)
      ensures forall k :: 0 <= k < |entries| ==> entries[k] == old(delivered) + k
      ensures forall e :: e in pending <==> e in old(pending) || old(delivered) <= e < delivered
      ensures forall e :: e in old(pending) ==> pending[e] == old(pending)[e]
      ensures forall e :: old(delivered) <= e < delivered ==> pending[e] == Claim(consumer, now)
    {
      entries := [];
      ghost var from := delivered;
      while |entries| < count && delivered < |stream|
        invariant Valid() && from <= delivered && delivered == from + |entries| && |entries| <= count
        invariant forall k :: 0 <= k < |entries| ==> entries[k] == from + k
        invariant forall e :: e in pending <==> e in old(pending) || from <= e < delivered
        invariant forall e :: e in old(pending) ==> pending[e] == old(pending)[e]
        invariant forall e :: from <= e < delivered ==> pending[e] == Claim(consumer, now)
        decreases |stream| - delivered
      {
        assert delivered !in Below(delivered);
        assert Below(delivered + 1) == Below(delivered) + {delivered};
        entries := entries + [delivered];
        pending := pending[delivered := Claim(consumer, now)];
        delivered := delivered + 1;
      }
    }

    // As the worker calls it: the next entry, if there is one.
    method ReadNext(consumer: string, now: int) returns (entries: seq<nat>)
      requires Valid()
      modifies this`delivered, this`pending
      ensures Valid()
      ensures old(delivered) == |stream| ==> entries == [] && delivered == old(delivered) && pending == old(pending)
      ensures old(delivered) < |stream| ==> entries == [old(delivered)] && delivered == old(delivered) + 1
                                            && pending == old(pending)[old(delivered) := Claim(consumer, now)]
    {
      entries := ReadNew(consumer, 1, now);
    }

    // The server's scan for XAUTOCLAIM, from the smallest id.
    method Scan(idle: int, count: nat, now: int) returns (entries: seq<nat>)
      requires Valid()
      ensures |entries| <= count
      ensures forall k, m :: 0 <= k < m < |entries| ==> entries[k] < entries[m]
      ensures forall e: nat :: e in entries <==> Found(pending, e, idle, count, now)
      ensures forall k :: 0 <= k < |entries| ==> Found(pending, entries[k], idle, count, now)
    {
      entries := [];
      var e, examined := 0, 0;
      NothingBelow(pending, idle, now);
      // What these say is read off the lemmas.
      hide PendingBelow, StaleBelow;
      while e < delivered && |entries| < count && examined < SCAN_FACTOR * count
        invariant 0 <= e <= delivered && |entries| <= count
        invariant examined == |PendingBelow(pending, e)| && |entries| == |StaleBelow(pending, e, idle, now)|
        invariant forall k, m :: 0 <= k < m < |entries| ==> entries[k] < entries[m] < e
        invariant forall k :: 0 <= k < |entries| ==> entries[k] < e && Found(pending, entries[k], idle, count, now)
        invariant forall d: nat :: d < e && Stale(pending, d, idle, now) ==> d in entries
        decreases delivered - e
      {
        OnePendingMore(pending, e);
        OneStaleMore(pending, e, idle, now);
        if Stale(pending, e, idle, now) {
          entries := entries + [e];
        }
        if e in pending {
          examined := examined + 1;
        }
        e := e + 1;
      }
      forall d: nat | Found(pending, d, idle, count, now)
        ensures d in entries
      {
        assert d in pending.Keys + acked;
        if d >= e {
          MoreBelow(pending, e, d, idle, now);
        }
      }
    }

    // XAUTOCLAIM: the entries found become this consumer's with their idle time reset.
    // Nothing leaves or enters the pending list.
    method Reclaim(consumer: string, idle: int, count: nat, now: int) returns (entries: seq<nat>)
      requires Valid()
      modifies this`pending
      ensures Valid() && pending.Keys == old(pending).Keys
      ensures |entries| <= count
      ensures forall k, m :: 0 <= k < m < |entries| ==> entries[k] < entries[m]
      ensures forall e: nat :: e in entries <==> Found(old(pending), e, idle, count, now)
      ensures forall k :: 0 <= k < |entries| ==> entries[k] in pending
      ensures forall e :: e in pending ==> pending[e] == if e in entries then Claim(consumer, now) else old(pending)[e]
      // A claim that is younger stays, and a short list keeps no older one.
      ensures forall e :: e in pending && now - old(pending)[e].since < idle ==> pending[e] == old(pending)[e]
      ensures |old(pending)| <= count ==>
                forall e :: e in pending && now - old(pending)[e].since >= idle ==> pending[e] == Claim(consumer, now)
    {
      FoundIsIdle(pending, idle, count, now);
      // What this says is read off the lemma.
      hide Found;
      entries := Scan(idle, count, now);
      for k := 0 to |entries|
        invariant pending.Keys == old(pending).Keys
        invariant forall e :: e in pending ==> pending[e] == if e in entries[..k] then Claim(consumer, now) else old(pending)[e]
      {
        pending := pending[entries[k] := Claim(consumer, now)];
      }
      assert entries[..|entries|] == entries;
    }

    // XACK: whoever holds the entry; an entry that is not pending is ignored.
    method Ack(entry: nat)
      requires Valid()
      modifies this`pending, this`acked
      ensures Valid()
      ensures pending == old(pending) - {entry}
      ensures acked == if entry in old(pending) then old(acked) + {entry} else old(acked)
    {
      if entry in pending {
        acked := acked + {entry};
      }
      pending := pending - {entry};
    }
  }

  ghost function Below(n: nat): (s: set<nat>)
    ensures forall e: nat :: e in s <==> e < n
  {
    if n == 0 then {}
    else Below(n - 1) + {n - 1}
  }
}
