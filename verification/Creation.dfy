/**
 Creating an import: the upload loop, and concurrent requests that race on an
 idempotency key between their select, insert, recovery and enqueue.
 */
module Creation {
  import opened Common
  import Queue

  // ---------- The upload loop ----------

  type Bytes = seq<int>

  // What reading to the end of the upload yields: the chunks before the first empty one.
  function Content(chunks: seq<Bytes>): Bytes {
    if chunks == [] || chunks[0] == [] then [] else chunks[0] + Content(chunks[1..])
  }

  datatype Upload = BadName | TooLarge | Empty | Stored(content: Bytes)

  class Disk {
    var files: map<JobId, Bytes>

    constructor ()
      ensures files == map[]
    {
      files := map[];
    }

    method Write(path: JobId, content: Bytes)
      modifies this
      ensures files == old(files)[path := content]
    {
      files := files[path := content];
    }

    method Unlink(path: JobId)
      modifies this
      ensures files == old(files) - {path}
    {
      files := files - {path};
    }

    // Streams the upload to a new file, chunk by chunk. A file survives exactly when its
    // content is neither empty nor over the limit.
    method Store(path: JobId, nameOk: bool, chunks: seq<Bytes>, max: nat) returns (result: Upload)
      requires path !in files
      modifies this
      ensures result == if !nameOk then BadName
                        else if |Content(chunks)| > max then TooLarge
                        else if Content(chunks) == [] then Empty
                        else Stored(Content(chunks))
      ensures files == if result.Stored? then old(files)[path := result.content] else old(files)
    {
      if !nameOk {
        return BadName;
      }
      var written, bytesWritten, i := [], 0, 0;
      Write(path, written);
      while i < |chunks| && chunks[i] != []
        invariant 0 <= i <= |chunks|
        invariant Content(chunks) == written + Content(chunks[i..])
        invariant bytesWritten == |written| <= max
        invariant files == old(files)[path := written]
        decreases |chunks| - i
      {
        bytesWritten := bytesWritten + |chunks[i]|;
        assert chunks[i..][1..] == chunks[i + 1..];
        if bytesWritten > max {
          Unlink(path);
          assert files == old(files);
          return TooLarge;
        }
        written := written + chunks[i];
        Write(path, written);
        i := i + 1;
      }
      assert Content(chunks[i..]) == [];
      if bytesWritten == 0 {
        Unlink(path);
        assert files == old(files);
        return Empty;
      }
      return Stored(written);
    }
  }

  // The key a request is recognised by; an empty header counts as none.
  function KeyOf(header: Option<string>, digest: string, client: string): string {
    if header.Some? && header.value != "" then header.value else "content:" + digest + ":" + client
  }

  // ---------- Racing requests ----------

  datatype Phase =
    | Uploaded             // file stored, key known
    | Found(job: JobId)    // the select returned this job: about to unlink
    | Missing              // the select returned nothing: about to insert
    | Conflicted           // the insert hit the unique constraint, rolled back
    | Unlinked             // about to select the winner
    | Committed            // row committed: about to enqueue
    | Enqueued             // about to respond
    | Answered(job: JobId) // responded
    | Dead                 // crashed, or failed with a server error

  // The request's own job id is also its file's name.
  datatype Request = Request(job: JobId, key: string, phase: Phase)

  datatype State = State(
    jobs: map<string, JobId>,       // committed rows by idempotency key
    files: set<JobId>,
    queue: seq<JobId>,
    requests: map<int, Request>
  )

  const NOTHING := State(map[], {}, [], map[])

  datatype Action =
    | Receive(request: int, job: JobId, key: string)
    | Select(request: int)
    | Unlink(request: int)
    | Insert(request: int)
    | SelectWinner(request: int)
    | Enqueue(request: int)
    | Respond(request: int)
    | Crash(request: int)

  predicate At(s: State, r: int, phase: Phase) {
    r in s.requests && s.requests[r].phase == phase
  }

  predicate Enabled(s: State, a: Action) {
    match a
    // Job ids are drawn so that no two requests share one.
    case Receive(r, job, key) => r !in s.requests && forall q :: q in s.requests ==> s.requests[q].job != job
    case Select(r) => At(s, r, Uploaded)
    case Unlink(r) => r in s.requests && (s.requests[r].phase.Found? || s.requests[r].phase.Conflicted?)
    case Insert(r) => At(s, r, Missing)
    case SelectWinner(r) => At(s, r, Unlinked)
    case Enqueue(r) => At(s, r, Committed)
    case Respond(r) => At(s, r, Enqueued)
    case Crash(r) => r in s.requests && !s.requests[r].phase.Answered?
  }

  function To(s: State, r: int, phase: Phase): State
    requires r in s.requests
  {
    s.(requests := s.requests[r := s.requests[r].(phase := phase)])
  }

  function Next(s: State, a: Action): State
    requires Enabled(s, a)
  {
    match a
    case Receive(r, job, key) => s.(files := s.files + {job}, requests := s.requests[r := Request(job, key, Uploaded)])
    case Select(r) => To(s, r, if s.requests[r].key in s.jobs then Found(s.jobs[s.requests[r].key]) else Missing)
    case Unlink(r) =>
      var me := s.requests[r];
      // A retry answers with the job its first select found; a loser has yet to look.
      var after := if me.phase.Found? then Answered(me.phase.job) else Unlinked;
      To(s, r, after).(files := s.files - {me.job})
    case Insert(r) =>
      var me := s.requests[r];
      if me.key in s.jobs then To(s, r, Conflicted)
      else To(s, r, Committed).(jobs := s.jobs[me.key := me.job])
    case SelectWinner(r) =>
      var me := s.requests[r];
      // scalar_one raises when there is no row.
      To(s, r, if me.key in s.jobs then Answered(s.jobs[me.key]) else Dead)
    case Enqueue(r) => To(s, r, Enqueued).(queue := s.queue + [s.requests[r].job])
    case Respond(r) => To(s, r, Answered(s.requests[r].job))
    case Crash(r) => To(s, r, Dead)
  }

  ghost predicate Run(s: State, actions: seq<Action>, final: State)
    decreases |actions|
  {
    if actions == [] then s == final
    else Enabled(s, actions[0]) && Run(Next(s, actions[0]), actions[1..], final)
  }

  ghost predicate Reachable(s: State) {
    exists actions :: Run(NOTHING, actions, s)
  }

  // ---------- The invariant ----------

  predicate Owns(s: State, r: int)
    requires r in s.requests
  {
    s.requests[r].key in s.jobs && s.jobs[s.requests[r].key] == s.requests[r].job
  }

  predicate RequestOk(s: State, r: int)
    requires r in s.requests
  {
    var me := s.requests[r];
    && (Owns(s, r) ==> me.job in s.files)
    && match me.phase
       case Uploaded => !Owns(s, r) && me.job in s.files && me.job !in s.queue
       case Missing => !Owns(s, r) && me.job in s.files && me.job !in s.queue
       case Found(job) => !Owns(s, r) && me.key in s.jobs && s.jobs[me.key] == job && me.job in s.files && me.job !in s.queue
       case Conflicted => !Owns(s, r) && me.key in s.jobs && me.job in s.files && me.job !in s.queue
       case Unlinked => !Owns(s, r) && me.key in s.jobs && me.job !in s.files && me.job !in s.queue
       case Committed => Owns(s, r) && me.job !in s.queue
       case Enqueued => Owns(s, r) && me.job in s.queue
       case Answered(job) => me.key in s.jobs && s.jobs[me.key] == job
                             && (me.job in s.files <==> Owns(s, r)) && (me.job in s.queue <==> Owns(s, r))
       case Dead => me.job in s.queue ==> Owns(s, r)
  }

  predicate Consistent(s: State) {
    && (forall r :: r in s.requests ==> RequestOk(s, r))
    && (forall q, r :: q in s.requests && r in s.requests && q != r ==> s.requests[q].job != s.requests[r].job)
    && (forall k :: k in s.jobs ==> Submitted(s, s.jobs[k], k))
    && (forall f :: f in s.files ==> Uploader(s, f))
    && (forall i :: 0 <= i < |s.queue| ==> Uploader(s, s.queue[i]))
    && (forall i, m :: 0 <= i < m < |s.queue| ==> s.queue[i] != s.queue[m])
  }

  // Some request brought this job id.
  predicate Uploader(s: State, job: JobId) {
    exists r :: r in s.requests && s.requests[r].job == job
  }

  predicate Submitted(s: State, job: JobId, key: string) {
    exists r :: r in s.requests && s.requests[r].job == job && s.requests[r].key == key
  }

  // ---------- Each step keeps it ----------

  // Requests keep their job id and key.
  predicate SameRequests(s: State, s': State) {
    && s.requests.Keys <= s'.requests.Keys
    && forall r :: r in s.requests ==> s'.requests[r].job == s.requests[r].job && s'.requests[r].key == s.requests[r].key
  }

  lemma ProvenanceKept(s: State, s': State, job: JobId, key: string)
    requires SameRequests(s, s')
    ensures Uploader(s, job) ==> Uploader(s', job)
    ensures Submitted(s, job, key) ==> Submitted(s', job, key)
  {
    if r :| r in s.requests && s.requests[r].job == job {
      assert r in s'.requests && s'.requests[r].job == job;
    }
    if r :| r in s.requests && s.requests[r].job == job && s.requests[r].key == key {
      assert r in s'.requests && s'.requests[r].job == job && s'.requests[r].key == key;
    }
  }

  // Another request's step does not disturb request q.
  lemma BystanderStaysOk(s: State, a: Action, q: int)
    requires Consistent(s) && Enabled(s, a) && q in s.requests && q != a.request
    ensures q in Next(s, a).requests && RequestOk(Next(s, a), q)
  {
    assert RequestOk(s, q);
    if a.request in s.requests {
      assert s.requests[a.request].job != s.requests[q].job;
      assert RequestOk(s, a.request);
    }
  }

  lemma ActorStaysOk(s: State, a: Action)
    requires Consistent(s) && Enabled(s, a)
    ensures a.request in Next(s, a).requests && RequestOk(Next(s, a), a.request)
  {
    if a.Receive? {
      assert a.key in s.jobs ==> Submitted(s, s.jobs[a.key], a.key);
      forall i | 0 <= i < |s.queue|
        ensures s.queue[i] != a.job
      {
        assert Uploader(s, s.queue[i]);
      }
    } else {
      assert RequestOk(s, a.request);
    }
  }

  lemma ProvenanceStaysOk(s: State, a: Action)
    requires Consistent(s) && Enabled(s, a)
    ensures var s' := Next(s, a);
            && (forall k :: k in s'.jobs ==> Submitted(s', s'.jobs[k], k))
            && (forall f :: f in s'.files ==> Uploader(s', f))
            && (forall i :: 0 <= i < |s'.queue| ==> Uploader(s', s'.queue[i]))
  {
    var s' := Next(s, a);
    assert SameRequests(s, s');
    assert a.request in s'.requests;
    forall k | k in s'.jobs
      ensures Submitted(s', s'.jobs[k], k)
    {
      if k in s.jobs && s'.jobs[k] == s.jobs[k] {
        ProvenanceKept(s, s', s.jobs[k], k);
      } else {
        assert s'.requests[a.request].job == s'.jobs[k] && s'.requests[a.request].key == k;
      }
    }
    forall f | f in s'.files
      ensures Uploader(s', f)
    {
      if f in s.files {
        ProvenanceKept(s, s', f, "");
      } else {
        assert s'.requests[a.request].job == f;
      }
    }
    forall i | 0 <= i < |s'.queue|
      ensures Uploader(s', s'.queue[i])
    {
      if i < |s.queue| {
        ProvenanceKept(s, s', s.queue[i], "");
        assert s'.queue[i] == s.queue[i];
      } else {
        assert s'.requests[a.request].job == s'.queue[i];
      }
    }
  }

  lemma StepKeepsConsistent(s: State, a: Action)
    requires Consistent(s) && Enabled(s, a)
    ensures Consistent(Next(s, a))
  {
    // Nothing here depends on what these say.
    hide Submitted, Uploader;
    var s' := Next(s, a);
    ActorStaysOk(s, a);
    forall q | q in s'.requests
      ensures RequestOk(s', q)
    {
      if q != a.request {
        BystanderStaysOk(s, a, q);
      }
    }
    ProvenanceStaysOk(s, a);
    if a.Enqueue? {
      assert RequestOk(s, a.request);
    }
  }

  lemma {:induction false} RunKeepsConsistent(s: State, actions: seq<Action>, final: State)
    requires Consistent(s) && Run(s, actions, final)
    ensures Consistent(final)
    decreases |actions|
  {
    if actions != [] {
      StepKeepsConsistent(s, actions[0]);
      RunKeepsConsistent(Next(s, actions[0]), actions[1..], final);
    }
  }

  lemma ReachableIsConsistent(s: State)
    requires Reachable(s)
    ensures Consistent(s)
  {
    var actions :| Run(NOTHING, actions, s);
    RunKeepsConsistent(NOTHING, actions, s);
  }

  // ---------- What callers get ----------

  // Every response to a key names the same job, the one committed under it.
  lemma OneJobPerKey(s: State, q: int, r: int)
    requires Reachable(s) && q in s.requests && r in s.requests && s.requests[q].key == s.requests[r].key
    requires s.requests[q].phase.Answered? && s.requests[r].phase.Answered?
    ensures s.requests[q].phase.job == s.requests[r].phase.job
    ensures s.requests[q].key in s.jobs && s.jobs[s.requests[q].key] == s.requests[q].phase.job
  {
    ReachableIsConsistent(s);
    assert RequestOk(s, q) && RequestOk(s, r);
  }

  // And responses to different keys name different jobs.
  lemma AnsweredAlikeIff(s: State, q: int, r: int)
    requires Reachable(s) && q in s.requests && r in s.requests
    requires s.requests[q].phase.Answered? && s.requests[r].phase.Answered?
    ensures s.requests[q].phase.job == s.requests[r].phase.job <==> s.requests[q].key == s.requests[r].key
  {
    ReachableIsConsistent(s);
    assert RequestOk(s, q) && RequestOk(s, r);
    if s.requests[q].phase.job == s.requests[r].phase.job {
      var job, k, m := s.requests[q].phase.job, s.requests[q].key, s.requests[r].key;
      assert Submitted(s, job, k) && Submitted(s, job, m);
    }
  }

  // Two keys made of contents and clients, with digests of one length, are equal only if
  // both parts are.
  lemma ContentKeysDiffer(digest: string, client: string, digest': string, client': string)
    requires |digest| == |digest'|
    requires "content:" + digest + ":" + client == "content:" + digest' + ":" + client'
    ensures digest == digest' && client == client'
  {
    var n, key, key' := |"content:"|, "content:" + digest + ":" + client, "content:" + digest' + ":" + client';
    assert digest == key[n..n + |digest|] && digest' == key'[n..n + |digest'|];
    assert client == key[n + |digest| + 1..] && client' == key'[n + |digest'| + 1..];
  }

  predicate Given(header: Option<string>) {
    header.Some? && header.value != ""
  }

  // Two answered requests with headers are answered alike if and only if the headers are
  // equal, whoever sent them and whatever the files; two without, if and only if content
  // digest and client are; and one with a header is answered like one without only if
  // the header spells the other's key.
  lemma RetriesAreAnsweredAlike(s: State, q: int, header: Option<string>, digest: string, client: string,
                                r: int, header': Option<string>, digest': string, client': string)
    requires Reachable(s) && q in s.requests && r in s.requests
    requires s.requests[q].phase.Answered? && s.requests[q].key == KeyOf(header, digest, client)
    requires s.requests[r].phase.Answered? && s.requests[r].key == KeyOf(header', digest', client')
    ensures var alike := s.requests[q].phase.job == s.requests[r].phase.job;
            && (Given(header) && Given(header') ==> (alike <==> header == header'))
            && (!Given(header) && !Given(header') && |digest| == |digest'| ==> (alike <==> digest == digest' && client == client'))
            && (Given(header) && !Given(header') ==> (alike <==> header.value == "content:" + digest' + ":" + client'))
  {
    AnsweredAlikeIff(s, q, r);
    if !Given(header) && !Given(header') && |digest| == |digest'| && s.requests[q].key == s.requests[r].key {
      ContentKeysDiffer(digest, client, digest', client');
    }
  }

  // The select after a conflict always finds the winner: no loser dies of it.
  lemma LoserFindsTheWinner(s: State, r: int)
    requires Reachable(s) && Enabled(s, SelectWinner(r))
    ensures Next(s, SelectWinner(r)).requests[r].phase.Answered?
  {
    ReachableIsConsistent(s);
    assert RequestOk(s, r);
  }

  // A job is enqueued only after its row is committed, and at most once: what the import
  // protocol asks of its producers.
  lemma EnqueueIsCommittedAndSingle(s: State, r: int)
    requires Reachable(s) && Enabled(s, Enqueue(r))
    ensures s.requests[r].key in s.jobs && s.jobs[s.requests[r].key] == s.requests[r].job
    ensures s.requests[r].job !in s.queue
    ensures s.requests[r].job in s.files
  {
    ReachableIsConsistent(s);
    assert RequestOk(s, r);
  }

  // The request that created a job and was answered has enqueued it, once.
  lemma AnsweredCreatorHasEnqueued(s: State, r: int)
    requires Reachable(s) && r in s.requests && s.requests[r].phase == Answered(s.requests[r].job)
    ensures multiset(s.queue)[s.requests[r].job] == 1
  {
    ReachableIsConsistent(s);
    assert RequestOk(s, r);
    DistinctCountOnce(s.queue, s.requests[r].job);
  }

  // When the creator dies before its enqueue, no retry of the request and no other ever
  // enqueues the job, however the run goes on, although every retry is answered with it.
  lemma {:induction false} AbandonedJobIsNeverEnqueued(s: State, r: int, actions: seq<Action>, final: State)
    requires Consistent(s) && At(s, r, Dead) && s.requests[r].job !in s.queue && Run(s, actions, final)
    ensures At(final, r, Dead) && final.requests[r].job == s.requests[r].job && s.requests[r].job !in final.queue
    decreases |actions|
  {
    if actions != [] {
      StepKeepsConsistent(s, actions[0]);
      AbandonedJobIsNeverEnqueued(Next(s, actions[0]), r, actions[1..], final);
    }
  }

  lemma {:induction false} DistinctCountOnce(queue: seq<JobId>, job: JobId)
    requires forall i, m :: 0 <= i < m < |queue| ==> queue[i] != queue[m]
    ensures multiset(queue)[job] == if job in queue then 1 else 0
  {
    if queue != [] {
      var front, last := queue[..|queue| - 1], queue[|queue| - 1];
      assert queue == front + [last];
      DistinctCountOnce(front, job);
      assert last !in front;
    }
  }

  // A committed job's file is there whatever else happens, crashes included; and when
  // every request has been answered, those are the only files.
  lemma FilesAreTheCommittedOnes(s: State)
    requires Reachable(s)
    ensures s.jobs.Values <= s.files
    ensures (forall r :: r in s.requests ==> s.requests[r].phase.Answered?) ==> s.files == s.jobs.Values
  {
    ReachableIsConsistent(s);
    forall job | job in s.jobs.Values
      ensures job in s.files
    {
      var k :| k in s.jobs && s.jobs[k] == job;
      assert Submitted(s, job, k);
      var r :| r in s.requests && s.requests[r].job == job && s.requests[r].key == k;
      assert RequestOk(s, r) && Owns(s, r);
    }
    if forall r :: r in s.requests ==> s.requests[r].phase.Answered? {
      forall f | f in s.files
        ensures f in s.jobs.Values
      {
        assert Uploader(s, f);
        var r :| r in s.requests && s.requests[r].job == f;
        assert RequestOk(s, r);
      }
    }
  }

  // ---------- One request as a program ----------

  // The committed import_jobs rows by their unique key.
  class JobTable {
    var byKey: map<string, JobId>

    constructor ()
      ensures byKey == map[]
    {
      byKey := map[];
    }

    method Select(key: string) returns (job: Option<JobId>)
      ensures job == if key in byKey then Some(byKey[key]) else None
    {
      job := None;
      if key in byKey {
        job := Some(byKey[key]);
      }
    }

    method Insert(key: string, job: JobId) returns (inserted: bool)
      modifies this
      ensures inserted <==> key !in old(byKey)
      ensures byKey == if inserted then old(byKey)[key := job] else old(byKey)
    {
      inserted := key !in byKey;
      if inserted {
        byKey := byKey[key := job];
      }
    }
  }

  ghost predicate IsStateOf(s: State, disk: Disk, table: JobTable, group: Queue.ConsumerGroup)
    reads disk, table, group
  {
    s.jobs == table.byKey && s.files == disk.files.Keys && s.queue == group.stream && group.Valid()
  }

  datatype Response =
    | BadRequest(reason: Upload)
    | Accepted(job: JobId, existing: bool)
    | ServerError

  lemma RunThenStep(s: State, actions: seq<Action>, mid: State, a: Action)
    requires Run(s, actions, mid) && Enabled(mid, a)
    ensures Run(s, actions + [a], Next(mid, a))
    decreases |actions|
  {
    if actions == [] {
      assert [a][1..] == [] && Run(Next(mid, a), [], Next(mid, a));
    } else {
      RunThenStep(Next(s, actions[0]), actions[1..], mid, a);
      assert (actions + [a])[1..] == actions[1..] + [a];
    }
  }

  // A run from s, and the state it leads to.
  datatype Track = Track(actions: seq<Action>, s: State)

  // Whatever other requests do between two steps of request r. Callers know the contract
  // alone, so what is proved of them holds for every such interference; doing nothing is
  // the least of it.
  method OtherRequests(disk: Disk, table: JobTable, group: Queue.ConsumerGroup, ghost s: State, ghost r: int)
    returns (ghost others: seq<Action>, ghost s': State)
    requires IsStateOf(s, disk, table, group)
    modifies disk, table, group
    ensures Run(s, others, s') && IsStateOf(s', disk, table, group)
    ensures forall k :: 0 <= k < |others| ==> others[k].request != r
    // A file is written by the request that brought its id, and then only removed.
    ensures forall f :: f in old(disk.files) && f in disk.files ==> disk.files[f] == old(disk.files)[f]
  {
    others, s' := [], s;
  }

  lemma {:induction false} OthersLeaveRequestAlone(s: State, others: seq<Action>, s': State, r: int)
    requires Run(s, others, s') && r in s.requests && forall k :: 0 <= k < |others| ==> others[k].request != r
    ensures r in s'.requests && s'.requests[r] == s.requests[r]
    decreases |others|
  {
    if others != [] {
      forall k | 0 <= k < |others[1..]|
        ensures others[1..][k].request != r
      {
        assert others[1..][k] == others[k + 1];
      }
      OthersLeaveRequestAlone(Next(s, others[0]), others[1..], s', r);
    }
  }

  lemma {:induction false} RunThenRun(s: State, first: seq<Action>, mid: State, rest: seq<Action>, final: State)
    requires Run(s, first, mid) && Run(mid, rest, final)
    ensures Run(s, first + rest, final)
    decreases |first|
  {
    if first == [] {
      assert first + rest == rest;
    } else {
      RunThenRun(Next(s, first[0]), first[1..], mid, rest, final);
      assert (first + rest)[1..] == first[1..] + rest;
    }
  }

  // The run so far led to the state of the disk, the table and the stream, in which this
  // request stands where `me` says.
  ghost predicate Follows(s: State, t: Track, r: int, me: Request, disk: Disk, table: JobTable, group: Queue.ConsumerGroup)
    reads disk, table, group
  {
    && Run(s, t.actions, t.s) && IsStateOf(t.s, disk, table, group) && Consistent(t.s)
    && r in t.s.requests && t.s.requests[r] == me
  }

  // The others' turn.
  method Yield(disk: Disk, table: JobTable, group: Queue.ConsumerGroup, ghost s: State, ghost t: Track, ghost r: int, ghost me: Request)
    returns (ghost t': Track)
    requires Follows(s, t, r, me, disk, table, group)
    modifies disk, table, group
    ensures Follows(s, t', r, me, disk, table, group) && RequestOk(t'.s, r)
    ensures forall f :: f in old(disk.files) && f in disk.files ==> disk.files[f] == old(disk.files)[f]
  {
    ghost var others, s';
    others, s' := OtherRequests(disk, table, group, t.s, r);
    OthersLeaveRequestAlone(t.s, others, s', r);
    RunThenRun(s, t.actions, t.s, others, s');
    RunKeepsConsistent(t.s, others, s');
    t' := Track(t.actions + others, s');
  }

  ghost method Step(s: State, t: Track, a: Action) returns (t': Track)
    requires Run(s, t.actions, t.s) && Enabled(t.s, a) && Consistent(t.s)
    ensures t' == Track(t.actions + [a], Next(t.s, a)) && Run(s, t'.actions, t'.s) && Consistent(t'.s)
  {
    RunThenStep(s, t.actions, t.s, a);
    StepKeepsConsistent(t.s, a);
    t' := Track(t.actions + [a], Next(t.s, a));
  }

  // A retry discards its file and answers with the job it found.
  method AnswerExisting(disk: Disk, table: JobTable, group: Queue.ConsumerGroup, id: JobId, key: string, found: JobId,
                        ghost s: State, ghost t: Track, ghost r: int)
    returns (ghost t': Track)
    requires Follows(s, t, r, Request(id, key, Found(found)), disk, table, group)
    modifies disk, table, group
    ensures Follows(s, t', r, Request(id, key, Answered(found)), disk, table, group) && found != id
    ensures id in disk.files ==> id in old(disk.files) && disk.files[id] == old(disk.files)[id]
  {
    t' := Yield(disk, table, group, s, t, r, Request(id, key, Found(found)));
    disk.Unlink(id);
    t' := Step(s, t', Unlink(r));
  }

  // A request that lost the race discards its file and looks for the winner.
  method AnswerWinner(disk: Disk, table: JobTable, group: Queue.ConsumerGroup, id: JobId, key: string,
                      ghost s: State, ghost t: Track, ghost r: int)
    returns (winner: JobId, ghost t': Track)
    requires Follows(s, t, r, Request(id, key, Conflicted), disk, table, group)
    modifies disk, table, group
    ensures Follows(s, t', r, Request(id, key, Answered(winner)), disk, table, group) && winner != id
    ensures id in disk.files ==> id in old(disk.files) && disk.files[id] == old(disk.files)[id]
  {
    t' := Yield(disk, table, group, s, t, r, Request(id, key, Conflicted));
    disk.Unlink(id);
    t' := Step(s, t', Unlink(r));
    t' := Yield(disk, table, group, s, t', r, Request(id, key, Unlinked));
    var found := table.Select(key);
    winner := found.value;
    t' := Step(s, t', SelectWinner(r));
  }

  // What the winner does once its entry is in the stream.
  method ConcludeEnqueued(disk: Disk, table: JobTable, group: Queue.ConsumerGroup, id: JobId, key: string, heard: bool,
                          ghost s: State, ghost t: Track, ghost r: int)
    returns (response: Response, ghost t': Track)
    requires Follows(s, t, r, Request(id, key, Enqueued), disk, table, group)
    modifies disk, table, group
    ensures response == if heard then Accepted(id, false) else ServerError
    ensures Follows(s, t', r, Request(id, key, if heard then Answered(id) else Dead), disk, table, group)
    ensures id in disk.files ==> id in old(disk.files) && disk.files[id] == old(disk.files)[id]
    ensures !heard ==> id in disk.files && key in table.byKey && table.byKey[key] == id && id in group.stream
  {
    t' := Yield(disk, table, group, s, t, r, Request(id, key, Enqueued));
    if heard {
      t' := Step(s, t', Respond(r));
      response := Accepted(id, false);
    } else {
      t' := Step(s, t', Crash(r));
      response := ServerError;
    }
  }

  // The winner enqueues its job; unless it hears back the request fails, whether or not
  // the entry was added.
  method EnqueueOwn(disk: Disk, table: JobTable, group: Queue.ConsumerGroup, id: JobId, key: string, sending: Sending,
                    ghost s: State, ghost t: Track, ghost r: int)
    returns (response: Response, ghost t': Track)
    requires Follows(s, t, r, Request(id, key, Committed), disk, table, group)
    modifies disk, table, group
    ensures response == if sending.Heard? then Accepted(id, false) else ServerError
    ensures Follows(s, t', r, Request(id, key, if sending.Heard? then Answered(id) else Dead), disk, table, group)
    ensures id in disk.files ==> id in old(disk.files) && disk.files[id] == old(disk.files)[id]
    ensures !sending.Heard? ==> id in disk.files && key in table.byKey && table.byKey[key] == id
                                && (id in group.stream <==> sending.Unheard?)
  {
    t' := Yield(disk, table, group, s, t, r, Request(id, key, Committed));
    if sending.Unsent? {
      t' := Step(s, t', Crash(r));
      return ServerError, t';
    }
    t' := Step(s, t', Enqueue(r));
    var _ := group.Enqueue(id);
    response, t' := ConcludeEnqueued(disk, table, group, id, key, sending.Heard?, s, t', r);
  }

  // What a request that stored its file is answered, and what it leaves.
  ghost predicate Concluded(response: Response, sending: Sending, s: State, t: Track, r: int, id: JobId, key: string,
                            disk: Disk, table: JobTable, group: Queue.ConsumerGroup)
    reads disk, table, group
  {
    match response
    case BadRequest(_) => false
    case Accepted(job, existing) =>
      Follows(s, t, r, Request(id, key, Answered(job)), disk, table, group) && (existing <==> job != id)
    case ServerError =>
      && Follows(s, t, r, Request(id, key, Dead), disk, table, group)
      && !sending.Heard? && id in disk.files && key in table.byKey && table.byKey[key] == id
      && (id in group.stream <==> sending.Unheard?)
  }

  // The insert, its unique constraint, and what follows either way.
  method InsertOwn(disk: Disk, table: JobTable, group: Queue.ConsumerGroup, id: JobId, key: string, sending: Sending,
                   ghost s: State, ghost t: Track, ghost r: int)
    returns (response: Response, ghost t': Track)
    requires Follows(s, t, r, Request(id, key, Missing), disk, table, group)
    modifies disk, table, group
    ensures Concluded(response, sending, s, t', r, id, key, disk, table, group)
    ensures id in disk.files ==> id in old(disk.files) && disk.files[id] == old(disk.files)[id]
  {
    t' := Yield(disk, table, group, s, t, r, Request(id, key, Missing));
    var inserted := table.Insert(key, id);
    t' := Step(s, t', Insert(r));
    if inserted {
      response, t' := EnqueueOwn(disk, table, group, id, key, sending, s, t', r);
    } else {
      var winner;
      winner, t' := AnswerWinner(disk, table, group, id, key, s, t', r);
      response := Accepted(winner, true);
    }
  }

  // The part of create_import after the upload: from the first select on.
  method Register(disk: Disk, table: JobTable, group: Queue.ConsumerGroup, id: JobId, key: string, sending: Sending,
                  ghost s: State, ghost t: Track, ghost r: int)
    returns (response: Response, ghost t': Track)
    requires Follows(s, t, r, Request(id, key, Uploaded), disk, table, group)
    modifies disk, table, group
    ensures Concluded(response, sending, s, t', r, id, key, disk, table, group)
    ensures id in disk.files ==> id in old(disk.files) && disk.files[id] == old(disk.files)[id]
  {
    t' := Yield(disk, table, group, s, t, r, Request(id, key, Uploaded));
    var existing := table.Select(key);
    t' := Step(s, t', Select(r));
    if existing.Some? {
      t' := AnswerExisting(disk, table, group, id, key, existing.value, s, t', r);
      response := Accepted(existing.value, true);
    } else {
      response, t' := InsertOwn(disk, table, group, id, key, sending, s, t', r);
    }
  }

  lemma NewIdIsUnused(s: State, id: JobId)
    requires Consistent(s) && forall p :: p in s.requests ==> s.requests[p].job != id
    ensures id !in s.files && id !in s.queue
  {
    assert id in s.files ==> Uploader(s, id);
    forall i | 0 <= i < |s.queue|
      ensures s.queue[i] != id
    {
      assert Uploader(s, s.queue[i]);
    }
  }

  // create_import, for a request with a fresh id among the requests of state s: all of
  // them together perform a run.
  method CreateImport(disk: Disk, table: JobTable, group: Queue.ConsumerGroup, id: JobId, nameOk: bool, chunks: seq<Bytes>, max: nat,
                      header: Option<string>, digest: Bytes -> string, client: string, sending: Sending,
                      ghost s: State, ghost r: int)
    returns (response: Response, ghost t: Track)
    requires IsStateOf(s, disk, table, group) && Consistent(s)
    requires r !in s.requests && forall p :: p in s.requests ==> s.requests[p].job != id
    modifies disk, table, group
    ensures Run(s, t.actions, t.s) && IsStateOf(t.s, disk, table, group)
    // A refused upload leaves nothing behind.
    ensures response.BadRequest? <==> !nameOk || |Content(chunks)| > max || Content(chunks) == []
    ensures response.BadRequest? ==> t.s == s && disk.files == old(disk.files)
    ensures response.BadRequest? ==>
              response.reason == if !nameOk then BadName else if |Content(chunks)| > max then TooLarge else Empty
    // An accepted one is recognised by its header, if that is not empty, and by its
    // content and client otherwise; it is answered with the job committed under that key.
    ensures response.Accepted? && header.Some? && header.value != "" ==>
              && header.value in table.byKey && response.job == table.byKey[header.value]
              && r in t.s.requests && t.s.requests[r] == Request(id, header.value, Answered(response.job))
    ensures response.Accepted? && (header.None? || header.value == "") ==>
              var key := "content:" + digest(Content(chunks)) + ":" + client;
              && key in table.byKey && response.job == table.byKey[key]
              && r in t.s.requests && t.s.requests[r] == Request(id, key, Answered(response.job))
    // It leaves its file, with the content uploaded, and a stream entry exactly when that
    // job is its own.
    ensures response.Accepted? ==>
              && (response.existing <==> response.job != id)
              && (id in disk.files <==> !response.existing)
              && (id in group.stream <==> !response.existing)
    ensures !response.BadRequest? && id in disk.files ==> disk.files[id] == Content(chunks)
    // When the stream does not answer the job is there, and enqueued if the command got
    // through.
    ensures response.ServerError? ==> !sending.Heard? && id in disk.files && id in table.byKey.Values
                                      && (id in group.stream <==> sending.Unheard?)
  {
    NewIdIsUnused(s, id);
    var upload := disk.Store(id, nameOk, chunks, max);
    if !upload.Stored? {
      return BadRequest(upload), Track([], s);
    }
    var key := KeyOf(header, digest(upload.content), client);
    t := Step(s, Track([], s), Receive(r, id, key));
    response, t := Register(disk, table, group, id, key, sending, s, t, r);
    assert RequestOk(t.s, r);
  }
}
