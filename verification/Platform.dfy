/**
 The API's requests and the import protocol as one system: what the requests write is
 what the protocol's job rows and stream are made of, over whole executions.
 */
module Platform {
  import opened Common
  import opened Protocol
  import Creation
  import Guarantees
  import Recovery

  datatype Whole = Whole(requests: Creation.State, imports: State)

  datatype Move =
    | OfRequest(request: Creation.Action)  // a step of a request
    | OfImport(step: Action)               // a step of the stream or of a worker

  // The protocol's job rows and stream are the ones the requests wrote.
  predicate Mirrors(x: Whole) {
    x.imports.db.jobs.Keys == x.requests.jobs.Values && x.imports.stream == x.requests.queue
  }

  // Uploads are files of this world. Job rows and entries come from requests alone.
  predicate CanMove(t: Tier, c: World, x: Whole, m: Move) {
    match m
    case OfRequest(a) => Creation.Enabled(x.requests, a) && (a.Receive? ==> a.job in c.files)
    case OfImport(a) => Allowed(t, c, x.imports, a) && !a.Create? && !a.Enqueue?
  }

  // What a request's step writes into the protocol's state, whatever that state is.
  function Effect(x: Whole, a: Creation.Action): State
    requires Creation.Enabled(x.requests, a)
  {
    var p := x.imports;
    match a
    case Insert(r) =>
      var me := x.requests.requests[r];
      if me.key in x.requests.jobs then p
      else p.(db := p.db.(jobs := p.db.jobs[me.job := NEW_JOB]), history := p.history[me.job := NO_HISTORY])
    case Enqueue(r) => p.(stream := p.stream + [x.requests.requests[r].job])
    case _ => p
  }

  function Moved(t: Tier, c: World, x: Whole, m: Move): Whole
    requires CanMove(t, c, x, m)
  {
    match m
    case OfRequest(a) => Whole(Creation.Next(x.requests, a), Effect(x, a))
    case OfImport(a) => x.(imports := Next(c, x.imports, a))
  }

  ghost predicate Execution(t: Tier, c: World, x: Whole, moves: seq<Move>, final: Whole)
    decreases |moves|
  {
    if moves == [] then x == final
    else CanMove(t, c, x, moves[0]) && Execution(t, c, Moved(t, c, x, moves[0]), moves[1..], final)
  }

  function Start(c: World): Whole {
    Whole(Creation.NOTHING, Initial(c))
  }

  // ---------- Every execution is a run of the protocol ----------

  predicate Consistent(c: World, x: Whole) {
    && Mirrors(x) && Creation.Consistent(x.requests)
    && forall r :: r in x.requests.requests ==> x.requests.requests[r].job in c.files
  }

  lemma InsertedIsNew(x: Whole, r: int)
    requires Creation.Consistent(x.requests) && Creation.Enabled(x.requests, Creation.Insert(r))
    requires x.requests.requests[r].key !in x.requests.jobs
    ensures x.requests.requests[r].job !in x.requests.jobs.Values
  {
    var s, job := x.requests, x.requests.requests[r].job;
    forall k | k in s.jobs
      ensures s.jobs[k] != job
    {
      assert Creation.Submitted(s, s.jobs[k], k);
    }
  }

  // A request's step is a step of the protocol that every tier allows, or none: an
  // insert creates a new job, and an enqueue is of a committed job not in the stream.
  lemma RequestsFeedTheProtocol(t: Tier, c: World, x: Whole, a: Creation.Action) returns (steps: seq<Action>)
    requires Consistent(c, x) && CanMove(t, c, x, OfRequest(a))
    ensures Run(t, c, x.imports, steps, Effect(x, a))
    ensures Consistent(c, Moved(t, c, x, OfRequest(a)))
  {
    // Nothing here depends on what these say.
    hide Creation.Submitted, Creation.Uploader;
    var p, r := x.imports, a.request;
    Creation.StepKeepsConsistent(x.requests, a);
    steps := [];
    if r in x.requests.requests {
      var me := x.requests.requests[r];
      assert Creation.RequestOk(x.requests, r);
      if a.Insert? && me.key !in x.requests.jobs {
        InsertedIsNew(x, r);
        steps := [Create(me.job)];
        ValuesWithOneMore(x.requests.jobs, me.key, me.job);
      } else if a.Enqueue? {
        assert x.requests.jobs[me.key] in x.requests.jobs.Values;
        steps := [Enqueue(me.job)];
      }
    }
    if steps != [] {
      assert Run(t, c, Effect(x, a), steps[1..], Effect(x, a));
    }
  }

  lemma ValuesWithOneMore(m: map<string, JobId>, key: string, job: JobId)
    requires key !in m
    ensures m[key := job].Values == m.Values + {job}
  {
    forall v | v in m.Values + {job}
      ensures v in m[key := job].Values
    {
      if v in m.Values {
        var k :| k in m && m[k] == v;
        assert m[key := job][k] == v;
      } else {
        assert m[key := job][key] == v;
      }
    }
  }

  lemma ImportsKeepMirrors(t: Tier, c: World, x: Whole, a: Action)
    requires Consistent(c, x) && CanMove(t, c, x, OfImport(a))
    ensures Consistent(c, Moved(t, c, x, OfImport(a)))
  {
  }

  lemma MoveIsARun(t: Tier, c: World, x: Whole, m: Move) returns (steps: seq<Action>)
    requires Consistent(c, x) && CanMove(t, c, x, m)
    ensures Run(t, c, x.imports, steps, Moved(t, c, x, m).imports) && Consistent(c, Moved(t, c, x, m))
  {
    match m
    case OfRequest(a) =>
      steps := RequestsFeedTheProtocol(t, c, x, a);
    case OfImport(a) =>
      var next := Moved(t, c, x, m);
      ImportsKeepMirrors(t, c, x, a);
      assert Run(t, c, next.imports, [], next.imports);
      Recovery.StepThenRun(t, c, x.imports, a, [], next.imports);
      steps := [a] + [];
  }

  lemma {:induction false} ExecutionIsARun(t: Tier, c: World, x: Whole, moves: seq<Move>, final: Whole) returns (steps: seq<Action>)
    requires Consistent(c, x) && Execution(t, c, x, moves, final)
    ensures Run(t, c, x.imports, steps, final.imports) && Consistent(c, final)
    decreases |moves|
  {
    if moves == [] {
      steps := [];
    } else {
      var next, rest := Moved(t, c, x, moves[0]), [];
      steps := MoveIsARun(t, c, x, moves[0]);
      rest := ExecutionIsARun(t, c, next, moves[1..], final);
      Recovery.RunThenRun(t, c, x.imports, steps, next.imports, rest, final.imports);
      steps := steps + rest;
    }
  }

  // Whatever the requests and the workers do, the protocol's state is one it reaches by
  // itself, so all that is proved of it holds of the platform.
  lemma PlatformReachesOnlyProtocolStates(t: Tier, c: World, moves: seq<Move>, x: Whole)
    requires Execution(t, c, Start(c), moves, x)
    ensures Reachable(t, c, x.imports) && Mirrors(x)
  {
    var steps := ExecutionIsARun(t, c, Start(c), moves, x);
  }

  // In no execution does a worker hold an entry whose job is not there: what is enqueued
  // was committed before.
  lemma NoExecutionDropsAnEntry(t: Tier, c: World, moves: seq<Move>, x: Whole)
    requires WorldOk(c) && Execution(t, c, Start(c), moves, x)
    ensures forall w :: w in x.imports.workers ==> !x.imports.workers[w].phase.Dropping?
                                                   && x.imports.workers[w].job in x.requests.jobs.Values
    ensures forall e :: 0 <= e < |x.imports.stream| ==> x.imports.stream[e] in x.requests.jobs.Values
  {
    PlatformReachesOnlyProtocolStates(t, c, moves, x);
    forall w | w in x.imports.workers
      ensures !x.imports.workers[w].phase.Dropping? && x.imports.workers[w].job in x.requests.jobs.Values
    {
      Guarantees.NoEntryIsDropped(t, c, x.imports, w);
    }
    Guarantees.EntriesHaveJobs(t, c, x.imports);
  }
}
