/** Which jobs a worker takes on, and when it forgets them (internal/workerd/workerd.go). */
module Admission {
  import J = JobSections

  /** A job in the daemon's map, as far as admission looks at it. */
  datatype Entry = Running | Ended(at: int)

  type Jobs = map<string, Entry>

  /** A decoded request, and what the checks of its fields and of the disk say. */
  datatype Request = Request(id: string, wellFormed: bool, sameBuild: bool, warm: bool, dirMade: bool)

  datatype Response = BadRequest | Duplicate | AtCapacity | VersionMismatch | NotReady | Internal | Created

  function ActiveIn(ids: set<string>, jobs: Jobs): set<string> {
    set id | id in ids && id in jobs && jobs[id].Running?
  }

  function ActiveIds(jobs: Jobs): set<string> {
    ActiveIn(jobs.Keys, jobs)
  }

  /** The checks of handleCreateJob, in their order. */
  function Verdict(r: Request, jobs: Jobs, maxJobs: int): Response {
    if !r.wellFormed then BadRequest
    else if r.id in jobs then Duplicate
    else if |ActiveIds(jobs)| >= maxJobs then AtCapacity
    else if !r.sameBuild then VersionMismatch
    else if !r.warm then NotReady
    else if !r.dirMade then Internal
    else Created
  }

  /** The refusals in the order in which they are made, each with what it objects to. */
  function Objections(r: Request, jobs: Jobs, maxJobs: int): seq<(bool, Response)> {
    [(!r.wellFormed, BadRequest),
     (r.id in jobs, Duplicate),
     (|set id | id in jobs && jobs[id] == Running| >= maxJobs, AtCapacity),
     (!r.sameBuild, VersionMismatch),
     (!r.warm, NotReady),
     (!r.dirMade, Internal)]
  }

  /**
   * The response is the first refusal that applies, and the job is created exactly when none does: the
   * request is well formed, its id is new, fewer than max_jobs jobs run, the build is the worker's own
   * and provisioned, and the job dir could be made.
   */
  lemma FirstObjection(r: Request, jobs: Jobs, maxJobs: int)
    ensures
      var o := Objections(r, jobs, maxJobs);
      && (forall k :: 0 <= k < |o| ==>
            (Verdict(r, jobs, maxJobs) == o[k].1 <==> o[k].0 && forall j :: 0 <= j < k ==> !o[j].0))
      && (Verdict(r, jobs, maxJobs).Created? <==> forall k :: 0 <= k < |o| ==> !o[k].0)
  {
    var o := Objections(r, jobs, maxJobs);
    assert ActiveIds(jobs) == set id | id in jobs && jobs[id] == Running;
    var v := Verdict(r, jobs, maxJobs);
    if v.Created? {
      assert forall k :: 0 <= k < |o| ==> !o[k].0 && o[k].1 != v;
    } else {
      var k := match v case BadRequest => 0 case Duplicate => 1 case AtCapacity => 2
                       case VersionMismatch => 3 case NotReady => 4 case _ => 5;
      assert o[k].0 && o[k].1 == v && forall j :: 0 <= j < k ==> !o[j].0;
      assert forall j :: 0 <= j < |o| && j != k ==> o[j].1 != v;
    }
  }

  predicate Expired(e: Entry, now: int) {
    e.Ended? && now - e.at >= J.REAP_AGE
  }

  function Reaped(jobs: Jobs, now: int): Jobs {
    map id | id in jobs && !Expired(jobs[id], now) :: jobs[id]
  }

  class Daemon {
    const maxJobs: int
    var jobs: Jobs

    constructor (maxJobs: int)
      ensures jobs == map[] && this.maxJobs == maxJobs
    {
      this.maxJobs, jobs := maxJobs, map[];
    }

    /** activeJobsLocked: counts over the map in any order. */
    method ActiveJobs() returns (n: nat)
      ensures n == |ActiveIds(jobs)|
    {
      n := 0;
      var todo := jobs.Keys;
      while todo != {}
        invariant todo <= jobs.Keys
        invariant n + |ActiveIn(todo, jobs)| == |ActiveIds(jobs)|
        decreases todo
      {
        var id :| id in todo;
        assert ActiveIn(todo - {id}, jobs) == ActiveIn(todo, jobs) - {id};
        todo := todo - {id};
        if jobs[id].Running? {
          n := n + 1;
        }
      }
      assert ActiveIn({}, jobs) == {};
    }

    /** handleCreateJob, from the decoded request to the response. */
    method CreateJob(r: Request) returns (response: Response)
      modifies this
      ensures response == Verdict(r, old(jobs), maxJobs)
      ensures jobs == if response.Created? then old(jobs)[r.id := Running] else old(jobs)
    {
      if !r.wellFormed {
        return BadRequest;
      }
      if r.id in jobs {
        return Duplicate;
      }
      var n := ActiveJobs();
      if n >= maxJobs {
        return AtCapacity;
      }
      if !r.sameBuild {
        return VersionMismatch;
      }
      if !r.warm {
        return NotReady;
      }
      if !r.dirMade {
        return Internal;
      }
      jobs := jobs[r.id := Running];
      response := Created;
    }

    /** A job reaches a terminal state. */
    method EndJob(id: string, at: int)
      modifies this
      ensures jobs == if id in old(jobs) && old(jobs)[id].Running? then old(jobs)[id := Ended(at)] else old(jobs)
    {
      if id in jobs && jobs[id].Running? {
        jobs := jobs[id := Ended(at)];
      }
    }

    /** reapOnce: the map is changed while it is walked. */
    method ReapOnce(now: int) returns (expired: set<string>)
      modifies this
      ensures jobs == Reaped(old(jobs), now)
      ensures expired == old(jobs).Keys - jobs.Keys
    {
      expired := {};
      var todo := jobs.Keys;
      while todo != {}
        invariant todo <= old(jobs).Keys && expired !! todo
        invariant forall id :: id in old(jobs) && id !in todo ==> (id in expired <==> Expired(old(jobs)[id], now))
        invariant expired <= old(jobs).Keys
        invariant jobs == map id | id in old(jobs) && id !in expired :: old(jobs)[id]
        decreases todo
      {
        var id :| id in todo;
        todo := todo - {id};
        if Expired(jobs[id], now) {
          expired := expired + {id};
          jobs := jobs - {id};
        }
      }
    }
  }

  // ---- over all runs ----

  datatype Op = Create(r: Request) | End(id: string, at: int) | Reap(now: int)

  function Apply(jobs: Jobs, op: Op, maxJobs: int): Jobs {
    match op
    case Create(r) => if Verdict(r, jobs, maxJobs).Created? then jobs[r.id := Running] else jobs
    case End(id, at) => if id in jobs && jobs[id].Running? then jobs[id := Ended(at)] else jobs
    case Reap(now) => Reaped(jobs, now)
  }

  function Run(ops: seq<Op>, maxJobs: int): Jobs {
    if ops == [] then map[] else Apply(Run(ops[..|ops| - 1], maxJobs), ops[|ops| - 1], maxJobs)
  }

  lemma SubsetSize<T>(a: set<T>, b: set<T>)
    requires a <= b
    ensures |a| <= |b|
  {
    var c := b - a;
    assert b == a + c;
  }

  lemma ActiveAfter(jobs: Jobs, op: Op, maxJobs: int)
    ensures op.Create? && Verdict(op.r, jobs, maxJobs).Created? ==>
              |ActiveIds(Apply(jobs, op, maxJobs))| == |ActiveIds(jobs)| + 1 <= maxJobs
    ensures !(op.Create? && Verdict(op.r, jobs, maxJobs).Created?) ==>
              ActiveIds(Apply(jobs, op, maxJobs)) <= ActiveIds(jobs)
  {
    if op.Create? && Verdict(op.r, jobs, maxJobs).Created? {
      assert ActiveIds(Apply(jobs, op, maxJobs)) == ActiveIds(jobs) + {op.r.id};
    }
  }

  /** However jobs come, end and are forgotten, the worker never runs more than max_jobs. */
  lemma {:induction false} NeverOverCapacity(ops: seq<Op>, maxJobs: nat)
    ensures |ActiveIds(Run(ops, maxJobs))| <= maxJobs
    decreases |ops|
  {
    if ops == [] {
      assert ActiveIds(Run(ops, maxJobs)) == {};
    } else {
      var jobs := Run(ops[..|ops| - 1], maxJobs);
      var op := ops[|ops| - 1];
      NeverOverCapacity(ops[..|ops| - 1], maxJobs);
      ActiveAfter(jobs, op, maxJobs);
      if !(op.Create? && Verdict(op.r, jobs, maxJobs).Created?) {
        SubsetSize(ActiveIds(Apply(jobs, op, maxJobs)), ActiveIds(jobs));
      }
    }
  }

  lemma StepForgets(jobs: Jobs, op: Op, maxJobs: int, id: string)
    requires id in jobs && id !in Apply(jobs, op, maxJobs)
    ensures op.Reap? && jobs[id].Ended? && op.now - jobs[id].at >= J.REAP_AGE
  {
  }

  /** An end on record is one that was reported. */
  lemma {:induction false} EndReported(ops: seq<Op>, maxJobs: int, id: string)
    requires id in Run(ops, maxJobs) && Run(ops, maxJobs)[id].Ended?
    ensures End(id, Run(ops, maxJobs)[id].at) in ops
    decreases |ops|
  {
    if ops != [] {
      var front := ops[..|ops| - 1];
      if id in Run(front, maxJobs) && Run(front, maxJobs)[id] == Run(ops, maxJobs)[id] {
        EndReported(front, maxJobs, id);
      } else {
        assert ops[|ops| - 1] == End(id, Run(ops, maxJobs)[id].at);
      }
    }
  }

  /**
   * An id that has left the map since it was in it was taken out by a reap, at a time when its job's
   * end, which was reported before, lay at least the reap age back.
   */
  lemma {:induction false} ForgetsOnlyOldEnded(ops: seq<Op>, n: nat, maxJobs: int, id: string) returns (k: nat, at: int)
    requires n <= |ops| && id in Run(ops[..n], maxJobs) && id !in Run(ops, maxJobs)
    ensures n <= k < |ops| && ops[k].Reap? && ops[k].now - at >= J.REAP_AGE
    ensures End(id, at) in ops[..k]
    decreases |ops|
  {
    assert ops[..|ops|] == ops;
    var front := ops[..|ops| - 1];
    if id in Run(front, maxJobs) {
      k := |ops| - 1;
      StepForgets(Run(front, maxJobs), ops[k], maxJobs, id);
      at := Run(front, maxJobs)[id].at;
      EndReported(front, maxJobs, id);
    } else {
      assert front[..n] == ops[..n];
      k, at := ForgetsOnlyOldEnded(front, n, maxJobs, id);
      assert front[..k] == ops[..k];
    }
  }

  /**
   * A job that runs keeps its place in the map until its end is reported, whatever else is asked,
   * ends or is reaped; and all that time its id is refused as a duplicate.
   */
  lemma {:induction false} RunningStays(ops: seq<Op>, n: nat, maxJobs: int, id: string)
    requires n <= |ops| && id in Run(ops[..n], maxJobs) && Run(ops[..n], maxJobs)[id].Running?
    requires forall k :: n <= k < |ops| ==> !(ops[k].End? && ops[k].id == id)
    ensures id in Run(ops, maxJobs) && Run(ops, maxJobs)[id].Running?
    ensures forall r: Request :: r.id == id && r.wellFormed ==> Verdict(r, Run(ops, maxJobs), maxJobs) == Duplicate
    decreases |ops|
  {
    if n == |ops| {
      assert ops[..n] == ops;
    } else {
      assert ops[..|ops| - 1][..n] == ops[..n];
      RunningStays(ops[..|ops| - 1], n, maxJobs, id);
    }
  }
}
