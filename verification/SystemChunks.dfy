/**
 * Where every chunk is: the accounting of accepted names, and the safety of their bytes, as
 * invariants of the step system.
 */
module SystemChunks {
  import opened Prelude
  import opened Protocol
  import opened JobSections
  import opened System

  // ---- accounting ----

  /** The name an upload worker has taken off the queue and not yet resolved. */
  function Held(u: Upload): Option<Name> {
    match u
    case Opening(n, _) => Some(n)
    case Sending(n, _) => Some(n)
    case BackingOff(n, _) => Some(n)
    case Pushed(n, _) => Some(n)
    case _ => None
  }

  ghost predicate Holds(up: map<nat, Upload>, w: nat, n: Name) {
    w in up && Held(up[w]) == Some(n)
  }

  function BusyWorkers(up: map<nat, Upload>): set<nat> {
    set w | w in up && Held(up[w]).Some?
  }

  ghost predicate InFlight(up: map<nat, Upload>, n: Name) {
    exists w :: Holds(up, w, n)
  }

  /** Completed names still on their way to the queue; none has been accepted before. */
  ghost predicate ReportsOk(w: Watch, accepted: set<Name>, done: map<Name, Bytes>) {
    && NoDup(w.events)
    && (forall i :: 0 <= i < |w.events| ==> w.events[i] in done && w.events[i] !in accepted)
    && (w.pc.Enqueuing? ==> w.pc.name in done && w.pc.name !in accepted && w.pc.name !in w.events)
    && (w.pc.NotWatching? ==> w.events == [] && !w.open)
  }

  ghost predicate Unresolved(n: Name, j: Job, failed: set<Name>, accepted: set<Name>) {
    n in accepted && n !in j.acked && n !in failed
  }

  ghost predicate QueueOk(q: seq<Name>, j: Job, failed: set<Name>, accepted: set<Name>) {
    && NoDup(q)
    && (forall i :: 0 <= i < |q| ==> Unresolved(q[i], j, failed, accepted))
  }

  ghost predicate WorkersOk(up: map<nat, Upload>, q: seq<Name>, j: Job, failed: set<Name>, accepted: set<Name>) {
    && (forall w, n :: Holds(up, w, n) ==> Unresolved(n, j, failed, accepted) && n !in q)
    && (forall w1, w2, n :: Holds(up, w1, n) && Holds(up, w2, n) ==> w1 == w2)
  }

  ghost predicate SetsOk(j: Job, failed: set<Name>, accepted: set<Name>, done: map<Name, Bytes>) {
    && j.acked !! failed
    && j.acked <= accepted && failed <= accepted
    && accepted <= done.Keys
  }

  ghost predicate CoversOk(up: map<nat, Upload>, q: seq<Name>, j: Job, failed: set<Name>, accepted: set<Name>) {
    forall n :: n in accepted ==> n in q || InFlight(up, n) || n in j.acked || n in failed
  }

  ghost predicate AccountInv(s: Sys) {
    && ReportsOk(s.watch, s.accepted, s.done)
    && QueueOk(s.queue.buf, s.job, s.failed, s.accepted)
    && WorkersOk(s.uploads, s.queue.buf, s.job, s.failed, s.accepted)
    && SetsOk(s.job, s.failed, s.accepted, s.done)
    && CoversOk(s.uploads, s.queue.buf, s.job, s.failed, s.accepted)
    && s.job.pending == |s.queue.buf| + |BusyWorkers(s.uploads)|
  }

  /** What AccountInv looks at beside the watcher and the workers is the same in both states. */
  ghost predicate SameNames(s: Sys, s': Sys) {
    && s'.queue.buf == s.queue.buf
    && SameUploads(s.job, s'.job)
    && s'.failed == s.failed && s'.accepted == s.accepted && s'.done == s.done
  }

  ghost predicate SameAccount(s: Sys, s': Sys) {
    && SameNames(s, s')
    && s'.watch.pc == s.watch.pc && s'.watch.events == s.watch.events && (s'.watch.open ==> s.watch.open)
    && s'.uploads == s.uploads
  }

  lemma SameAccountKeeps(s: Sys, s': Sys)
    requires AccountInv(s) && SameAccount(s, s')
    ensures AccountInv(s')
  {
  }

  lemma InitAccount(cfg: Config)
    ensures AccountInv(Init(cfg))
  {
    assert BusyWorkers(Init(cfg).uploads) == {};
  }

  /** The pushers start on an empty queue with idle workers only. */
  lemma PushersStart(s: Sys, s': Sys)
    requires AccountInv(s)
    requires s.queue.buf == [] && s.uploads == map[] && s.watch.events == [] && !s.watch.pc.Enqueuing?
    requires s'.queue.buf == [] && s'.uploads == IdleWorkers(s.cfg.parallel)
    requires s'.watch == Watch(Listening, true, [])
    requires s'.job == s.job && s'.failed == s.failed && s'.accepted == s.accepted && s'.done == s.done
    ensures AccountInv(s')
  {
    assert BusyWorkers(s.uploads) == {} && BusyWorkers(s'.uploads) == {};
    forall n | n in s'.accepted
      ensures n in s'.job.acked || n in s'.failed
    {
      assert !InFlight(s.uploads, n);
    }
  }

  lemma CompleteAccount(s: Sys, n: Name, data: Bytes)
    requires AccountInv(s) && Complete(s, n, data).Some?
    ensures AccountInv(Complete(s, n, data).value)
  {
    var s' := Complete(s, n, data).value;
    assert n !in s.accepted;
    assert forall i :: 0 <= i < |s.watch.events| ==> s.watch.events[i] != n;
  }

  lemma WatchAccount(s: Sys, a: WatchAct)
    requires AccountInv(s) && WatchStep(s, a).Some?
    ensures AccountInv(WatchStep(s, a).value)
  {
    var s' := WatchStep(s, a).value;
    if a.Take? {
      ReportTaken(s.watch, s.accepted, s.done);
    } else if a.EnqueueIt? {
      EnqueueAccount(s);
    } else {
      QuietWatch(s, a);
    }
  }

  lemma ReportTaken(w: Watch, accepted: set<Name>, done: map<Name, Bytes>)
    requires ReportsOk(w, accepted, done) && w.pc.Listening? && w.events != []
    ensures ReportsOk(w.(pc := Enqueuing(w.events[0]), events := w.events[1..]), accepted, done)
  {
    assert forall i :: 0 <= i < |w.events| - 1 ==> w.events[1..][i] == w.events[i + 1];
  }

  lemma QuietWatch(s: Sys, a: WatchAct)
    requires WatchStep(s, a).Some? && !a.Take? && !a.EnqueueIt?
    ensures
      var s' := WatchStep(s, a).value;
      && SameNames(s, s') && s'.uploads == s.uploads
      && s'.watch.events == s.watch.events && s'.watch.open == s.watch.open
      && !s.watch.pc.NotWatching? && !s'.watch.pc.Enqueuing? && !s'.watch.pc.NotWatching?
  {
    OnlyPipelineSections(s.job, Failed, true, 0);
  }

  lemma EnqueueAccount(s: Sys)
    requires AccountInv(s) && s.watch.pc.Enqueuing?
    ensures AccountInv(WatchStep(s, EnqueueIt).value)
  {
    var s' := WatchStep(s, EnqueueIt).value;
    var n := s.watch.pc.name;
    if s'.queue.buf == s.queue.buf {
    } else {
      assert s'.queue.buf == s.queue.buf + [n] && s'.accepted == s.accepted + {n};
      forall m | m in s'.accepted
        ensures m in s'.queue.buf || InFlight(s'.uploads, m) || m in s'.job.acked || m in s'.failed
      {
        assert m == n ==> s'.queue.buf[|s.queue.buf|] == n;
        if m in s.queue.buf {
          var i :| 0 <= i < |s.queue.buf| && s.queue.buf[i] == m;
          assert s'.queue.buf[i] == m;
        }
      }
    }
  }

  /** A worker that keeps holding the same name, or none, leaves the accounting alone. */
  lemma SameHeld(s: Sys, w: nat, u: Upload, s': Sys)
    requires AccountInv(s) && w in s.uploads && Held(u) == Held(s.uploads[w])
    requires s'.uploads == s.uploads[w := u]
    requires SameNames(s, s') && s'.watch == s.watch
    ensures AccountInv(s')
  {
    assert forall v, n :: Holds(s'.uploads, v, n) <==> Holds(s.uploads, v, n);
    assert BusyWorkers(s'.uploads) == BusyWorkers(s.uploads);
    forall n | n in s'.accepted
      ensures n in s'.queue.buf || InFlight(s'.uploads, n) || n in s'.job.acked || n in s'.failed
    {
      if InFlight(s.uploads, n) {
        var v :| Holds(s.uploads, v, n);
        assert Holds(s'.uploads, v, n);
      }
    }
  }

  lemma TakeAccount(s: Sys, w: nat)
    requires AccountInv(s) && UploadStep(s, w, TakeName).Some?
    ensures AccountInv(UploadStep(s, w, TakeName).value)
  {
    var s' := UploadStep(s, w, TakeName).value;
    var q := s.queue.buf;
    var n := q[0];
    assert forall i :: 0 <= i < |q| - 1 ==> q[1..][i] == q[i + 1];
    assert n !in q[1..];
    assert forall v, m :: Holds(s'.uploads, v, m) <==> (if v == w then m == n else Holds(s.uploads, v, m));
    assert BusyWorkers(s'.uploads) == BusyWorkers(s.uploads) + {w};
    forall m | m in s'.accepted
      ensures m in s'.queue.buf || InFlight(s'.uploads, m) || m in s'.job.acked || m in s'.failed
    {
      if m == n {
        assert Holds(s'.uploads, w, n);
      } else if m in q {
        var i :| 0 <= i < |q| && q[i] == m;
        assert q[1..][i - 1] == m;
      } else if InFlight(s.uploads, m) {
        var v :| Holds(s.uploads, v, m);
        assert Holds(s'.uploads, v, m);
      }
    }
  }

  lemma RecordAccount(s: Sys, w: nat)
    requires AccountInv(s) && UploadStep(s, w, RecordIt).Some?
    ensures AccountInv(UploadStep(s, w, RecordIt).value)
  {
    var s' := UploadStep(s, w, RecordIt).value;
    var n := s.uploads[w].name;
    assert Holds(s.uploads, w, n);
    assert forall v, m :: Holds(s'.uploads, v, m) <==> (v != w && Holds(s.uploads, v, m));
    assert BusyWorkers(s'.uploads) == BusyWorkers(s.uploads) - {w};
    assert n !in s.queue.buf;
    forall m | m in s'.accepted
      ensures m in s'.queue.buf || InFlight(s'.uploads, m) || m in s'.job.acked || m in s'.failed
    {
      if InFlight(s.uploads, m) && m != n {
        var v :| Holds(s.uploads, v, m);
        assert Holds(s'.uploads, v, m);
      }
    }
  }

  lemma QuietUpload(s: Sys, w: nat, a: UploadAct)
    requires UploadStep(s, w, a).Some? && !a.TakeName? && !a.RecordIt?
    ensures
      var s' := UploadStep(s, w, a).value;
      && w in s.uploads && w in s'.uploads && Held(s'.uploads[w]) == Held(s.uploads[w])
      && s'.uploads == s.uploads[w := s'.uploads[w]]
      && SameNames(s, s') && s'.watch == s.watch
  {
    UploadTouches(s, w, a);
    QuietWorker(s, w, a);
    OnlyPipelineSections(s.job, Failed, true, 0);
  }

  lemma QuietWorker(s: Sys, w: nat, a: UploadAct)
    requires UploadStep(s, w, a).Some? && !a.TakeName? && !a.RecordIt?
    ensures
      var s' := UploadStep(s, w, a).value;
      && w in s.uploads && w in s'.uploads && Held(s'.uploads[w]) == Held(s.uploads[w])
      && s'.uploads == s.uploads[w := s'.uploads[w]]
      && s'.queue == s.queue && (s'.job == s.job || s'.job == AbortFail(s.job)) && s'.failed == s.failed
  {
  }

  lemma UploadAccount(s: Sys, w: nat, a: UploadAct)
    requires AccountInv(s) && UploadStep(s, w, a).Some?
    ensures AccountInv(UploadStep(s, w, a).value)
  {
    if a.TakeName? {
      TakeAccount(s, w);
    } else if a.RecordIt? {
      RecordAccount(s, w);
    } else {
      QuietUpload(s, w, a);
      var s' := UploadStep(s, w, a).value;
      SameHeld(s, w, s'.uploads[w], s');
    }
  }
}
