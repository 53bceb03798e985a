/** The upload queue over every run: first in first out, never longer than its capacity, full when it overflows. */
module QueueOrder {
  import opened Prelude
  import opened Protocol
  import opened JobSections
  import opened System
  import opened SystemLife
  import opened SystemInv
  import opened SystemTheorems

  /** The names that were reported while the queue took them, in the order of their reports. */
  function Put(s: Sys, acts: seq<Action>): seq<Name>
    requires Exec(s, acts).Some?
    decreases |acts|
  {
    if acts == [] then []
    else
      var p, a := acts[..|acts| - 1], acts[|acts| - 1];
      var b := Exec(s, p).value;
      Put(s, p) + (if a == WatchA(EnqueueIt) && b.watch.pc.Enqueuing? && Takes(b, b.watch.pc.name) then [b.watch.pc.name] else [])
  }

  /** Intake is open, the job is sound, the name has no ACK, and there is room. */
  predicate Takes(s: Sys, n: Name) {
    !s.job.intakeClosed && !s.job.failing && !IsTerminal(s.job.state) && n !in s.job.acked && |s.queue.buf| < s.cfg.cap
  }

  /** The names that workers took off the queue, in the order in which they did. */
  function Taken(s: Sys, acts: seq<Action>): seq<Name>
    requires Exec(s, acts).Some?
    decreases |acts|
  {
    if acts == [] then []
    else
      var p, a := acts[..|acts| - 1], acts[|acts| - 1];
      var s' := Exec(s, acts).value;
      Taken(s, p) + (if a.UploadA? && a.u.TakeName? && a.worker in s'.uploads && s'.uploads[a.worker].Opening?
                     then [s'.uploads[a.worker].name] else [])
  }

  /** One step, as the queue sees it. */
  ghost predicate QueueMoves(s: Sys, a: Action, s': Sys) {
    if a == WatchA(EnqueueIt) && s.watch.pc.Enqueuing? then
      var n := s.watch.pc.name;
      && s'.queue.buf == (if Takes(s, n) then s.queue.buf + [n] else s.queue.buf)
      && s'.accepted == (if Takes(s, n) then s.accepted + {n} else s.accepted)
      && (s'.watch.pc.Overflowed? <==>
            && !s.job.intakeClosed && !s.job.failing && !IsTerminal(s.job.state) && n !in s.job.acked
            && |s.queue.buf| >= s.cfg.cap)
    else if a.UploadA? && a.u.TakeName? then
      && a.worker in s'.uploads && s'.uploads[a.worker].Opening?
      && s.queue.buf == [s'.uploads[a.worker].name] + s'.queue.buf && s'.accepted == s.accepted
    else s'.queue.buf == s.queue.buf && s'.accepted == s.accepted
  }

  lemma EnqueueMoves(s: Sys)
    requires LifeInv(s) && WatchStep(s, EnqueueIt).Some?
    ensures QueueMoves(s, WatchA(EnqueueIt), WatchStep(s, EnqueueIt).value)
  {
  }

  lemma WatchMoves(s: Sys, a: WatchAct)
    requires LifeInv(s) && WatchStep(s, a).Some?
    ensures QueueMoves(s, WatchA(a), WatchStep(s, a).value)
  {
    if a.EnqueueIt? {
      EnqueueMoves(s);
    }
  }

  lemma UploadMoves(s: Sys, w: nat, a: UploadAct)
    requires UploadStep(s, w, a).Some?
    ensures QueueMoves(s, UploadA(w, a), UploadStep(s, w, a).value)
  {
    if a.TakeName? {
      var b := s.queue.buf;
      assert b == [b[0]] + b[1..];
    } else {
      UploadTouches(s, w, a);
      UploadQueue(s, w, a);
    }
  }

  lemma UploadQueue(s: Sys, w: nat, a: UploadAct)
    requires UploadStep(s, w, a).Some? && !a.TakeName?
    ensures UploadStep(s, w, a).value.queue == s.queue
  {
  }

  lemma RunMoves(s: Sys, a: RunAct)
    requires LifeInv(s) && RunStep(s, a).Some?
    ensures RunStep(s, a).value.queue.buf == s.queue.buf && RunStep(s, a).value.accepted == s.accepted
  {
    RunStays(s, a);
    if !a.PushersOk? {
      RunTouches(s, a);
    }
  }

  lemma StepMoves(s: Sys, a: Action)
    requires LifeInv(s) && Next(s, a).Some?
    ensures QueueMoves(s, a, Next(s, a).value)
  {
    match a
    case RunA(r) => RunMoves(s, r);
    case WatchA(w) => WatchMoves(s, w);
    case UploadA(w, u) => UploadMoves(s, w, u);
    case _ => OutsideTouches(s, a);
  }

  lemma RunQueue(cfg: Config, acts: seq<Action>)
    requires acts != [] && Exec(Init(cfg), acts).Some?
    ensures QueueMoves(Exec(Init(cfg), acts[..|acts| - 1]).value, acts[|acts| - 1], Exec(Init(cfg), acts).value)
  {
    var p := acts[..|acts| - 1];
    RunInv(cfg, p);
    InvParts(Exec(Init(cfg), p).value);
    StepMoves(Exec(Init(cfg), p).value, acts[|acts| - 1]);
  }

  /**
   * First in, first out: over every run the names that the queue took are, in that order, those that
   * workers have taken off it and then those that it still holds; and they are the accepted names.
   */
  lemma {:induction false} FirstInFirstOut(cfg: Config, acts: seq<Action>)
    requires Exec(Init(cfg), acts).Some?
    ensures Put(Init(cfg), acts) == Taken(Init(cfg), acts) + Exec(Init(cfg), acts).value.queue.buf
    ensures Exec(Init(cfg), acts).value.accepted == set n | n in Put(Init(cfg), acts)
    decreases |acts|
  {
    if acts != [] {
      var p, a := acts[..|acts| - 1], acts[|acts| - 1];
      FirstInFirstOut(cfg, p);
      RunQueue(cfg, acts);
      QueueGrows(Put(Init(cfg), p), Taken(Init(cfg), p), Exec(Init(cfg), p).value, a, Exec(Init(cfg), acts).value);
    }
  }

  lemma QueueGrows(put: seq<Name>, taken: seq<Name>, s: Sys, a: Action, s': Sys)
    requires QueueMoves(s, a, s') && put == taken + s.queue.buf && s.accepted == set n | n in put
    ensures
      var put' := put + (if a == WatchA(EnqueueIt) && s.watch.pc.Enqueuing? && Takes(s, s.watch.pc.name) then [s.watch.pc.name] else []);
      var taken' := taken + (if a.UploadA? && a.u.TakeName? && a.worker in s'.uploads && s'.uploads[a.worker].Opening?
                             then [s'.uploads[a.worker].name] else []);
      put' == taken' + s'.queue.buf && s'.accepted == set n | n in put'
  {
  }

  /** The queue never holds more than its capacity. */
  lemma {:induction false} QueueBounded(cfg: Config, acts: seq<Action>)
    requires Exec(Init(cfg), acts).Some?
    ensures |Exec(Init(cfg), acts).value.queue.buf| <= cfg.cap
    decreases |acts|
  {
    if acts != [] {
      QueueBounded(cfg, acts[..|acts| - 1]);
      RunQueue(cfg, acts);
      CfgStays(Init(cfg), acts[..|acts| - 1]);
    }
  }

  /**
   * What becomes of a report: it is accepted if intake is open, the job is sound, the chunk has no ACK and
   * there is room; if only room is wanting the queue has overflowed; otherwise it is dropped.
   */
  lemma ReportDecides(s: Sys, n: Name)
    requires Reachable(s) && s.watch.pc == Enqueuing(n) && Next(s, WatchA(EnqueueIt)).Some?
    ensures
      var s' := Next(s, WatchA(EnqueueIt)).value;
      var open := !s.job.intakeClosed && !s.job.failing && !IsTerminal(s.job.state) && n !in s.job.acked;
      && (s'.accepted == if open && |s.queue.buf| < s.cfg.cap then s.accepted + {n} else s.accepted)
      && (s'.watch.pc.Overflowed? <==> open && |s.queue.buf| >= s.cfg.cap)
  {
    ReachableLife(s);
    StepMoves(s, WatchA(EnqueueIt));
  }
}
