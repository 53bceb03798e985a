/** What the step system promises, for every run and every reachable state. */
module SystemTheorems {
  import opened Prelude
  import opened Protocol
  import opened EventHubSpec
  import opened JobSections
  import opened System
  import opened SystemChunks
  import opened SystemFiles
  import opened SystemLife
  import opened SystemGate
  import opened SystemInv

  // ---- single steps ----

  /** Actions of nobody who runs the job, watches or uploads. */
  predicate Outside(a: Action) {
    !a.RunA? && !a.WatchA? && !a.UploadA?
  }

  /** What those actions leave alone. */
  ghost predicate OutsideFrame(s: Sys, s': Sys) {
    s' == s.(job := s'.job, hub := s'.hub, clients := s'.clients, gates := s'.gates, mon := s'.mon,
             clock := s'.clock, registered := s'.registered, reaped := s'.reaped, disk := s'.disk,
             done := s'.done, watch := s'.watch, server := s'.server)
  }

  lemma OutsideTouches(s: Sys, a: Action)
    requires Outside(a) && Next(s, a).Some?
    ensures OutsideFrame(s, Next(s, a).value)
  {
    match a
    case CreateFile(n) => FileTouches(s, n, []);
    case CompleteFile(n, data) => FileTouches(s, n, data);
    case GateA(id, g) => GateTouches(s, id, g);
    case MonTick => MonTouches(s, a);
    case MonCancel => MonTouches(s, a);
    case MonStop => MonTouches(s, a);
    case ClientA(id, c) => ClientTouches(s, id, c);
    case Forget => ReapTouches(s, a);
    case RemoveForgotten => ReapTouches(s, a);
    case _ =>
  }

  /** Failure, cancel, ACKs and terminal states are never taken back. */
  lemma StepOnward(s: Sys, a: Action)
    requires Next(s, a).Some?
    ensures Onward(s.job, Next(s, a).value.job)
  {
    match a
    case RunA(r) => RunSignals(s, r);
    case WatchA(w) => WatchOnward(s, w);
    case UploadA(w, u) => UploadOnward(s, w, u);
    case _ => OutsideOnward(s, a);
  }

  lemma WatchOnward(s: Sys, w: WatchAct)
    requires WatchStep(s, w).Some?
    ensures Onward(s.job, WatchStep(s, w).value.job)
  {
    WatchTouches(s, w);
  }

  lemma OutsideOnward(s: Sys, a: Action)
    requires Outside(a) && Next(s, a).Some?
    ensures Onward(s.job, Next(s, a).value.job)
  {
    match a
    case GateA(id, g) => GateJob(s, id, g);
    case ClientA(id, c) => ClientJob(s, id, c);
    case MonTick => MonJob(s, a);
    case MonCancel => MonJob(s, a);
    case MonStop => MonJob(s, a);
    case Forget => ReapTouches(s, a);
    case RemoveForgotten => ReapTouches(s, a);
    case _ =>
  }

  lemma ClientJob(s: Sys, id: nat, c: ClientAct)
    requires ClientStep(s, id, c).Some?
    ensures var j := ClientStep(s, id, c).value.job; j == s.job || j == ClientIn(s.job) || j == ClientOut(s.job, s.clock)
  {
  }

  lemma MonJob(s: Sys, a: Action)
    requires MonStep(s, a).Some?
    ensures var j := MonStep(s, a).value.job; j == s.job || j == RequestCancel(s.job, Lost)
  {
  }

  lemma UploadOnward(s: Sys, w: nat, u: UploadAct)
    requires UploadStep(s, w, u).Some?
    ensures Onward(s.job, UploadStep(s, w, u).value.job)
  {
    if !u.TakeName? && !u.RecordIt? {
      QuietWorker(s, w, u);
    }
  }

  ghost predicate SameAnnounce(g: Gate, g': Gate) {
    g'.names == g.names && g'.must == g.must
  }

  /** A completed chunk is not rewritten, and a posted announce keeps its names and its debts. */
  lemma StepStable(s: Sys, a: Action)
    requires Next(s, a).Some?
    ensures s.done.Keys <= Next(s, a).value.done.Keys
    ensures forall n :: n in s.done ==> Next(s, a).value.done[n] == s.done[n]
    ensures forall id | id in s.gates :: id in Next(s, a).value.gates && SameAnnounce(s.gates[id], Next(s, a).value.gates[id])
  {
    var s' := Next(s, a).value;
    if a.GateA? {
      GateStable(s, a.gate, a.g);
    } else if a.CompleteFile? || a.PostAnnounce? {
      assert a.CompleteFile? ==> s'.gates == s.gates && a.name !in s.done;
    } else {
      PlainStable(s, a);
    }
  }

  lemma PlainStable(s: Sys, a: Action)
    requires Next(s, a).Some? && !a.GateA? && !a.CompleteFile? && !a.PostAnnounce?
    ensures Next(s, a).value.done == s.done && Next(s, a).value.gates == s.gates
  {
    match a
    case RunA(r) => RunStays(s, r);
    case UploadA(w, u) => UploadTouches(s, w, u);
    case WatchA(w) => WatchTouches(s, w);
    case _ => OutsideStays(s, a);
  }

  /** What the run goroutine leaves alone. */
  lemma RunStays(s: Sys, r: RunAct)
    requires RunStep(s, r).Some?
    ensures
      var s' := RunStep(s, r).value;
      && s'.cfg == s.cfg && s'.done == s.done && s'.gates == s.gates && s'.server == s.server
      && s'.accepted == s.accepted && s'.failed == s.failed
  {
    if !r.PushersOk? {
      RunTouches(s, r);
    }
  }

  lemma OutsideStays(s: Sys, a: Action)
    requires Outside(a) && Next(s, a).Some? && !a.GateA? && !a.CompleteFile? && !a.PostAnnounce?
    ensures Next(s, a).value.done == s.done && Next(s, a).value.gates == s.gates
  {
    match a
    case CreateFile(n) => FileTouches(s, n, []);
    case MonTick => MonTouches(s, a);
    case MonCancel => MonTouches(s, a);
    case MonStop => MonTouches(s, a);
    case ClientA(id, c) => ClientTouches(s, id, c);
    case Forget => ReapTouches(s, a);
    case RemoveForgotten => ReapTouches(s, a);
    case _ =>
  }

  lemma GateStable(s: Sys, id: nat, a: GateAct)
    requires GateStep(s, id, a).Some?
    ensures
      var s' := GateStep(s, id, a).value;
      && s'.done == s.done && id in s.gates && id in s'.gates
      && s'.gates == s.gates[id := s'.gates[id]]
      && SameAnnounce(s.gates[id], s'.gates[id])
  {
  }

  lemma {:induction false} ExecConcat(s: Sys, pre: seq<Action>, post: seq<Action>)
    requires Exec(s, pre + post).Some?
    ensures Exec(s, pre).Some? && Exec(s, pre + post) == Exec(Exec(s, pre).value, post)
    decreases |post|
  {
    if post == [] {
      assert pre + post == pre;
    } else {
      var post' := post[..|post| - 1];
      assert (pre + post)[..|pre + post| - 1] == pre + post';
      ExecConcat(s, pre, post');
    }
  }

  lemma {:induction false} RunStable(s: Sys, acts: seq<Action>)
    requires Exec(s, acts).Some?
    ensures
      var s' := Exec(s, acts).value;
      && (forall n :: n in s.done ==> n in s'.done && s'.done[n] == s.done[n])
      && (forall id | id in s.gates :: id in s'.gates && SameAnnounce(s.gates[id], s'.gates[id]))
    decreases |acts|
  {
    if acts != [] {
      RunStable(s, acts[..|acts| - 1]);
      StepStable(Exec(s, acts[..|acts| - 1]).value, acts[|acts| - 1]);
    }
  }

  // ---- chunk before announce ----

  /** The invariant reading: an announce past its gate owes nothing. */
  lemma ForwardedOwesNothing(s: Sys, id: nat)
    requires Reachable(s) && id in s.gates && !s.reaped
    requires s.gates[id].pc.Passed? || s.gates[id].pc.Forwarded?
    ensures forall n :: n in s.gates[id].must ==> n in s.done && n in s.server.landed && s.server.landed[n] == s.done[n]
  {
    ReachableInv(s);
    var g := s.gates[id];
    forall n | n in g.must
      ensures n in s.done && n in s.server.landed && s.server.landed[n] == s.done[n]
    {
      var k :| 0 <= k < |g.names| && g.names[k] == n;
    }
  }

  /** A completed chunk that is not ACKed can be missing from the out dir only in a broken or reaped job. */
  lemma MissingMeansBroken(s: Sys, n: Name)
    requires Reachable(s) && n in s.done && n !in s.job.acked && n !in s.disk.files
    ensures s.reaped || s.job.failing || s.job.cancelState.Some? || s.job.state in {Failed, Cancelled, Lost}
  {
    ReachableFiles(s);
    ReachableLife(s);
    MissingBreaks(s, n);
  }

  /**
   * The skip that the gate allows for foreign names, on a chunk of this job: in every reachable
   * state a check of a completed chunk without an ACK lets the announce go on exactly when the out
   * dir was reaped and the job had ended COMPLETED with no failure or cancel recorded.
   */
  lemma SkipExactly(s: Sys, n: Name)
    requires Reachable(s) && n in s.done && n !in s.job.acked
    ensures GateCheck(s.job, n, false, n in s.disk.files) == Skip
      <==> n !in s.disk.files && s.reaped && s.job.state.Completed? && !s.job.failing && s.job.cancelState.None?
  {
    ReachableFiles(s);
    ReachableLife(s);
    SkipWhen(s, n);
  }

  /**
   * Chunk before announce, end to end. Take any run, and an announce posted anywhere in it. If at
   * the end the announce has been let through and the job dir has not been reaped, then every
   * name it references that the transcoder had completed before posting it has been renamed into
   * masterd's session dir, byte for byte what the transcoder wrote.
   */
  lemma ChunkBeforeAnnounce(cfg: Config, pre: seq<Action>, id: nat, names: seq<Name>, post: seq<Action>)
    requires Exec(Init(cfg), pre + [PostAnnounce(id, names)] + post).Some?
    ensures
      var before := Exec(Init(cfg), pre);
      var s := Exec(Init(cfg), pre + [PostAnnounce(id, names)] + post).value;
      && before.Some? && id in s.gates
      && ((s.gates[id].pc.Passed? || s.gates[id].pc.Forwarded?) && !s.reaped ==>
            forall n :: n in names && n in before.value.done ==>
              n in s.server.landed && s.server.landed[n] == before.value.done[n])
  {
    var mid := pre + [PostAnnounce(id, names)];
    ExecConcat(Init(cfg), mid, post);
    assert mid[..|mid| - 1] == pre;
    var s0 := Exec(Init(cfg), pre).value;
    var s1 := Exec(Init(cfg), mid).value;
    var s := Exec(s1, post).value;
    PostOwes(s0, id, names);
    RunStable(s1, post);
    RunReachable(cfg, mid + post);
    if (s.gates[id].pc.Passed? || s.gates[id].pc.Forwarded?) && !s.reaped {
      ForwardedOwesNothing(s, id);
    }
  }

  /** Posting an announce records its names and its debts. */
  lemma PostOwes(s: Sys, id: nat, names: seq<Name>)
    requires Next(s, PostAnnounce(id, names)).Some?
    ensures
      var s' := Next(s, PostAnnounce(id, names)).value;
      && s'.done == s.done && id in s'.gates
      && forall n :: n in names && n in s.done ==> n in s'.gates[id].must
  {
  }

  lemma RunReachable(cfg: Config, acts: seq<Action>)
    requires Exec(Init(cfg), acts).Some?
    ensures Reachable(Exec(Init(cfg), acts).value)
  {
    CfgStays(Init(cfg), acts);
  }

  lemma {:induction false} CfgStays(s: Sys, acts: seq<Action>)
    requires Exec(s, acts).Some?
    ensures Exec(s, acts).value.cfg == s.cfg
    decreases |acts|
  {
    if acts != [] {
      CfgStays(s, acts[..|acts| - 1]);
      StepCfg(Exec(s, acts[..|acts| - 1]).value, acts[|acts| - 1]);
    }
  }

  lemma StepCfg(s: Sys, a: Action)
    requires Next(s, a).Some?
    ensures Next(s, a).value.cfg == s.cfg
  {
    match a
    case RunA(r) => RunStays(s, r);
    case UploadA(w, u) => UploadTouches(s, w, u);
    case WatchA(w) => WatchTouches(s, w);
    case _ => OutsideTouches(s, a);
  }

  /** Until PMS deletes the session dir, what has landed is what is there. */
  lemma {:induction false} LandedIsThere(cfg: Config, acts: seq<Action>)
    requires Exec(Init(cfg), acts).Some? && RemoveSessionDir !in acts
    ensures Exec(Init(cfg), acts).value.server.files == Exec(Init(cfg), acts).value.server.landed
    decreases |acts|
  {
    if acts != [] {
      var a := acts[|acts| - 1];
      LandedIsThere(cfg, acts[..|acts| - 1]);
      assert a != RemoveSessionDir;
      StepLands(Exec(Init(cfg), acts[..|acts| - 1]).value, a);
    }
  }

  lemma StepLands(s: Sys, a: Action)
    requires Next(s, a).Some? && !a.RemoveSessionDir? && s.server.files == s.server.landed
    ensures Next(s, a).value.server.files == Next(s, a).value.server.landed
  {
    match a
    case RunA(r) => RunStays(s, r);
    case UploadA(w, u) => UploadHandlers(s, w, u);
    case WatchA(w) => WatchTouches(s, w);
    case ServerA(n, h) => ServerLands(s.server, n, h);
    case _ => OutsideLands(s, a);
  }

  lemma OutsideLands(s: Sys, a: Action)
    requires Outside(a) && !a.ServerA? && !a.RemoveSessionDir? && Next(s, a).Some?
    ensures Next(s, a).value.server.files == s.server.files && Next(s, a).value.server.landed == s.server.landed
  {
    match a
    case CreateFile(n) => FileTouches(s, n, []);
    case CompleteFile(n, data) => FileTouches(s, n, data);
    case GateA(id, g) => GateTouches(s, id, g);
    case MonTick => MonTouches(s, a);
    case MonCancel => MonTouches(s, a);
    case MonStop => MonTouches(s, a);
    case ClientA(id, c) => ClientTouches(s, id, c);
    case Forget => ReapTouches(s, a);
    case RemoveForgotten => ReapTouches(s, a);
    case _ =>
  }

  lemma ServerLands(v: Server, n: Name, a: ServerAct)
    requires ServerStep(v, n, a).Some? && v.files == v.landed
    ensures ServerStep(v, n, a).value.files == ServerStep(v, n, a).value.landed
  {
  }

  // ---- chunk accounting ----

  /** Names taken off the queue by a worker and not yet resolved. */
  function InFlightNames(s: Sys): set<Name> {
    set w | w in BusyWorkers(s.uploads) :: Held(s.uploads[w]).value
  }

  /**
   * Accepted names split exactly into queued, in flight, ACKed and failed; the queue holds no name
   * twice and no two workers hold the same one; `pending` counts the first two and is never negative.
   */
  lemma AcceptedSplits(s: Sys)
    requires Reachable(s)
    ensures
      var queued := set n | n in s.queue.buf;
      && s.accepted == queued + InFlightNames(s) + s.job.acked + s.failed
      && queued !! InFlightNames(s) !! s.job.acked !! s.failed
    ensures NoDup(s.queue.buf)
    ensures forall w1, w2, n :: Holds(s.uploads, w1, n) && Holds(s.uploads, w2, n) ==> w1 == w2
    ensures s.job.pending == |s.queue.buf| + |BusyWorkers(s.uploads)| >= 0
  {
    ReachableAccount(s);
    forall n
      ensures n in InFlightNames(s) <==> InFlight(s.uploads, n)
    {
      if InFlight(s.uploads, n) {
        var w :| Holds(s.uploads, w, n);
        assert w in BusyWorkers(s.uploads);
      }
      if n in InFlightNames(s) {
        var w :| w in BusyWorkers(s.uploads) && Held(s.uploads[w]).value == n;
        assert Holds(s.uploads, w, n);
      }
    }
  }

  /**
   * The local copy outlives everything but the ACK: until the job has ended CANCELLED or LOST, or
   * was reaped, a completed chunk without an ACK is still in the out dir with its bytes.
   */
  lemma LocalCopyKept(s: Sys, n: Name)
    requires Reachable(s) && n in s.done && n !in s.job.acked
    requires !s.reaped && !s.job.state.Cancelled? && !s.job.state.Lost?
    ensures n in s.disk.files && s.disk.files[n] == LocalFile(true, s.done[n])
  {
    ReachableFiles(s);
    ReachableLife(s);
    CopyKept(s, n);
  }

  lemma CopyKept(s: Sys, n: Name)
    requires FileInv(s) && LifeInv(s) && n in s.done && n !in s.job.acked
    requires !s.reaped && !s.job.state.Cancelled? && !s.job.state.Lost?
    ensures n in s.disk.files && s.disk.files[n] == LocalFile(true, s.done[n])
  {
  }

  /** An ACK is never early: the chunk has landed whole. */
  lemma AckMeansLanded(s: Sys, n: Name)
    requires Reachable(s) && n in s.job.acked
    ensures n in s.done && n in s.server.landed && s.server.landed[n] == s.done[n]
  {
    ReachableFiles(s);
  }

  /** No channel is ever misused: not the upload queue, and no subscriber's channel. */
  lemma NoChannelFault(s: Sys)
    requires Reachable(s)
    ensures !s.queue.fault
    ensures forall id :: id in s.hub.chans ==> !s.hub.chans[id].fault
    ensures s.queue.closed ==> s.job.intakeClosed
  {
    ReachableLife(s);
    ReachableHub(s);
  }

  // ---- no lost wakeups ----

  /**
   * A sleeper that no broadcast has reached is right to sleep. A held announce waits for a name
   * without an ACK, in an unbroken job, and its client is there or its wakeup is on the way; the
   * drain waits for uploads, in a job that is not failing, before its deadline or with its timer due.
   */
  lemma NoLostWakeup(s: Sys)
    requires Reachable(s)
    ensures forall id :: id in s.gates && s.gates[id].pc.Asleep? && s.gates[id].pc.since >= s.job.signals ==>
              var g := s.gates[id];
              && g.i < |g.names| && g.names[g.i] !in s.job.acked
              && !s.job.failing && s.job.cancelState.None? && s.job.state !in {Failed, Cancelled, Lost}
              && (!g.ctxDone || g.wakeDue)
    ensures s.run.DrainAsleep? && s.run.since >= s.job.signals ==>
              s.job.pending > 0 && !s.job.failing && (s.clock < s.run.deadline || !s.run.timerFired)
  {
    ReachableInv(s);
    forall id | id in s.gates
      ensures SleeperOk(s.gates[id], s.job)
    {
    }
  }

  // ---- lifecycle ----

  function States(evs: seq<Event>): seq<JobState>
    requires forall i :: 0 <= i < |evs| ==> evs[i].StateEvent?
  {
    seq(|evs|, i requires 0 <= i < |evs| => evs[i].state)
  }

  /** A prefix of the ordinary path, then at most one terminal state; leaving early only by FAILED or CANCELLED. */
  ghost predicate IsLifecycle(sts: seq<JobState>) {
    var path := [Pending, Preparing, Running, Draining];
    if sts != [] && IsTerminal(sts[|sts| - 1]) then
      var before := sts[..|sts| - 1];
      before == path || (before == path[..2] && (sts[|sts| - 1].Failed? || sts[|sts| - 1].Cancelled?))
    else
      1 <= |sts| <= 4 && sts == path[..|sts|]
  }

  /**
   * Every run publishes a lifecycle; the exit event comes at most once, after the terminal state it
   * belongs to, and only stderr follows it.
   */
  lemma PublishedLifecycle(s: Sys)
    requires Reachable(s)
    ensures forall i :: 0 <= i < |s.hub.states| ==> s.hub.states[i].StateEvent?
    ensures IsLifecycle(States(s.hub.states))
    ensures s.hub.exit.Some? ==> s.hub.states[|s.hub.states| - 1] == StateEvent(s.job.state) && IsTerminal(s.job.state)
    ensures NonStderr(s.hub.log) == s.hub.states + (if s.hub.exit.Some? then [s.hub.exit.value] else [])
  {
    ReachableLife(s);
    ReachableHub(s);
    PublishedShape(s.run);
  }

  lemma PublishedShape(r: RunPc)
    requires Ending(r) ==> IsTerminal(r.final)
    requires Ending(r) && r.early ==> r.final.Failed? || r.final.Cancelled?
    ensures forall i :: 0 <= i < |Published(r)| ==> Published(r)[i].StateEvent?
    ensures IsLifecycle(States(Published(r)))
    ensures FinalPublished(r) ==> Published(r)[|Published(r)| - 1] == StateEvent(r.final)
  {
    var path := [Pending, Preparing, Running, Draining];
    var sts := States(Published(r));
    if FinalPublished(r) {
      assert sts[..|sts| - 1] == (if r.early then path[..2] else path);
    } else {
      assert sts == path[..|sts|];
    }
  }

  /** Terminal states are absorbing, whatever is still running. */
  lemma {:induction false} TerminalStays(s: Sys, acts: seq<Action>)
    requires IsTerminal(s.job.state) && Exec(s, acts).Some?
    ensures Exec(s, acts).value.job.state == s.job.state
    decreases |acts|
  {
    if acts != [] {
      TerminalStays(s, acts[..|acts| - 1]);
      StepOnward(Exec(s, acts[..|acts| - 1]).value, acts[|acts| - 1]);
    }
  }

  // ---- the COMPLETED verdict ----

  /**
   * A COMPLETED job came through DRAINING with exit code 0; nothing is queued or in flight, nothing
   * can be enqueued any more, and so its exit event never precedes an unresolved upload.
   */
  lemma CompletedIsSettled(s: Sys)
    requires Reachable(s) && s.job.state.Completed?
    ensures s.queue.buf == [] && InFlightNames(s) == {} && s.job.intakeClosed
    ensures s.accepted == s.job.acked + s.failed
    ensures (s.run.Finalizing? || s.run.RunDone?) && !s.run.early && s.run.code == 0 && P4 <= s.hub.states
    ensures s.hub.exit.Some? ==> s.hub.exit == Some(ExitEvent(0))
  {
    CompletedPath(s);
    CompletedQuiet(s);
  }

  lemma CompletedQuiet(s: Sys)
    requires Reachable(s) && s.job.state.Completed?
    ensures s.queue.buf == [] && InFlightNames(s) == {} && s.accepted == s.job.acked + s.failed
  {
    ReachableLife(s);
    CompletedSettled(s);
    AcceptedSplits(s);
    SettledQuiet(s);
  }

  lemma CompletedSettled(s: Sys)
    requires LifeInv(s) && s.job.state.Completed?
    ensures Settled(s.job)
  {
  }

  /** With nothing pending, nothing is queued and no worker holds a name. */
  lemma SettledQuiet(s: Sys)
    requires s.job.pending == |s.queue.buf| + |BusyWorkers(s.uploads)| && s.job.pending == 0
    ensures s.queue.buf == [] && InFlightNames(s) == {}
  {
    assert |BusyWorkers(s.uploads)| == 0;
  }

  lemma CompletedPath(s: Sys)
    requires Reachable(s) && s.job.state.Completed?
    ensures s.job.intakeClosed
    ensures (s.run.Finalizing? || s.run.RunDone?) && !s.run.early && s.run.code == 0 && P4 <= s.hub.states
    ensures s.hub.exit.Some? ==> s.hub.exit == Some(ExitEvent(0))
  {
    ReachableLife(s);
    CompletedStage(s);
  }

  lemma CompletedStage(s: Sys)
    requires LifeInv(s) && s.job.state.Completed?
    ensures s.job.intakeClosed
    ensures (s.run.Finalizing? || s.run.RunDone?) && !s.run.early && s.run.code == 0 && P4 <= s.hub.states
    ensures s.hub.exit.Some? ==> s.hub.exit == Some(ExitEvent(0))
  {
  }

  /** COMPLETED is decided only with no failure or cancel recorded. */
  lemma CompletedVerdict(s: Sys)
    requires Reachable(s) && s.run.Deciding?
    ensures Verdict(s.job, s.run.drainErr, s.run.code).Completed?
      <==> s.run.code == 0 && !s.run.drainErr && !s.job.failing && s.job.cancelState.None?
    ensures Verdict(s.job, s.run.drainErr, s.run.code).Completed? ==> s.job.state.Draining? && Settled(s.job)
  {
    ReachableLife(s);
    VerdictIs(s);
  }

  lemma VerdictIs(s: Sys)
    requires LifeInv(s) && s.run.Deciding?
    ensures s.job.state.Draining? && (!s.run.drainErr ==> Settled(s.job))
    ensures Verdict(s.job, s.run.drainErr, s.run.code).Completed?
      <==> s.run.code == 0 && !s.run.drainErr && !s.job.failing && s.job.cancelState.None?
  {
  }

  /** A failed push marks the job as failing, except while its worker is about to do so. */
  ghost predicate FailedOk(s: Sys) {
    && (forall n :: n in s.failed ==>
          s.job.failing || IsTerminal(s.job.state) || exists w :: w in s.uploads && s.uploads[w] == Aborting(n))
    && (forall w :: w in s.uploads && s.uploads[w].Aborting? ==> s.uploads[w].name in s.failed)
  }

  lemma StepFailed(s: Sys, a: Action)
    requires LifeInv(s) && FailedOk(s) && Next(s, a).Some?
    ensures FailedOk(Next(s, a).value)
  {
    var s' := Next(s, a).value;
    StepOnward(s, a);
    if a.UploadA? {
      UploadFailed(s, a.worker, a.u);
      AbortingMoves(s, a.worker, s');
    } else {
      SameFailed(s, a);
      FailedStays(s, s');
    }
  }

  /** Nobody but an upload worker records a failed push; the pushers start when there is none. */
  lemma SameFailed(s: Sys, a: Action)
    requires StartInv(s) && Next(s, a).Some? && !a.UploadA?
    ensures Next(s, a).value.failed == s.failed
    ensures Next(s, a).value.uploads == s.uploads || (s.uploads == map[] && AllIdle(Next(s, a).value.uploads))
  {
    match a
    case RunA(r) => RunFailed(s, r);
    case WatchA(w) => WatchTouches(s, w);
    case _ => OutsideTouches(s, a);
  }

  ghost predicate AllIdle(up: map<nat, Upload>) {
    forall w :: w in up ==> up[w] == Idle
  }

  lemma RunFailed(s: Sys, r: RunAct)
    requires StartInv(s) && RunStep(s, r).Some?
    ensures RunStep(s, r).value.failed == s.failed
    ensures RunStep(s, r).value.uploads == s.uploads || (s.uploads == map[] && AllIdle(RunStep(s, r).value.uploads))
  {
    RunStays(s, r);
    if !r.PushersOk? {
      RunTouches(s, r);
    }
  }

  lemma FailedStays(s: Sys, s': Sys)
    requires FailedOk(s) && Onward(s.job, s'.job) && s'.failed == s.failed
    requires s'.uploads == s.uploads || (s.uploads == map[] && AllIdle(s'.uploads))
    ensures FailedOk(s')
  {
    forall n | n in s'.failed && !s'.job.failing && !IsTerminal(s'.job.state)
      ensures exists v :: v in s'.uploads && s'.uploads[v] == Aborting(n)
    {
      var v :| v in s.uploads && s.uploads[v] == Aborting(n);
      assert s'.uploads[v] == Aborting(n);
    }
  }

  lemma AbortingMoves(s: Sys, w: nat, s': Sys)
    requires FailedOk(s) && Onward(s.job, s'.job)
    requires w in s.uploads && w in s'.uploads && s'.uploads == s.uploads[w := s'.uploads[w]]
    requires s'.failed == (if s'.uploads[w].Aborting? then s.failed + {s'.uploads[w].name} else s.failed)
    requires s.uploads[w].Aborting? ==> s'.job.failing || IsTerminal(s'.job.state)
    ensures FailedOk(s')
  {
    forall n | n in s'.failed && !s'.job.failing && !IsTerminal(s'.job.state)
      ensures exists v :: v in s'.uploads && s'.uploads[v] == Aborting(n)
    {
      if n in s.failed {
        var v :| v in s.uploads && s.uploads[v] == Aborting(n);
        assert s'.uploads[v] == Aborting(n);
      } else {
        assert s'.uploads[w] == Aborting(n);
      }
    }
  }

  lemma UploadFailed(s: Sys, w: nat, a: UploadAct)
    requires UploadStep(s, w, a).Some?
    ensures
      var s' := UploadStep(s, w, a).value;
      && w in s.uploads && w in s'.uploads && s'.uploads == s.uploads[w := s'.uploads[w]]
      && s'.failed == (if s'.uploads[w].Aborting? then s.failed + {s'.uploads[w].name} else s.failed)
      && (s.uploads[w].Aborting? ==> s'.job.failing || IsTerminal(s'.job.state))
  {
  }

  lemma {:induction false} ExecFailed(cfg: Config, acts: seq<Action>)
    requires Exec(Init(cfg), acts).Some?
    ensures FailedOk(Exec(Init(cfg), acts).value)
    decreases |acts|
  {
    if acts != [] {
      RunInv(cfg, acts[..|acts| - 1]);
      assert LifeInv(Exec(Init(cfg), acts[..|acts| - 1]).value);
      ExecFailed(cfg, acts[..|acts| - 1]);
      StepFailed(Exec(Init(cfg), acts[..|acts| - 1]).value, acts[|acts| - 1]);
    }
  }

  /**
   * COMPLETED does not mean that every accepted upload was ACKed: at a COMPLETED verdict it does
   * exactly when no upload worker stands between recording a failed push and reporting it.
   */
  lemma CompletedAllAcked(s: Sys)
    requires Reachable(s) && s.run.Deciding? && Verdict(s.job, s.run.drainErr, s.run.code).Completed?
    ensures s.accepted == s.job.acked <==> forall w :: w in s.uploads ==> !s.uploads[w].Aborting?
  {
    var acts :| Exec(Init(s.cfg), acts) == Some(s);
    ExecFailed(s.cfg, acts);
    SettledSplits(s);
    if forall w :: w in s.uploads ==> !s.uploads[w].Aborting? {
      assert forall n :: n !in s.failed;
    }
    if w :| w in s.uploads && s.uploads[w].Aborting? {
      assert s.uploads[w].name in s.failed;
    }
  }

  /**
   * Nor that every completed chunk was ACKed: at a COMPLETED verdict it does exactly when, besides,
   * no report was dropped (by a full queue or a closed intake) or is still on its way.
   */
  lemma CompletedEveryChunk(s: Sys)
    requires Reachable(s) && s.run.Deciding? && Verdict(s.job, s.run.drainErr, s.run.code).Completed?
    ensures s.done.Keys == s.job.acked
      <==> s.done.Keys <= s.accepted && forall w :: w in s.uploads ==> !s.uploads[w].Aborting?
  {
    CompletedAllAcked(s);
    AcceptedComplete(s);
  }

  lemma AcceptedComplete(s: Sys)
    requires Reachable(s)
    ensures s.job.acked <= s.accepted <= s.done.Keys
  {
    ReachableAccount(s);
  }

  lemma SettledSplits(s: Sys)
    requires Reachable(s) && s.run.Deciding? && Verdict(s.job, s.run.drainErr, s.run.code).Completed?
    ensures s.accepted == s.job.acked + s.failed && s.job.acked !! s.failed
    ensures !s.job.failing && !IsTerminal(s.job.state)
  {
    CompletedVerdict(s);
    AcceptedSplits(s);
    SettledQuiet(s);
  }
}
