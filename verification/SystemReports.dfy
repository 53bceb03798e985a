/** From the directory watcher to the queue: no report of a completed chunk is lost while the job is sound. */
module SystemReports {
  import opened Prelude
  import opened Protocol
  import opened JobSections
  import opened System
  import opened SystemChunks
  import opened SystemLife
  import opened SystemGate
  import opened SystemInv
  import opened SystemTheorems

  /** The watcher has been closed, or has found that it cannot go on, or the job is going down. */
  predicate Unsound(s: Sys) {
    || !s.watch.open || s.watch.pc.Overflowed? || s.watch.pc.WatchBroken?
    || s.job.failing || IsTerminal(s.job.state)
  }

  predicate WatcherDone(r: RunPc) {
    11 <= Rank(r) <= 15 || (Ending(r) && !r.early) || Rank(r) >= 25
  }

  ghost predicate WatchInv(s: Sys) {
    && (s.watch.pc.NotWatching? ==> s.done == map[] && s.disk.files == map[])
    && (WatcherDone(s.run) ==> !s.watch.open)
    && (s.job.intakeClosed ==> WatcherDone(s.run) || IsTerminal(s.job.state))
    && (s.watch.pc.WatchEnded? ==> Unsound(s))
  }

  ghost predicate OnItsWay(s: Sys, n: Name) {
    n in s.accepted || n in s.watch.events || s.watch.pc == Enqueuing(n) || Unsound(s)
  }

  ghost predicate ReportInv(s: Sys) {
    WatchInv(s) && forall n :: n in s.done ==> OnItsWay(s, n)
  }

  /** Nothing that reports look at has got better. */
  ghost predicate Down(s: Sys, s': Sys) {
    && s'.watch.pc == s.watch.pc && s'.watch.events == s.watch.events && (s'.watch.open ==> s.watch.open)
    && s'.accepted == s.accepted && s'.done == s.done
    && (s'.disk.files == s.disk.files || s'.disk.files.Keys <= s.disk.files.Keys)
    && Onward(s.job, s'.job)
  }

  lemma DownKeeps(s: Sys, s': Sys)
    requires ReportInv(s) && Down(s, s')
    requires WatcherDone(s'.run) ==> !s'.watch.open
    requires s'.job.intakeClosed ==> WatcherDone(s'.run) || IsTerminal(s'.job.state)
    ensures ReportInv(s')
  {
    assert Unsound(s) ==> Unsound(s');
    forall n | n in s'.done
      ensures OnItsWay(s', n)
    {
      assert OnItsWay(s, n);
    }
  }

  // ---- the run goroutine ----

  lemma StartReports(s: Sys, a: RunAct)
    requires StartRun(s, a).Some? && !a.PushersOk?
    ensures !WatcherDone(s.run) && !WatcherDone(StartRun(s, a).value.run)
  {
  }

  lemma StartIntake(s: Sys, a: RunAct)
    requires StartRun(s, a).Some?
    ensures StartRun(s, a).value.job.intakeClosed == s.job.intakeClosed
  {
  }

  lemma ExitReports(s: Sys, a: RunAct)
    requires WatchInv(s) && StopRun(s, a).Some?
    requires a.ProcessExits? || a.StepMarkExited? || a.StepCloseWatcher?
    ensures
      var s' := StopRun(s, a).value;
      && (WatcherDone(s'.run) ==> !s'.watch.open)
      && (s'.job.intakeClosed ==> WatcherDone(s'.run) || s.job.intakeClosed)
      && (WatcherDone(s.run) ==> WatcherDone(s'.run))
  {
  }

  lemma DrainingReports(s: Sys)
    requires WatchInv(s) && StopRun(s, StepSetDraining).Some?
    ensures
      var s' := StopRun(s, StepSetDraining).value;
      && s'.watch == s.watch && WatcherDone(s.run) && WatcherDone(s'.run)
      && s'.job.intakeClosed == s.job.intakeClosed
  {
    DrainingMoves(s);
    DrainingGoes(s);
    DrainingIntake(s);
  }

  lemma DrainingGoes(s: Sys)
    requires StopRun(s, StepSetDraining).Some?
    ensures
      var r := StopRun(s, StepSetDraining).value.run;
      s.run.SetDraining? && (r == PubDraining(s.run.code) || r == DrainStart(s.run.code))
  {
  }

  lemma DrainingIntake(s: Sys)
    requires StopRun(s, StepSetDraining).Some?
    ensures StopRun(s, StepSetDraining).value.job.intakeClosed == s.job.intakeClosed
  {
  }

  lemma DrainReports(s: Sys, a: RunAct)
    requires WatchInv(s) && StopRun(s, a).Some?
    requires a.StepDrainStart? || a.StepDrainWake? || a.DrainTimer? || a.StepDecide?
    ensures
      var s' := StopRun(s, a).value;
      && (WatcherDone(s'.run) ==> !s'.watch.open)
      && (s'.job.intakeClosed ==> WatcherDone(s'.run) || s.job.intakeClosed)
      && (WatcherDone(s.run) ==> WatcherDone(s'.run))
  {
  }

  lemma StopReports(s: Sys, a: RunAct)
    requires WatchInv(s) && StopRun(s, a).Some?
    ensures
      var s' := StopRun(s, a).value;
      && (WatcherDone(s'.run) ==> !s'.watch.open)
      && (s'.job.intakeClosed ==> WatcherDone(s'.run) || s.job.intakeClosed)
      && (WatcherDone(s.run) ==> WatcherDone(s'.run))
  {
    if a.StepDrainStart? || a.StepDrainWake? || a.DrainTimer? || a.StepDecide? {
      DrainReports(s, a);
    } else if a.StepSetDraining? {
      DrainingReports(s);
    } else {
      ExitReports(s, a);
    }
  }

  lemma PublishReports(s: Sys)
    requires WatchInv(s) && PublishRun(s).Some?
    ensures
      var s' := PublishRun(s).value;
      (WatcherDone(s'.run) ==> !s'.watch.open) && (WatcherDone(s.run) ==> WatcherDone(s'.run))
  {
    PublishMoves(s);
  }

  lemma FinalReports(s: Sys, a: RunAct)
    requires WatchInv(s) && FinalInv(s.run, s.job, s.mon) && s.job.state == StateAt(s.run)
    requires s.run.Finalizing? && FinalizeRun(s, a).Some?
    ensures
      var s' := FinalizeRun(s, a).value;
      && (WatcherDone(s'.run) ==> !s'.watch.open)
      && (s'.job.intakeClosed ==> s.job.intakeClosed || IsTerminal(s'.job.state))
      && (WatcherDone(s.run) ==> WatcherDone(s'.run))
  {
    match a
    case StepLock => LockReports(s);
    case StepFinWatcher =>
    case StepCloseQueue =>
    case StepRemoveDir =>
    case _ => FinalizeTouches(s, a);
  }

  lemma LockReports(s: Sys)
    requires WatchInv(s) && FinalInv(s.run, s.job, s.mon) && s.job.state == StateAt(s.run)
    requires s.run.Finalizing? && FinalizeRun(s, StepLock).Some?
    ensures
      var s' := FinalizeRun(s, StepLock).value;
      && (WatcherDone(s'.run) ==> !s'.watch.open)
      && (s'.job.intakeClosed ==> s.job.intakeClosed || IsTerminal(s'.job.state))
      && (WatcherDone(s.run) ==> WatcherDone(s'.run))
  {
    assert !IsTerminal(s.job.state);
  }

  /** What the run goroutine does to the watcher and to intake, once the pushers run. */
  lemma RunReports(s: Sys, a: RunAct)
    requires WatchInv(s) && LifeInv(s) && RunStep(s, a).Some? && !a.PushersOk?
    ensures
      var s' := RunStep(s, a).value;
      && (WatcherDone(s'.run) ==> !s'.watch.open)
      && (s'.job.intakeClosed ==> WatcherDone(s'.run) || IsTerminal(s'.job.state))
  {
    RunSignals(s, a);
    if StartAct(a) {
      StartReports(s, a);
      StartIntake(s, a);
    } else if StopAct(a) {
      StopReports(s, a);
    } else if a.StepPublish? {
      PublishReports(s);
      PublishMoves(s);
    } else {
      FinalReports(s, a);
    }
  }

  lemma RunKeepsReports(s: Sys, a: RunAct)
    requires ReportInv(s) && LifeInv(s) && RunStep(s, a).Some?
    ensures ReportInv(RunStep(s, a).value)
  {
    var s' := RunStep(s, a).value;
    if a.PushersOk? {
      PushersReport(s);
    } else {
      RunReports(s, a);
      RunTouches(s, a);
      RunSignals(s, a);
      DownKeeps(s, s');
    }
  }

  /** When the watcher starts nothing has been completed. */
  lemma PushersReport(s: Sys)
    requires ReportInv(s) && StartInv(s) && s.job.state == StateAt(s.run) && StartRun(s, PushersOk).Some?
    ensures ReportInv(StartRun(s, PushersOk).value)
  {
  }

  // ---- the watcher ----

  lemma WatchKeepsReports(s: Sys, a: WatchAct)
    requires ReportInv(s) && AccountInv(s) && LifeInv(s) && WatchStep(s, a).Some?
    ensures ReportInv(WatchStep(s, a).value)
  {
    var s' := WatchStep(s, a).value;
    if a.EnqueueIt? {
      EnqueueReports(s);
    } else {
      forall n | n in s'.done
        ensures OnItsWay(s', n)
      {
        assert OnItsWay(s, n);
      }
    }
  }

  lemma EnqueueReports(s: Sys)
    requires ReportInv(s) && AccountInv(s) && LifeInv(s) && WatchStep(s, EnqueueIt).Some?
    ensures ReportInv(WatchStep(s, EnqueueIt).value)
  {
    var s' := WatchStep(s, EnqueueIt).value;
    forall n | n in s'.done
      ensures OnItsWay(s', n)
    {
      assert OnItsWay(s, n);
    }
  }

  lemma CompleteReports(s: Sys, n: Name, data: Bytes)
    requires ReportInv(s) && Complete(s, n, data).Some?
    ensures ReportInv(Complete(s, n, data).value)
  {
    var s' := Complete(s, n, data).value;
    forall m | m in s'.done
      ensures OnItsWay(s', m)
    {
      assert m != n ==> OnItsWay(s, m);
    }
  }

  lemma CreateReports(s: Sys, n: Name)
    requires ReportInv(s) && Create(s, n).Some?
    ensures ReportInv(Create(s, n).value)
  {
    var s' := Create(s, n).value;
    forall m | m in s'.done
      ensures OnItsWay(s', m)
    {
      assert OnItsWay(s, m);
    }
  }

  // ---- the others ----

  lemma UploadKeepsReports(s: Sys, w: nat, a: UploadAct)
    requires ReportInv(s) && UploadStep(s, w, a).Some?
    ensures ReportInv(UploadStep(s, w, a).value)
  {
    var s' := UploadStep(s, w, a).value;
    UploadTouches(s, w, a);
    UploadSurroundings(s, w, a);
    UploadOnward(s, w, a);
    UploadDisk(s, w, a);
    DownKeeps(s, s');
  }

  lemma UploadDisk(s: Sys, w: nat, a: UploadAct)
    requires UploadStep(s, w, a).Some?
    ensures UploadStep(s, w, a).value.disk.files.Keys <= s.disk.files.Keys
  {
  }

  lemma OutsideKeepsReports(s: Sys, a: Action)
    requires ReportInv(s) && Outside(a) && !a.CreateFile? && !a.CompleteFile? && Next(s, a).Some?
    ensures ReportInv(Next(s, a).value)
  {
    OutsideOnward(s, a);
    OutsideDown(s, a);
    DownKeeps(s, Next(s, a).value);
  }

  lemma OutsideDown(s: Sys, a: Action)
    requires Outside(a) && !a.CreateFile? && !a.CompleteFile? && Next(s, a).Some?
    ensures
      var s' := Next(s, a).value;
      && s'.run == s.run && s'.watch == s.watch && s'.accepted == s.accepted && s'.done == s.done
      && s'.disk.files.Keys <= s.disk.files.Keys
      && s'.job.intakeClosed == s.job.intakeClosed && s'.job.terminalAt == s.job.terminalAt
  {
    match a
    case GateA(id, g) => GateTouches(s, id, g); GateJob(s, id, g);
    case MonTick => MonTouches(s, a); MonJob(s, a);
    case MonCancel => MonTouches(s, a); MonJob(s, a);
    case MonStop => MonTouches(s, a); MonJob(s, a);
    case ClientA(id, c) => ClientTouches(s, id, c); ClientJob(s, id, c);
    case Forget => ReapTouches(s, a); ReapDisk(s, a);
    case RemoveForgotten => ReapTouches(s, a); ReapDisk(s, a);
    case _ =>
  }

  lemma ReapDisk(s: Sys, a: Action)
    requires ReapStep(s, a).Some?
    ensures ReapStep(s, a).value.disk == s.disk || ReapStep(s, a).value.disk == Disk(false, map[])
  {
  }

  lemma StepReports(s: Sys, a: Action)
    requires ReportInv(s) && AccountInv(s) && LifeInv(s) && Next(s, a).Some?
    ensures ReportInv(Next(s, a).value)
  {
    match a
    case RunA(r) => RunKeepsReports(s, r);
    case WatchA(w) => WatchKeepsReports(s, w);
    case UploadA(w, u) => UploadKeepsReports(s, w, u);
    case CreateFile(n) => CreateReports(s, n);
    case CompleteFile(n, data) => CompleteReports(s, n, data);
    case _ => OutsideKeepsReports(s, a);
  }

  lemma {:induction false} RunIsReported(cfg: Config, acts: seq<Action>)
    requires Exec(Init(cfg), acts).Some?
    ensures ReportInv(Exec(Init(cfg), acts).value)
    decreases |acts|
  {
    if acts != [] {
      RunIsReported(cfg, acts[..|acts| - 1]);
      RunInv(cfg, acts[..|acts| - 1]);
      InvParts(Exec(Init(cfg), acts[..|acts| - 1]).value);
      StepReports(Exec(Init(cfg), acts[..|acts| - 1]).value, acts[|acts| - 1]);
    }
  }

  /**
   * No report is lost: in every reachable state of a job that is sound (its watcher open and well, no
   * failure, not ended) every chunk that the transcoder has completed was accepted by the upload queue,
   * or its report is still on its way there.
   */
  lemma NoReportLost(s: Sys, n: Name)
    requires Reachable(s) && n in s.done
    requires s.watch.open && !s.watch.pc.Overflowed? && !s.watch.pc.WatchBroken?
    requires !s.job.failing && !IsTerminal(s.job.state)
    ensures n in s.accepted || n in s.watch.events || s.watch.pc == Enqueuing(n)
  {
    var acts :| Exec(Init(s.cfg), acts) == Some(s);
    RunIsReported(s.cfg, acts);
    assert OnItsWay(s, n);
  }

  /** Once the run goroutine is done, and from the end of the process on, the watcher is closed. */
  lemma WatcherIsClosed(s: Sys)
    requires Reachable(s) && (s.run.RunDone? || s.job.state.Draining?)
    ensures !s.watch.open
  {
    var acts :| Exec(Init(s.cfg), acts) == Some(s);
    RunIsReported(s.cfg, acts);
    ReachableLife(s);
    DrainingIsDone(s);
  }

  lemma DrainingIsDone(s: Sys)
    requires s.job.state == StateAt(s.run) && (Ending(s.run) ==> IsTerminal(s.run.final))
    requires s.run.RunDone? || s.job.state.Draining?
    ensures WatcherDone(s.run)
  {
  }
}
