/** What a job leaves behind: its out dir, and when the worker forgets it. */
module JobEnds {
  import opened Prelude
  import opened Protocol
  import opened JobSections
  import opened System
  import opened SystemLife
  import opened SystemGate
  import opened SystemInv
  import opened SystemTheorems
  import L = SystemLifeline
  import R = SystemReports

  // ---- the out dir ----

  ghost predicate DirOk(s: Sys) {
    && (!s.disk.present ==> s.disk.files == map[])
    && (s.run.RunDone? && (s.run.final.Cancelled? || s.run.final.Lost?) ==> !s.disk.present)
  }

  lemma RunDir(s: Sys, a: RunAct)
    requires DirOk(s) && !IsTerminal(s.job.state) == !Locked(s.run) && RunStep(s, a).Some?
    ensures DirOk(RunStep(s, a).value)
  {
    if StartAct(a) {
      StartDir(s, a);
    } else if StopAct(a) {
      StopMoves(s, a);
      StopStays(s, a);
    } else if a.StepPublish? {
      PublishMoves(s);
    } else {
      FinalDir(s, a);
    }
  }

  lemma StartDir(s: Sys, a: RunAct)
    requires StartRun(s, a).Some?
    ensures StartRun(s, a).value.disk == s.disk && !StartRun(s, a).value.run.RunDone?
  {
  }

  lemma StopStays(s: Sys, a: RunAct)
    requires StopRun(s, a).Some?
    ensures !StopRun(s, a).value.run.RunDone?
  {
  }

  lemma FinalDir(s: Sys, a: RunAct)
    requires DirOk(s) && !IsTerminal(s.job.state) == !Locked(s.run)
    requires s.run.Finalizing? && FinalizeRun(s, a).Some?
    ensures DirOk(FinalizeRun(s, a).value)
  {
  }

  lemma UploadDir(s: Sys, w: nat, a: UploadAct)
    requires DirOk(s) && UploadStep(s, w, a).Some?
    ensures DirOk(UploadStep(s, w, a).value)
  {
    UploadTouches(s, w, a);
    UploadSurroundings(s, w, a);
    R.UploadDisk(s, w, a);
  }

  lemma FileDir(s: Sys, n: Name, data: Bytes)
    requires DirOk(s)
    ensures Create(s, n).Some? ==> DirOk(Create(s, n).value)
    ensures Complete(s, n, data).Some? ==> DirOk(Complete(s, n, data).value)
  {
  }

  lemma OutsideDir(s: Sys, a: Action)
    requires DirOk(s) && Outside(a) && !a.CreateFile? && !a.CompleteFile? && Next(s, a).Some?
    ensures DirOk(Next(s, a).value)
  {
    match a
    case GateA(id, g) => GateTouches(s, id, g);
    case MonTick => MonTouches(s, a);
    case MonCancel => MonTouches(s, a);
    case MonStop => MonTouches(s, a);
    case ClientA(id, c) => ClientTouches(s, id, c);
    case Forget => ReapTouches(s, a); R.ReapDisk(s, a);
    case RemoveForgotten => ReapTouches(s, a); R.ReapDisk(s, a);
    case _ =>
  }

  lemma StepDir(s: Sys, a: Action)
    requires DirOk(s) && !IsTerminal(s.job.state) == !Locked(s.run) && Next(s, a).Some?
    ensures DirOk(Next(s, a).value)
  {
    match a
    case RunA(r) => RunDir(s, r);
    case WatchA(w) => WatchTouches(s, w);
    case UploadA(w, u) => UploadDir(s, w, u);
    case CreateFile(n) => FileDir(s, n, []);
    case CompleteFile(n, data) => FileDir(s, n, data);
    case _ => OutsideDir(s, a);
  }

  lemma EndedIsLocked(s: Sys)
    requires s.job.state == StateAt(s.run) && (Ending(s.run) ==> IsTerminal(s.run.final))
    ensures !IsTerminal(s.job.state) == !Locked(s.run)
  {
  }

  lemma RunLocked(cfg: Config, acts: seq<Action>)
    requires Exec(Init(cfg), acts).Some?
    ensures var s := Exec(Init(cfg), acts).value; !IsTerminal(s.job.state) == !Locked(s.run)
  {
    RunStage(cfg, acts);
    RunFinal(cfg, acts);
    EndedIsLocked(Exec(Init(cfg), acts).value);
  }

  lemma {:induction false} RunDirOk(cfg: Config, acts: seq<Action>)
    requires Exec(Init(cfg), acts).Some?
    ensures DirOk(Exec(Init(cfg), acts).value)
    decreases |acts|
  {
    if acts != [] {
      var p := acts[..|acts| - 1];
      RunDirOk(cfg, p);
      RunLocked(cfg, p);
      StepDir(Exec(Init(cfg), p).value, acts[|acts| - 1]);
    }
  }

  /**
   * What is left in the out dir: in every reachable state in which the run goroutine is done with a job
   * that ended CANCELLED or LOST, nothing; after any other end, and until the job is reaped, every
   * completed chunk that has no ACK.
   */
  lemma OutDirAfterEnd(s: Sys)
    requires Reachable(s) && s.run.RunDone?
    ensures s.job.state.Cancelled? || s.job.state.Lost? ==> !s.disk.present && s.disk.files == map[]
    ensures !s.job.state.Cancelled? && !s.job.state.Lost? && !s.reaped ==>
              forall n :: n in s.done && n !in s.job.acked ==> n in s.disk.files && s.disk.files[n].data == s.done[n]
  {
    var acts :| Exec(Init(s.cfg), acts) == Some(s);
    RunDirOk(s.cfg, acts);
    RunStage(s.cfg, acts);
    if !s.job.state.Cancelled? && !s.job.state.Lost? && !s.reaped {
      forall n | n in s.done && n !in s.job.acked
        ensures n in s.disk.files && s.disk.files[n].data == s.done[n]
      {
        LocalCopyKept(s, n);
      }
    }
  }

  // ---- the map entry ----

  /** When, in the course of the run, the job entered its terminal state. */
  function EndedAt(cfg: Config, acts: seq<Action>): Option<nat>
    requires Exec(Init(cfg), acts).Some?
    decreases |acts|
  {
    if acts == [] then None
    else
      var b, s := Exec(Init(cfg), acts[..|acts| - 1]).value, Exec(Init(cfg), acts).value;
      if !IsTerminal(b.job.state) && IsTerminal(s.job.state) then Some(s.clock)
      else EndedAt(cfg, acts[..|acts| - 1])
  }

  /** The stamp of a terminal state is set when it is entered, and then stays. */
  ghost predicate StampMoves(s: Sys, s': Sys) {
    if IsTerminal(s'.job.state) && !IsTerminal(s.job.state) then s'.job.terminalAt == s'.clock
    else IsTerminal(s.job.state) ==> s'.job.terminalAt == s.job.terminalAt
  }

  lemma RunStamp(s: Sys, a: RunAct)
    requires RunStep(s, a).Some?
    ensures StampMoves(s, RunStep(s, a).value)
  {
    L.RunClock(s, a);
    if StartAct(a) {
      StartStamp(s, a);
    } else if StopAct(a) {
      StopStamp(s, a);
    } else if a.StepPublish? {
      PublishMoves(s);
    } else if a.StepLock? {
      LockStamp(s);
    } else {
      FinalizeTouches(s, a);
    }
  }

  lemma StartStamp(s: Sys, a: RunAct)
    requires StartRun(s, a).Some?
    ensures
      var j := StartRun(s, a).value.job;
      j.terminalAt == s.job.terminalAt && (IsTerminal(j.state) ==> IsTerminal(s.job.state))
  {
  }

  lemma StopStamp(s: Sys, a: RunAct)
    requires StopRun(s, a).Some?
    ensures
      var j := StopRun(s, a).value.job;
      j.terminalAt == s.job.terminalAt && (IsTerminal(j.state) ==> IsTerminal(s.job.state))
  {
  }

  lemma LockStamp(s: Sys)
    requires s.run.Finalizing? && FinalizeRun(s, StepLock).Some?
    ensures
      var j := FinalizeRun(s, StepLock).value.job;
      if IsTerminal(s.job.state) then j == s.job else j.terminalAt == s.clock
  {
  }

  lemma WatchStamp(s: Sys, a: WatchAct)
    requires WatchStep(s, a).Some?
    ensures var j := WatchStep(s, a).value.job; j.state == s.job.state && j.terminalAt == s.job.terminalAt
  {
    WatchTouches(s, a);
  }

  lemma UploadStamp(s: Sys, w: nat, a: UploadAct)
    requires UploadStep(s, w, a).Some?
    ensures var j := UploadStep(s, w, a).value.job; j.state == s.job.state && j.terminalAt == s.job.terminalAt
  {
  }

  lemma OutsideStamp(s: Sys, a: Action)
    requires Outside(a) && Next(s, a).Some?
    ensures var j := Next(s, a).value.job; j.state == s.job.state && j.terminalAt == s.job.terminalAt
  {
    match a
    case GateA(id, g) => GateJob(s, id, g);
    case ClientA(id, c) => ClientJob(s, id, c);
    case MonTick => MonJob(s, a);
    case MonCancel => MonJob(s, a);
    case MonStop => MonJob(s, a);
    case Forget => ReapTouches(s, a);
    case RemoveForgotten => ReapTouches(s, a);
    case CreateFile(n) => FileTouches(s, n, []);
    case CompleteFile(n, data) => FileTouches(s, n, data);
    case _ =>
  }

  lemma StepStamp(s: Sys, a: Action)
    requires Next(s, a).Some?
    ensures StampMoves(s, Next(s, a).value)
  {
    match a
    case RunA(r) => RunStamp(s, r);
    case WatchA(w) => WatchStamp(s, w);
    case UploadA(w, u) => UploadStamp(s, w, u);
    case _ => OutsideStamp(s, a);
  }

  /** Nobody but the reaper takes a job out of the map. */
  lemma StepForgets(s: Sys, a: Action)
    requires Next(s, a).Some? && s.registered && !Next(s, a).value.registered
    ensures IsTerminal(s.job.state) && s.clock - s.job.terminalAt >= 300 && a == Forget
  {
    match a
    case RunA(r) => RunRegistered(s, r);
    case WatchA(w) => WatchTouches(s, w);
    case UploadA(w, u) => UploadTouches(s, w, u);
    case GateA(id, g) => GateTouches(s, id, g);
    case ClientA(id, c) => ClientTouches(s, id, c);
    case MonTick => MonTouches(s, a);
    case MonCancel => MonTouches(s, a);
    case MonStop => MonTouches(s, a);
    case CreateFile(n) => FileTouches(s, n, []);
    case CompleteFile(n, data) => FileTouches(s, n, data);
    case Forget => ForgetsWhen(s);
    case RemoveForgotten =>
    case _ =>
  }

  lemma RunRegistered(s: Sys, a: RunAct)
    requires RunStep(s, a).Some?
    ensures RunStep(s, a).value.registered == s.registered
  {
    if !a.PushersOk? {
      RunTouches(s, a);
    }
  }

  lemma ForgetsWhen(s: Sys)
    requires ReapStep(s, Forget).Some?
    ensures IsTerminal(s.job.state) && s.clock - s.job.terminalAt >= 300
  {
  }

  ghost predicate EndOk(cfg: Config, acts: seq<Action>)
    requires Exec(Init(cfg), acts).Some?
  {
    var s := Exec(Init(cfg), acts).value;
    && (IsTerminal(s.job.state) ==> EndedAt(cfg, acts) == Some(s.job.terminalAt))
    && (!s.registered ==> IsTerminal(s.job.state) && s.clock >= s.job.terminalAt + 300)
  }

  lemma {:induction false} RunEndOk(cfg: Config, acts: seq<Action>)
    requires Exec(Init(cfg), acts).Some?
    ensures EndOk(cfg, acts)
    decreases |acts|
  {
    if acts != [] {
      var p, a := acts[..|acts| - 1], acts[|acts| - 1];
      var b, s := Exec(Init(cfg), p).value, Exec(Init(cfg), acts).value;
      RunEndOk(cfg, p);
      StepStamp(b, a);
      StepOnward(b, a);
      L.StepClock(b, a);
      if b.registered && !s.registered {
        StepForgets(b, a);
      }
    }
  }

  /**
   * No job is forgotten early: over every run, one that is no longer in the worker's map entered its
   * terminal state at least five minutes ago.
   */
  lemma ForgottenLate(cfg: Config, acts: seq<Action>)
    requires Exec(Init(cfg), acts).Some? && !Exec(Init(cfg), acts).value.registered
    ensures EndedAt(cfg, acts).Some? && Exec(Init(cfg), acts).value.clock >= EndedAt(cfg, acts).value + 300
  {
    RunEndOk(cfg, acts);
  }
}
