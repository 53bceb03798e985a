/**
 * The lifecycle of a job as an invariant: what has been published, and what the run goroutine
 * may rely on, at every point of its program.
 */
module SystemLife {
  import opened Prelude
  import opened Protocol
  import opened EventHubSpec
  import opened JobSections
  import opened System
  import opened SystemChunks

  // ---- points of the run goroutine ----

  /** The points of the run goroutine in program order; the early failure path joins at 16. */
  function Rank(r: RunPc): nat {
    match r
    case SetPreparing => 0
    case PubPreparing => 1
    case InPrepare => 2
    case AbortCheck => 3
    case StartPushers => 4
    case StartProcess => 5
    case SetRunning => 6
    case PubRunning => 7
    case WaitProcess => 8
    case MarkExited(_) => 9
    case CloseWatcher(_) => 10
    case SetDraining(_) => 11
    case PubDraining(_) => 12
    case DrainStart(_) => 13
    case DrainAsleep(_, _, _, _) => 14
    case Deciding(_, _) => 15
    case EarlyFail => 16
    case Finalizing(stage, _, _, _, _) => 20 + StageRank(stage)
    case RunDone(_, _, _) => 27
  }

  function StageRank(f: FinStage): nat {
    match f
    case Locking => 0
    case PubState => 1
    case PubExit => 2
    case ClosingHub => 3
    case ClosingWatcher => 4
    case ClosingQueue => 5
    case RemovingDir => 6
  }

  /** Before the watcher, the queue and the upload workers exist. */
  predicate PrePushers(r: RunPc) { Rank(r) <= 4 }

  /** Between the start of the pushers and the end, on the ordinary path. */
  predicate Midway(r: RunPc) { 5 <= Rank(r) <= 15 }

  /** A terminal state has been decided on. */
  predicate Ending(r: RunPc) { Rank(r) >= 20 }

  /** The terminal state has been entered. */
  predicate Locked(r: RunPc) { Rank(r) >= 21 }

  predicate FinalPublished(r: RunPc) { Rank(r) >= 22 }

  predicate ExitPublished(r: RunPc) { Rank(r) >= 23 }

  predicate HubDone(r: RunPc) { Rank(r) >= 24 }

  predicate QueueDone(r: RunPc) { Rank(r) >= 26 }

  predicate Early(r: RunPc) { (r.Finalizing? || r.RunDone?) && r.early }

  /** The lifeline monitor has not been started. */
  predicate BeforeMonitor(r: RunPc) { Rank(r) <= 7 || r.EarlyFail? || Early(r) }

  predicate IntakeShut(r: RunPc) { Rank(r) >= 14 && !r.EarlyFail? && (Locked(r) || !Early(r)) }

  function StateAt(r: RunPc): JobState {
    var k := Rank(r);
    if k == 0 then Pending
    else if k <= 6 || k == 16 then Preparing
    else if k <= 11 then Running
    else if k <= 15 then Draining
    else if k >= 21 then r.final
    else if Early(r) then Preparing
    else Draining
  }

  const P1: seq<Event> := [StateEvent(Pending)]
  const P2: seq<Event> := P1 + [StateEvent(Preparing)]
  const P3: seq<Event> := P2 + [StateEvent(Running)]
  const P4: seq<Event> := P3 + [StateEvent(Draining)]

  /** The state events published when the run goroutine is at `r`. */
  function Published(r: RunPc): seq<Event> {
    var k := Rank(r);
    if k <= 1 then P1
    else if k <= 7 || k == 16 then P2
    else if k <= 12 then P3
    else if k <= 15 then P4
    else
      var before := if Early(r) then P2 else P4;
      if k >= 22 then before + [StateEvent(r.final)] else before
  }

  // ---- the invariants ----

  ghost predicate StageInv(s: Sys) {
    && s.job.state == StateAt(s.run)
    && s.hub.states == Published(s.run)
    && s.hub.exit == (if ExitPublished(s.run) then Some(ExitEvent(s.run.code)) else None)
    && s.hub.closed == HubDone(s.run)
  }

  ghost predicate QueueInv(r: RunPc, q: Queue, j: Job, w: WatchPc) {
    && !q.fault
    && (q.made <==> !w.NotWatching?)
    && (PrePushers(r) ==> !q.made && q.buf == [])
    && (Midway(r) || (Ending(r) && !r.early) ==> q.made)
    && j.queueClosed == (q.made && Locked(r))
    && q.closed == (q.made && QueueDone(r))
    && (r.Finalizing? && Locked(r) ==> r.closing == q.made)
    && (IntakeShut(r) ==> j.intakeClosed)
  }

  ghost predicate StartInv(s: Sys) {
    PrePushers(s.run) ==> s.uploads == map[] && s.watch == Watch(NotWatching, false, [])
  }

  /** What a terminal state was decided on. */
  ghost predicate FinalInv(r: RunPc, j: Job, mon: MonPc) {
    && (mon.MonOff? <==> BeforeMonitor(r))
    && (j.cancelState.Some? ==> j.cancelState.value.Cancelled? || j.cancelState.value.Lost?)
    && (j.cancelState == Some(Lost) ==> !mon.MonOff?)
    && (Ending(r) ==> IsTerminal(r.final))
    && (Ending(r) && r.early ==> r.code == 1 && (r.final.Failed? || r.final.Cancelled?))
    && (Ending(r) && (r.final.Cancelled? || r.final.Lost?) ==> j.cancelState == Some(r.final))
    && (Ending(r) && r.final.Completed? ==> !r.early && r.code == 0)
  }

  /** No upload is queued or in flight, and none can start. */
  ghost predicate Settled(j: Job) {
    j.intakeClosed && j.pending == 0
  }

  ghost predicate SettledInv(r: RunPc, j: Job) {
    && (r.Deciding? && !r.drainErr ==> Settled(j))
    && (Ending(r) && r.final.Completed? ==> Settled(j))
  }

  /** Why the out dir can be gone. */
  ghost predicate DirInv(s: Sys) {
    && (!s.disk.present ==> s.reaped || (s.run.RunDone? && (s.run.final.Cancelled? || s.run.final.Lost?)))
    && (s.reaped ==> !s.registered)
    && (!s.registered ==> IsTerminal(s.job.state))
  }

  ghost predicate LifeInv(s: Sys) {
    && StageInv(s)
    && QueueInv(s.run, s.queue, s.job, s.watch.pc)
    && StartInv(s)
    && FinalInv(s.run, s.job, s.mon)
    && SettledInv(s.run, s.job)
    && DirInv(s)
  }

  lemma InitLife(cfg: Config)
    ensures LifeInv(Init(cfg))
  {
    assert Init(cfg).hub.states == P1;
  }

  // ---- the run goroutine keeps them ----

  ghost predicate RestInv(s: Sys) {
    && QueueInv(s.run, s.queue, s.job, s.watch.pc)
    && StartInv(s)
    && FinalInv(s.run, s.job, s.mon)
    && SettledInv(s.run, s.job)
    && DirInv(s)
  }

  lemma PublishGrows(h: Hub, st: JobState)
    requires !h.closed
    ensures
      var h' := Publish(h, StateEvent(st));
      h'.states == h.states + [StateEvent(st)] && h'.exit == h.exit && !h'.closed
  {
  }

  lemma StartRunStage(s: Sys, a: RunAct)
    requires StageInv(s) && StartRun(s, a).Some?
    requires a.StepSetPreparing? || a.PrepareOk? || a.PrepareFails? || a.StepAbortCheck? || a.PushersOk?
    ensures StageInv(StartRun(s, a).value)
  {
    var s' := StartRun(s, a).value;
    match a
    case StepSetPreparing => assert StageInv(s');
    case PrepareOk => assert StageInv(s');
    case PrepareFails => assert StageInv(s');
    case StepAbortCheck => assert StageInv(s');
    case PushersOk => assert StageInv(s');
    case _ =>
  }

  lemma ProcessRunStage(s: Sys, a: RunAct)
    requires StageInv(s) && StartRun(s, a).Some?
    requires a.PushersFail? || a.ProcessOk? || a.ProcessFails?
    ensures StageInv(StartRun(s, a).value)
  {
    var s' := StartRun(s, a).value;
    match a
    case PushersFail => assert StageInv(s');
    case ProcessOk => assert StageInv(s');
    case ProcessFails => assert StageInv(s');
    case _ =>
  }

  lemma BeginRunStage(s: Sys, a: RunAct)
    requires StageInv(s) && StartRun(s, a).Some?
    requires a.StepEarlyFail? || a.StepSetRunning?
    ensures StageInv(StartRun(s, a).value)
  {
    var s' := StartRun(s, a).value;
    match a
    case StepEarlyFail => assert StageInv(s');
    case StepSetRunning => assert StageInv(s');
    case _ =>
  }

  lemma StartRunRest(s: Sys, a: RunAct)
    requires LifeInv(s) && StartRun(s, a).Some?
    requires a.StepSetPreparing? || a.PrepareOk? || a.PrepareFails? || a.StepAbortCheck?
    ensures RestInv(StartRun(s, a).value)
  {
    var s' := StartRun(s, a).value;
    match a
    case StepSetPreparing => assert RestInv(s');
    case PrepareOk => assert RestInv(s');
    case PrepareFails => assert RestInv(s');
    case StepAbortCheck => assert RestInv(s');
    case _ =>
  }

  lemma ProcessRunRest(s: Sys, a: RunAct)
    requires LifeInv(s) && StartRun(s, a).Some?
    requires a.PushersFail? || a.ProcessOk? || a.ProcessFails?
    ensures RestInv(StartRun(s, a).value)
  {
    var s' := StartRun(s, a).value;
    match a
    case PushersFail => assert RestInv(s');
    case ProcessOk => assert RestInv(s');
    case ProcessFails => assert RestInv(s');
    case _ =>
  }

  lemma BeginRunRest(s: Sys, a: RunAct)
    requires LifeInv(s) && StartRun(s, a).Some?
    requires a.StepEarlyFail? || a.StepSetRunning?
    ensures RestInv(StartRun(s, a).value)
  {
    var s' := StartRun(s, a).value;
    match a
    case StepEarlyFail => assert RestInv(s');
    case StepSetRunning => assert RestInv(s');
    case _ =>
  }

  lemma PushersRest(s: Sys)
    requires LifeInv(s) && StartRun(s, PushersOk).Some?
    ensures RestInv(StartRun(s, PushersOk).value)
  {
  }

  lemma PublishRunStage(s: Sys)
    requires StageInv(s) && PublishRun(s).Some?
    ensures StageInv(PublishRun(s).value)
  {
    PublishMoves(s);
    PublishGrows(s.hub, if s.run.PubPreparing? then Preparing else if s.run.PubRunning? then Running else Draining);
  }

  lemma PublishRunRest(s: Sys)
    requires LifeInv(s) && PublishRun(s).Some?
    ensures RestInv(PublishRun(s).value)
  {
    PublishMoves(s);
  }

  lemma StopRunStage(s: Sys, a: RunAct)
    requires StageInv(s) && StopRun(s, a).Some?
    requires a.ProcessExits? || a.StepMarkExited? || a.StepCloseWatcher? || a.StepSetDraining?
    ensures StageInv(StopRun(s, a).value)
  {
    var s' := StopRun(s, a).value;
    match a
    case ProcessExits(_) => assert StageInv(s');
    case StepMarkExited => assert StageInv(s');
    case StepCloseWatcher => assert StageInv(s');
    case StepSetDraining => assert StageInv(s');
    case _ =>
  }

  lemma DrainRunStage(s: Sys, a: RunAct)
    requires StageInv(s) && StopRun(s, a).Some?
    requires a.StepDrainStart? || a.StepDrainWake? || a.DrainTimer? || a.StepDecide?
    ensures StageInv(StopRun(s, a).value)
  {
    var s' := StopRun(s, a).value;
    match a
    case StepDrainStart => assert StageInv(s');
    case StepDrainWake => assert StageInv(s');
    case DrainTimer => assert StageInv(s');
    case StepDecide => assert StageInv(s');
    case _ =>
  }

  lemma ExitRunRest(s: Sys, a: RunAct)
    requires LifeInv(s) && StopRun(s, a).Some?
    requires a.ProcessExits? || a.StepMarkExited?
    ensures RestInv(StopRun(s, a).value)
  {
    var s' := StopRun(s, a).value;
    match a
    case ProcessExits(_) => assert RestInv(s');
    case StepMarkExited => assert RestInv(s');
    case _ =>
  }

  lemma StopRunRest(s: Sys, a: RunAct)
    requires LifeInv(s) && StopRun(s, a).Some?
    requires a.StepCloseWatcher? || a.StepSetDraining?
    ensures RestInv(StopRun(s, a).value)
  {
    var s' := StopRun(s, a).value;
    match a
    case StepCloseWatcher => assert RestInv(s');
    case StepSetDraining => assert RestInv(s');
    case _ =>
  }

  lemma DrainRunRest(s: Sys, a: RunAct)
    requires LifeInv(s) && s.job.pending >= 0 && StopRun(s, a).Some?
    requires a.StepDrainStart? || a.StepDrainWake?
    ensures RestInv(StopRun(s, a).value)
  {
    var s' := StopRun(s, a).value;
    match a
    case StepDrainStart => assert RestInv(s');
    case StepDrainWake => assert RestInv(s');
    case _ =>
  }

  lemma DecideRunRest(s: Sys, a: RunAct)
    requires LifeInv(s) && s.job.pending >= 0 && StopRun(s, a).Some?
    requires a.DrainTimer? || a.StepDecide?
    ensures RestInv(StopRun(s, a).value)
  {
    var s' := StopRun(s, a).value;
    match a
    case DrainTimer => assert RestInv(s');
    case StepDecide => assert RestInv(s');
    case _ =>
  }

  lemma FinalizeHubStage(s: Sys, a: RunAct)
    requires StageInv(s) && s.run.Finalizing? && FinalizeRun(s, a).Some?
    requires a.StepFinPublish? || a.StepFinExit? || a.StepCloseHub?
    ensures StageInv(FinalizeRun(s, a).value)
  {
    var s' := FinalizeRun(s, a).value;
    match a
    case StepFinPublish => PublishGrows(s.hub, s.run.final); assert StageInv(s');
    case StepFinExit => assert StageInv(s');
    case StepCloseHub => assert StageInv(s');
    case _ =>
  }

  lemma LockStage(s: Sys)
    requires StageInv(s) && s.run.Finalizing? && FinalizeRun(s, StepLock).Some?
    ensures StageInv(FinalizeRun(s, StepLock).value)
  {
    FinalizeState(s.job, s.queue.made, s.run.final, s.clock);
    assert !IsTerminal(s.job.state);
  }

  lemma FinalizeState(j: Job, queueMade: bool, st: JobState, now: nat)
    requires !IsTerminal(j.state)
    ensures Finalize(j, queueMade, st, now).0.state == st
  {
  }

  lemma FinalizeRunStage(s: Sys, a: RunAct)
    requires StageInv(s) && s.run.Finalizing? && FinalizeRun(s, a).Some?
    requires a.StepFinWatcher? || a.StepCloseQueue? || a.StepRemoveDir?
    ensures StageInv(FinalizeRun(s, a).value)
  {
    var s' := FinalizeRun(s, a).value;
    match a
    case StepFinWatcher => assert StageInv(s');
    case StepCloseQueue => assert StageInv(s');
    case StepRemoveDir => assert StageInv(s');
    case _ =>
  }

  lemma LockRest(s: Sys)
    requires LifeInv(s) && s.run.Finalizing? && FinalizeRun(s, StepLock).Some?
    ensures RestInv(FinalizeRun(s, StepLock).value)
  {
    OnlyPipelineSections(s.job, s.run.final, s.queue.made, s.clock);
  }

  lemma WatcherRest(s: Sys, a: RunAct)
    requires LifeInv(s) && s.run.Finalizing? && FinalizeRun(s, a).Some?
    requires a.StepFinWatcher?
    ensures RestInv(FinalizeRun(s, a).value)
  {
    var s' := FinalizeRun(s, a).value;
    match a
    case StepFinWatcher => assert RestInv(s');
    case _ =>
  }

  lemma FinalizeRunRest(s: Sys, a: RunAct)
    requires LifeInv(s) && s.run.Finalizing? && FinalizeRun(s, a).Some?
    requires a.StepCloseQueue? || a.StepRemoveDir?
    ensures RestInv(FinalizeRun(s, a).value)
  {
    var s' := FinalizeRun(s, a).value;
    match a
    case StepCloseQueue => assert RestInv(s');
    case StepRemoveDir => assert RestInv(s');
    case _ =>
  }

  lemma FinPublishRest(s: Sys, a: RunAct)
    requires LifeInv(s) && s.run.Finalizing? && FinalizeRun(s, a).Some?
    requires a.StepFinPublish?
    ensures RestInv(FinalizeRun(s, a).value)
  {
    var s' := FinalizeRun(s, a).value;
    match a
    case StepFinPublish => assert RestInv(s');
    case _ =>
  }

  lemma FinalizeHubRest(s: Sys, a: RunAct)
    requires LifeInv(s) && s.run.Finalizing? && FinalizeRun(s, a).Some?
    requires a.StepFinExit? || a.StepCloseHub?
    ensures RestInv(FinalizeRun(s, a).value)
  {
    var s' := FinalizeRun(s, a).value;
    match a
    case StepFinExit => assert RestInv(s');
    case StepCloseHub => assert RestInv(s');
    case _ =>
  }

  lemma RunLife(s: Sys, a: RunAct)
    requires LifeInv(s) && s.job.pending >= 0 && RunStep(s, a).Some?
    ensures LifeInv(RunStep(s, a).value)
  {
    var s' := RunStep(s, a).value;
    if StartAct(a) {
      StartLife(s, a);
      assert LifeInv(s');
    } else if StopAct(a) {
      StopLife(s, a);
      assert LifeInv(s');
    } else if a.StepPublish? {
      PublishRunStage(s);
      PublishRunRest(s);
      assert LifeInv(s');
    } else if a.StepLock? {
      LockStage(s);
      LockRest(s);
      assert LifeInv(s');
    } else if a.StepFinPublish? || a.StepFinExit? || a.StepCloseHub? {
      FinalizeHubStage(s, a);
      if a.StepFinPublish? {
        FinPublishRest(s, a);
      } else {
        FinalizeHubRest(s, a);
      }
      assert LifeInv(s');
    } else {
      FinalizeRunStage(s, a);
      if a.StepFinWatcher? {
        WatcherRest(s, a);
      } else {
        FinalizeRunRest(s, a);
      }
      assert LifeInv(s');
    }
  }

  lemma StartLife(s: Sys, a: RunAct)
    requires LifeInv(s) && StartAct(a) && StartRun(s, a).Some?
    ensures LifeInv(StartRun(s, a).value)
  {
    if a.PushersOk? {
      StartRunStage(s, a);
      PushersRest(s);
    } else if a.StepSetPreparing? || a.PrepareOk? || a.PrepareFails? || a.StepAbortCheck? {
      StartRunStage(s, a);
      StartRunRest(s, a);
    } else if a.StepEarlyFail? || a.StepSetRunning? {
      BeginRunStage(s, a);
      BeginRunRest(s, a);
    } else {
      ProcessRunStage(s, a);
      ProcessRunRest(s, a);
    }
  }

  lemma StopLife(s: Sys, a: RunAct)
    requires LifeInv(s) && s.job.pending >= 0 && StopAct(a) && StopRun(s, a).Some?
    ensures LifeInv(StopRun(s, a).value)
  {
    if a.ProcessExits? || a.StepMarkExited? {
      StopRunStage(s, a);
      ExitRunRest(s, a);
    } else if a.StepCloseWatcher? || a.StepSetDraining? {
      StopRunStage(s, a);
      StopRunRest(s, a);
    } else if a.StepDrainStart? || a.StepDrainWake? {
      DrainRunStage(s, a);
      DrainRunRest(s, a);
    } else {
      DrainRunStage(s, a);
      DecideRunRest(s, a);
    }
  }

  // ---- nobody else breaks them ----

  /** The run goroutine's surroundings are the same, as far as the lifecycle is concerned. */
  ghost predicate SameLife(s: Sys, s': Sys) {
    && s'.run == s.run && s'.mon == s.mon && s'.queue == s.queue && s'.watch == s.watch && s'.uploads == s.uploads
    && s'.disk.present == s.disk.present && s'.reaped == s.reaped && s'.registered == s.registered
    && SameStages(s.hub, s'.hub)
    && SameStatus(s.job, s'.job)
  }

  ghost predicate SameStages(h: Hub, h': Hub) {
    h'.states == h.states && h'.exit == h.exit && h'.closed == h.closed
  }

  ghost predicate SameStatus(j: Job, j': Job) {
    SameFlags(j, j') && j'.pending == j.pending
  }

  lemma SameLifeKeeps(s: Sys, s': Sys)
    requires LifeInv(s) && SameLife(s, s')
    ensures LifeInv(s')
  {
  }

  lemma QuietHub(h: Hub, line: string, id: nat)
    ensures SameStages(h, Publish(h, StderrEvent(line)))
    ensures SameStages(h, Subscribe(h, id)) && SameStages(h, Unsubscribe(h, id)) && SameStages(h, Drain(h, id))
  {
  }

  /** The watcher: nothing is enqueued once intake is closed, and nothing is sent on a closed queue. */
  lemma WatchLife(s: Sys, a: WatchAct)
    requires LifeInv(s) && WatchStep(s, a).Some?
    ensures LifeInv(WatchStep(s, a).value)
  {
  }

  /** The upload workers: once settled, no worker holds a name that could still be resolved. */
  lemma UploadLife(s: Sys, w: nat, a: UploadAct)
    requires LifeInv(s) && AccountInv(s) && UploadStep(s, w, a).Some?
    ensures LifeInv(UploadStep(s, w, a).value)
  {
    var s' := UploadStep(s, w, a).value;
    UploadSurroundings(s, w, a);
    if a.RecordIt? {
      assert w in BusyWorkers(s.uploads);
    }
  }

  lemma UploadSurroundings(s: Sys, w: nat, a: UploadAct)
    requires UploadStep(s, w, a).Some?
    ensures
      var s' := UploadStep(s, w, a).value;
      && w in s.uploads && UploadFrame(s, s')
      && SameQueue(s.queue, s'.queue)
      && s'.disk.present == s.disk.present
      && (a.RecordIt? ==> s.uploads[w].Pushed? && SameFlags(s.job, s'.job))
      && (!a.RecordIt? ==> SameStatus(s.job, s'.job))
  {
    var s' := UploadStep(s, w, a).value;
    UploadTouches(s, w, a);
    if a.TakeName? || a.RecordIt? {
      assert SameQueue(s.queue, s'.queue);
    } else {
      QuietWorker(s, w, a);
      AbortStatus(s.job);
    }
  }

  ghost predicate SameQueue(q: Queue, q': Queue) {
    q'.made == q.made && q'.closed == q.closed && q'.fault == q.fault && (q.buf == [] ==> q'.buf == [])
  }

  ghost predicate SameFlags(j: Job, j': Job) {
    && j'.state == j.state && j'.cancelState == j.cancelState
    && j'.intakeClosed == j.intakeClosed && j'.queueClosed == j.queueClosed
  }

  lemma AbortStatus(j: Job)
    ensures SameStatus(j, AbortFail(j))
  {
  }

  lemma CancelLife(s: Sys, s': Sys, target: JobState)
    requires LifeInv(s) && (target.Cancelled? || (target.Lost? && !s.mon.MonOff?))
    requires s' == s.(job := RequestCancel(s.job, target), mon := s'.mon)
    requires s'.mon == s.mon || (!s.mon.MonOff? && !s'.mon.MonOff?)
    ensures LifeInv(s')
  {
  }

  lemma ReapLife(s: Sys, a: Action)
    requires LifeInv(s) && ReapStep(s, a).Some?
    ensures LifeInv(ReapStep(s, a).value)
  {
  }
}
