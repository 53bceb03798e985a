/**
 * How a job ends, told from the outside: which cancels were asked for and which failures reported,
 * what the process exited with, and what the drain found when it last looked.
 */
module RunStory {
  import opened Prelude
  import opened Protocol
  import opened JobSections
  import opened System
  import opened SystemLife
  import opened SystemGate
  import opened SystemInv
  import opened SystemTheorems
  import opened CancelDecision

  /** What one test of the drain's loop condition saw. */
  datatype Test = Test(pending: int, failed: bool, at: nat)

  /**
   * `cancel`: the first cancel asked for before the job had ended. `failed`: an abortFail came before
   * the job had ended. `broke`: preparing the job, starting the pushers or starting the process failed.
   * `clear`: the abort check was made, with no cancel asked for and no failure reported. `code`: what the
   * process exited with. `began`, `test`: the drain.
   */
  datatype Story = Story(
    cancel: Option<JobState>, failed: bool, broke: bool, clear: bool,
    code: Option<int>, began: nat, test: Option<Test>)

  const NO_STORY := Story(None, false, false, false, None, 0, None)

  function Asked(s: Sys, h: Story, target: JobState): Story {
    if h.cancel.Some? || IsTerminal(s.job.state) then h else h.(cancel := Some(target))
  }

  function Reported(s: Sys, h: Story): Story {
    if IsTerminal(s.job.state) then h else h.(failed := true)
  }

  function Tested(s: Sys, h: Story): Story {
    h.(test := Some(Test(s.job.pending, h.failed, s.clock)))
  }

  /** One more action of the run. */
  function Tell(s: Sys, a: Action, h: Story): Story {
    match a
    case DeleteJob => Asked(s, h, Cancelled)
    case MonCancel => Asked(s, h, Lost)
    case WatchA(AbortIt) => Reported(s, h)
    case UploadA(w, FinishIt) => if w in s.uploads && s.uploads[w].Aborting? then Reported(s, h) else h
    case RunA(PrepareFails) => h.(broke := true)
    case RunA(PushersFail) => h.(broke := true)
    case RunA(ProcessFails) => h.(broke := true)
    case RunA(StepAbortCheck) => h.(clear := h.cancel.None? && !h.failed)
    case RunA(ProcessExits(code)) => h.(code := Some(code))
    case RunA(StepDrainStart) => Tested(s, h).(began := s.clock)
    case RunA(StepDrainWake) => Tested(s, h)
    case _ => h
  }

  function StoryOf(s: Sys, acts: seq<Action>): Story
    requires Exec(s, acts).Some?
    decreases |acts|
  {
    if acts == [] then NO_STORY
    else
      var p := acts[..|acts| - 1];
      Tell(Exec(s, p).value, acts[|acts| - 1], StoryOf(s, p))
  }

  /** There was something left to wait for, and time to do so. */
  predicate Waits(h: Story) {
    h.test.Some? && h.test.value.pending > 0 && !h.test.value.failed && h.test.value.at < h.began + 30
  }

  /** The drain ended with an upload outstanding or a failure. */
  predicate Short(h: Story) {
    h.test.Some? && (h.test.value.pending > 0 || h.test.value.failed)
  }

  // ---- the job records the story ----

  /** How far the run goroutine may have come, by the story. */
  ghost predicate StartTold(r: RunPc, h: Story) {
    match r
    case SetPreparing => !h.broke && !h.clear
    case PubPreparing => !h.broke && !h.clear
    case InPrepare => !h.broke && !h.clear
    case AbortCheck => !h.broke && !h.clear
    case EarlyFail => h.broke
    case Finalizing(_, _, _, early, _) => !early ==> !h.broke && h.clear
    case RunDone(_, _, early) => !early ==> !h.broke && h.clear
    case _ => !h.broke && h.clear
  }

  /** Where it has the exit code from, and what the drain told it. */
  ghost predicate CodeTold(r: RunPc, h: Story) {
    match r
    case MarkExited(code) => h.code == Some(code) && h.test.None?
    case CloseWatcher(code) => h.code == Some(code) && h.test.None?
    case SetDraining(code) => h.code == Some(code) && h.test.None?
    case PubDraining(code) => h.code == Some(code) && h.test.None?
    case DrainStart(code) => h.code == Some(code) && h.test.None?
    case DrainAsleep(code, deadline, _, _) => h.code == Some(code) && Waits(h) && deadline == h.began + 30
    case Deciding(code, drainErr) => h.code == Some(code) && h.test.Some? && !Waits(h) && drainErr == Short(h)
    case Finalizing(_, _, code, early, _) => if early then h.code.None? && h.test.None? && code == 1 else h.code == Some(code)
    case RunDone(_, code, early) => if early then h.code.None? && h.test.None? && code == 1 else h.code == Some(code)
    case _ => h.code.None? && h.test.None?
  }

  ghost predicate RunTold(r: RunPc, h: Story) {
    StartTold(r, h) && CodeTold(r, h)
  }

  ghost predicate JobTold(j: Job, h: Story) {
    j.cancelState == h.cancel && j.failing == h.failed
  }

  ghost predicate Told(s: Sys, h: Story) {
    JobTold(s.job, h) && RunTold(s.run, h)
  }

  lemma BeginTold(s: Sys, a: RunAct, h: Story)
    requires Told(s, h) && StartRun(s, a).Some?
    requires a.StepSetPreparing? || a.PrepareOk? || a.PrepareFails?
    ensures Told(StartRun(s, a).value, Tell(s, RunA(a), h))
  {
  }

  lemma CheckTold(s: Sys, h: Story)
    requires Told(s, h) && StartRun(s, StepAbortCheck).Some?
    ensures Told(StartRun(s, StepAbortCheck).value, Tell(s, RunA(StepAbortCheck), h))
  {
  }

  lemma ProcessTold(s: Sys, a: RunAct, h: Story)
    requires Told(s, h) && StartRun(s, a).Some?
    requires a.PushersOk? || a.PushersFail? || a.ProcessOk? || a.ProcessFails?
    ensures Told(StartRun(s, a).value, Tell(s, RunA(a), h))
  {
  }

  lemma RunningTold(s: Sys, a: RunAct, h: Story)
    requires Told(s, h) && StartRun(s, a).Some? && (a.StepEarlyFail? || a.StepSetRunning?)
    ensures Told(StartRun(s, a).value, Tell(s, RunA(a), h))
  {
    if a.StepEarlyFail? {
      EarlyTold(s, h);
    } else {
      SetRunningTold(s, h);
    }
  }

  lemma EarlyTold(s: Sys, h: Story)
    requires Told(s, h) && StartRun(s, StepEarlyFail).Some?
    ensures Told(StartRun(s, StepEarlyFail).value, h)
  {
  }

  lemma SetRunningTold(s: Sys, h: Story)
    requires Told(s, h) && StartRun(s, StepSetRunning).Some?
    ensures Told(StartRun(s, StepSetRunning).value, h)
  {
  }

  lemma StartTells(s: Sys, a: RunAct, h: Story)
    requires Told(s, h) && StartRun(s, a).Some?
    ensures Told(StartRun(s, a).value, Tell(s, RunA(a), h))
  {
    if a.StepSetPreparing? || a.PrepareOk? || a.PrepareFails? {
      BeginTold(s, a, h);
    } else if a.StepAbortCheck? {
      CheckTold(s, h);
    } else if a.StepEarlyFail? || a.StepSetRunning? {
      RunningTold(s, a, h);
    } else {
      ProcessTold(s, a, h);
    }
  }

  /** From the exit of the process to the start of the drain. */
  lemma ExitTold(s: Sys, a: RunAct, h: Story)
    requires Told(s, h) && StopRun(s, a).Some?
    requires a.ProcessExits? || a.StepMarkExited? || a.StepCloseWatcher?
    ensures Told(StopRun(s, a).value, Tell(s, RunA(a), h))
  {
  }

  lemma DrainingTold(s: Sys, h: Story)
    requires Told(s, h) && StopRun(s, StepSetDraining).Some?
    ensures Told(StopRun(s, StepSetDraining).value, h)
  {
    DrainingKeeps(s);
  }

  lemma DrainingKeeps(s: Sys)
    requires StopRun(s, StepSetDraining).Some?
    ensures
      var s' := StopRun(s, StepSetDraining).value;
      && s'.job.cancelState == s.job.cancelState && s'.job.failing == s.job.failing
      && s.run.SetDraining? && (s'.run == PubDraining(s.run.code) || s'.run == DrainStart(s.run.code))
  {
  }

  /** The drain and the verdict. */
  lemma DrainTold(s: Sys, a: RunAct, h: Story)
    requires Told(s, h) && StopRun(s, a).Some?
    requires a.StepDrainStart? || a.StepDrainWake? || a.DrainTimer? || a.StepDecide?
    ensures Told(StopRun(s, a).value, Tell(s, RunA(a), h))
  {
  }

  lemma StopTold(s: Sys, a: RunAct, h: Story)
    requires Told(s, h) && StopRun(s, a).Some?
    ensures Told(StopRun(s, a).value, Tell(s, RunA(a), h))
  {
    if a.StepDrainStart? || a.StepDrainWake? || a.DrainTimer? || a.StepDecide? {
      DrainTold(s, a, h);
    } else if a.StepSetDraining? {
      DrainingTold(s, h);
    } else {
      ExitTold(s, a, h);
    }
  }

  lemma FinalizeJob(s: Sys, a: RunAct)
    requires s.run.Finalizing? && FinalizeRun(s, a).Some?
    ensures
      var j := FinalizeRun(s, a).value.job;
      j.cancelState == s.job.cancelState && j.failing == s.job.failing
  {
    if a.StepLock? {
      LockKeeps(s);
    } else {
      FinalizeTouches(s, a);
    }
  }

  lemma LockKeeps(s: Sys)
    requires s.run.Finalizing? && FinalizeRun(s, StepLock).Some?
    ensures
      var j := FinalizeRun(s, StepLock).value.job;
      j.cancelState == s.job.cancelState && j.failing == s.job.failing
  {
  }

  lemma FinalizeRunKept(s: Sys, a: RunAct)
    requires s.run.Finalizing? && FinalizeRun(s, a).Some?
    ensures
      var r := FinalizeRun(s, a).value.run;
      (r.Finalizing? || r.RunDone?) && r.code == s.run.code && r.early == s.run.early
  {
  }

  lemma FinalizeTold(s: Sys, a: RunAct, h: Story)
    requires Told(s, h) && s.run.Finalizing? && FinalizeRun(s, a).Some?
    ensures Told(FinalizeRun(s, a).value, h)
  {
    FinalizeJob(s, a);
    FinalizeRunKept(s, a);
  }

  lemma RunTells(s: Sys, a: RunAct, h: Story)
    requires Told(s, h) && RunStep(s, a).Some?
    ensures Told(RunStep(s, a).value, Tell(s, RunA(a), h))
  {
    if StartAct(a) {
      StartTells(s, a, h);
    } else if StopAct(a) {
      StopTold(s, a, h);
    } else if a.StepPublish? {
      PublishMoves(s);
    } else {
      FinalizeTold(s, a, h);
    }
  }

  lemma WatchTells(s: Sys, a: WatchAct, h: Story)
    requires JobTold(s.job, h) && WatchStep(s, a).Some?
    ensures JobTold(WatchStep(s, a).value.job, Tell(s, WatchA(a), h))
  {
  }

  lemma UploadTells(s: Sys, w: nat, a: UploadAct, h: Story)
    requires JobTold(s.job, h) && UploadStep(s, w, a).Some?
    ensures JobTold(UploadStep(s, w, a).value.job, Tell(s, UploadA(w, a), h))
  {
  }

  lemma OutsideTells(s: Sys, a: Action, h: Story)
    requires JobTold(s.job, h) && Outside(a) && Next(s, a).Some?
    ensures JobTold(Next(s, a).value.job, Tell(s, a, h))
  {
    match a
    case GateA(id, g) => GateJob(s, id, g);
    case ClientA(id, c) => ClientJob(s, id, c);
    case MonTick => MonCancels(s, a);
    case MonCancel => MonCancels(s, a);
    case MonStop => MonCancels(s, a);
    case Forget => ReapTouches(s, a);
    case RemoveForgotten => ReapTouches(s, a);
    case _ =>
  }

  /** The monitor asks for one thing only. */
  lemma MonCancels(s: Sys, a: Action)
    requires MonStep(s, a).Some?
    ensures MonStep(s, a).value.job == if a.MonCancel? then RequestCancel(s.job, Lost) else s.job
  {
  }

  lemma StepTells(s: Sys, a: Action, h: Story)
    requires Told(s, h) && Next(s, a).Some?
    ensures Told(Next(s, a).value, Tell(s, a, h))
  {
    if a.RunA? {
      RunTells(s, a.r, h);
    } else {
      OthersLeaveRun(s, a);
      OthersKeepRunTold(s, a, h);
      if a.WatchA? {
        WatchTells(s, a.w, h);
      } else if a.UploadA? {
        UploadTells(s, a.worker, a.u, h);
      } else {
        OutsideTells(s, a, h);
      }
    }
  }

  lemma OthersKeepRunTold(s: Sys, a: Action, h: Story)
    requires RunTold(s.run, h) && !a.RunA?
    ensures RunTold(s.run, Tell(s, a, h))
  {
  }

  lemma {:induction false} RunIsTold(cfg: Config, acts: seq<Action>)
    requires Exec(Init(cfg), acts).Some?
    ensures Told(Exec(Init(cfg), acts).value, StoryOf(Init(cfg), acts))
    decreases |acts|
  {
    if acts != [] {
      var p := acts[..|acts| - 1];
      RunIsTold(cfg, p);
      StepTells(Exec(Init(cfg), p).value, acts[|acts| - 1], StoryOf(Init(cfg), p));
    }
  }

  /**
   * The job's record is the story's: over every run the cancel on record is the first one asked for
   * before the job had ended, and the job is failing exactly if an abortFail came before that.
   */
  lemma RecordIsStory(cfg: Config, acts: seq<Action>)
    requires Exec(Init(cfg), acts).Some?
    ensures
      var s, h := Exec(Init(cfg), acts).value, StoryOf(Init(cfg), acts);
      s.job.cancelState == h.cancel && s.job.failing == h.failed
  {
    RunIsTold(cfg, acts);
  }

  /** Whom a request would have the job end as: a DELETE asks for CANCELLED, the monitor for LOST. */
  function Target(a: Action): Option<JobState> {
    match a
    case DeleteJob => Some(Cancelled)
    case MonCancel => Some(Lost)
    case _ => None
  }

  /**
   * A request is recorded, whatever the job is doing: if a cancel is asked for while the job has not
   * ended, then from that step on a cancel is on record, and it is this one if there was none before.
   */
  lemma RequestIsRecorded(cfg: Config, pre: seq<Action>, a: Action, post: seq<Action>)
    requires Target(a).Some? && Exec(Init(cfg), pre + [a] + post).Some?
    requires Exec(Init(cfg), pre).Some? && !IsTerminal(Exec(Init(cfg), pre).value.job.state)
    ensures
      var before := Exec(Init(cfg), pre).value.job.cancelState;
      Exec(Init(cfg), pre + [a] + post).value.job.cancelState == if before.Some? then before else Target(a)
  {
    var mid := pre + [a];
    ExecConcat(Init(cfg), mid, post);
    assert mid[..|mid| - 1] == pre;
    RecordIsStory(cfg, pre);
    RecordIsStory(cfg, mid);
    AskedStays(Exec(Init(cfg), mid).value, post);
  }

  lemma {:induction false} AskedStays(s: Sys, acts: seq<Action>)
    requires Exec(s, acts).Some? && s.job.cancelState.Some?
    ensures Exec(s, acts).value.job.cancelState == s.job.cancelState
    decreases |acts|
  {
    if acts != [] {
      AskedStays(s, acts[..|acts| - 1]);
      StepOnward(Exec(s, acts[..|acts| - 1]).value, acts[|acts| - 1]);
    }
  }

  // ---- the verdict ----

  /** What a job has to end as, by its story. */
  function EndOf(h: Story): JobState {
    if h.cancel.Some? then h.cancel.value
    else if !h.broke && h.code == Some(0) && !h.failed && !Short(h) then Completed
    else Failed
  }

  lemma DecidesByStory(s: Sys, a: RunAct, h: Story)
    requires Told(s, h) && Decides(s, RunA(a)) && RunStep(s, a).Some?
    ensures Chosen(RunStep(s, a).value.run) == Some(EndOf(h))
  {
  }

  /**
   * How every job ends. A run that has ended has a step that decided, and the terminal state is what
   * the story up to that step says: the first cancel that was asked for; without one COMPLETED if the job
   * could be started, the process exited with 0, no failure was reported and the drain found nothing
   * outstanding; else FAILED.
   */
  lemma EndsByStory(cfg: Config, acts: seq<Action>) returns (k: nat)
    requires Exec(Init(cfg), acts).Some? && IsTerminal(Exec(Init(cfg), acts).value.job.state)
    ensures k < |acts| && Exec(Init(cfg), acts[..k]).Some? && Decides(Exec(Init(cfg), acts[..k]).value, acts[k])
    ensures Exec(Init(cfg), acts).value.job.state == EndOf(StoryOf(Init(cfg), acts[..k]))
  {
    TerminalIsSettled(cfg, acts);
    k := DecisionExists(cfg, acts);
    SplitAt(acts, k);
    EndsAt(cfg, acts[..k], acts[k], acts[k + 1..]);
  }

  lemma EndsAt(cfg: Config, pre: seq<Action>, a: Action, post: seq<Action>)
    requires Exec(Init(cfg), pre).Some? && Decides(Exec(Init(cfg), pre).value, a)
    requires Exec(Init(cfg), pre + [a] + post).Some?
    requires IsTerminal(Exec(Init(cfg), pre + [a] + post).value.job.state)
    ensures Exec(Init(cfg), pre + [a] + post).value.job.state == EndOf(StoryOf(Init(cfg), pre))
  {
    var mid := pre + [a];
    ExecConcat(Init(cfg), mid, post);
    assert mid[..|mid| - 1] == pre;
    RunIsTold(cfg, pre);
    DecidesByStory(Exec(Init(cfg), pre).value, a.r, StoryOf(Init(cfg), pre));
    SettledStays(Exec(Init(cfg), mid).value, post);
    TerminalIsSettled(cfg, mid + post);
  }

  /**
   * A cancel that comes in time decides: if one is asked for before the deciding step, with none on
   * record, then a run that ends in a terminal state ends in the one that was asked for.
   */
  lemma RequestDecides(cfg: Config, pre: seq<Action>, a: Action, post: seq<Action>)
    requires Target(a).Some? && Exec(Init(cfg), pre + [a] + post).Some?
    requires Exec(Init(cfg), pre).Some? && Chosen(Exec(Init(cfg), pre).value.run).None?
    requires Exec(Init(cfg), pre).value.job.cancelState.None?
    requires IsTerminal(Exec(Init(cfg), pre + [a] + post).value.job.state)
    ensures Some(Exec(Init(cfg), pre + [a] + post).value.job.state) == Target(a)
  {
    var k := EndsByStory(cfg, pre + [a] + post);
    DecidedAfter(cfg, pre, a, post, k);
    CutInside(pre, a, post, k);
    AskedBefore(cfg, pre, a, post[..k - |pre| - 1]);
  }

  lemma CutInside(pre: seq<Action>, a: Action, post: seq<Action>, k: nat)
    requires |pre| < k <= |pre + [a] + post|
    ensures (pre + [a] + post)[..k] == pre + [a] + post[..k - |pre| - 1]
  {
  }

  /** The request is in the story from then on. */
  lemma AskedBefore(cfg: Config, pre: seq<Action>, a: Action, rest: seq<Action>)
    requires Target(a).Some? && Exec(Init(cfg), pre + [a] + rest).Some?
    requires Exec(Init(cfg), pre).Some? && Chosen(Exec(Init(cfg), pre).value.run).None?
    requires Exec(Init(cfg), pre).value.job.cancelState.None?
    ensures StoryOf(Init(cfg), pre + [a] + rest).cancel == Target(a)
  {
    TerminalIsSettled(cfg, pre);
    RequestIsRecorded(cfg, pre, a, rest);
    RecordIsStory(cfg, pre + [a] + rest);
  }

  /** Where nothing had been chosen, the deciding step was yet to come. */
  lemma DecidedAfter(cfg: Config, pre: seq<Action>, a: Action, post: seq<Action>, k: nat)
    requires Exec(Init(cfg), pre).Some? && Chosen(Exec(Init(cfg), pre).value.run).None? && Target(a).Some?
    requires k < |pre + [a] + post| && Exec(Init(cfg), (pre + [a] + post)[..k]).Some?
    requires Decides(Exec(Init(cfg), (pre + [a] + post)[..k]).value, (pre + [a] + post)[k])
    ensures k > |pre|
  {
    if k < |pre| {
      SplitAt(pre, k);
      assert (pre + [a] + post)[..k] == pre[..k];
      DecidedSince(cfg, pre[..k], pre[k], pre[k + 1..]);
    }
  }

  /** The choice of a deciding step is there at every later point of the run. */
  lemma DecidedSince(cfg: Config, pre: seq<Action>, a: Action, post: seq<Action>)
    requires Exec(Init(cfg), pre).Some? && Decides(Exec(Init(cfg), pre).value, a)
    requires Exec(Init(cfg), pre + [a] + post).Some?
    ensures Chosen(Exec(Init(cfg), pre + [a] + post).value.run).Some?
  {
    var mid := pre + [a];
    ExecConcat(Init(cfg), mid, post);
    assert mid[..|mid| - 1] == pre;
    DecidesFinal(Exec(Init(cfg), pre).value, a);
    SettledStays(Exec(Init(cfg), mid).value, post);
  }

  /**
   * What is decided before the process is started: the abort check goes on to start it exactly when
   * no cancel was asked for and no failure reported; else it settles on the cancel, or on FAILED.
   */
  lemma StartsUnlessAborted(cfg: Config, acts: seq<Action>)
    requires Exec(Init(cfg), acts + [RunA(StepAbortCheck)]).Some?
    ensures Exec(Init(cfg), acts).Some?
    ensures
      var h := StoryOf(Init(cfg), acts);
      var r := Exec(Init(cfg), acts + [RunA(StepAbortCheck)]).value.run;
      && (r.StartPushers? <==> h.cancel.None? && !h.failed)
      && (!r.StartPushers? ==> Chosen(r) == Some(if h.cancel.Some? then h.cancel.value else Failed))
  {
    var next := acts + [RunA(StepAbortCheck)];
    assert next[..|next| - 1] == acts;
    RunIsTold(cfg, acts);
    AbortCheckByStory(Exec(Init(cfg), acts).value, StoryOf(Init(cfg), acts));
  }

  lemma AbortCheckByStory(s: Sys, h: Story)
    requires JobTold(s.job, h) && RunStep(s, StepAbortCheck).Some?
    ensures
      var r := RunStep(s, StepAbortCheck).value.run;
      && (r.StartPushers? <==> h.cancel.None? && !h.failed)
      && (!r.StartPushers? ==> Chosen(r) == Some(if h.cancel.Some? then h.cancel.value else Failed))
  {
  }

  /**
   * No process without a clear abort check: over every run, the goroutine is at or past the start of the
   * pushers on the ordinary path only if the check found no cancel and no failure, and nothing has failed to
   * start since; and a process has exited only then.
   */
  lemma StartedClear(cfg: Config, acts: seq<Action>)
    requires Exec(Init(cfg), acts).Some?
    ensures
      var r, h := Exec(Init(cfg), acts).value.run, StoryOf(Init(cfg), acts);
      && (4 <= Rank(r) <= 15 ==> h.clear && !h.broke)
      && (h.code.Some? ==> h.clear && !h.broke)
  {
    RunIsTold(cfg, acts);
    StartedTold(Exec(Init(cfg), acts).value.run, StoryOf(Init(cfg), acts));
  }

  lemma StartedTold(r: RunPc, h: Story)
    requires RunTold(r, h)
    ensures (4 <= Rank(r) <= 15 ==> h.clear && !h.broke) && (h.code.Some? ==> h.clear && !h.broke)
  {
  }

  /**
   * What the exit event says, over every run: the code that the process exited with, or 1 if the job
   * gave up before it was started.
   */
  lemma ExitSays(cfg: Config, acts: seq<Action>)
    requires Exec(Init(cfg), acts).Some? && Exec(Init(cfg), acts).value.hub.exit.Some?
    ensures
      var code := StoryOf(Init(cfg), acts).code;
      Exec(Init(cfg), acts).value.hub.exit == Some(ExitEvent(if code.Some? then code.value else 1))
  {
    RunIsTold(cfg, acts);
    RunStage(cfg, acts);
    ExitStage(Exec(Init(cfg), acts).value, StoryOf(Init(cfg), acts));
  }

  lemma ExitStage(s: Sys, h: Story)
    requires RunTold(s.run, h) && StageInv(s) && s.hub.exit.Some?
    ensures s.hub.exit == Some(ExitEvent(if h.code.Some? then h.code.value else 1))
  {
  }

  /**
   * How long the drain waits, over every run: it sleeps only with an upload outstanding, no failure
   * and its 30 seconds not over, and the verdict is taken only after a look that found otherwise.
   */
  lemma DrainWaitsFor(cfg: Config, acts: seq<Action>)
    requires Exec(Init(cfg), acts).Some?
    ensures
      var r, h := Exec(Init(cfg), acts).value.run, StoryOf(Init(cfg), acts);
      && (r.DrainAsleep? ==> Waits(h) && r.deadline == h.began + 30)
      && (r.Deciding? ==> h.test.Some? && !Waits(h) && (r.drainErr <==> Short(h)))
  {
    RunIsTold(cfg, acts);
  }
}
