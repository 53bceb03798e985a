/** Which cancels decide how a job ends: those recorded before the end was decided on. */
module CancelDecision {
  import opened Prelude
  import opened Protocol
  import opened JobSections
  import opened System
  import opened SystemLife
  import opened SystemInv
  import opened SystemTheorems

  /** The step that settles the terminal state: the verdict, an early failure, or an early abort. */
  predicate Decides(s: Sys, a: Action) {
    && a.RunA?
    && (|| (a.r.StepDecide? && s.run.Deciding?)
        || (a.r.StepEarlyFail? && s.run.EarlyFail?)
        || (a.r.StepAbortCheck? && s.run.AbortCheck? && AbortState(s.job).Some?))
  }

  /** The terminal state that has been settled on, whether entered or not. */
  function Chosen(r: RunPc): Option<JobState> {
    if r.Finalizing? || r.RunDone? then Some(r.final) else None
  }

  /** A recorded cancel decides; without one, the end is COMPLETED or FAILED. */
  lemma DecidesFinal(s: Sys, a: Action)
    requires Decides(s, a) && Next(s, a).Some?
    ensures Chosen(s.run).None?
    ensures
      var f := Chosen(Next(s, a).value.run);
      f.Some? && if s.job.cancelState.Some? then f == s.job.cancelState else f.value.Completed? || f.value.Failed?
  {
    RunDecides(s, a.r);
  }

  lemma RunDecides(s: Sys, a: RunAct)
    requires Decides(s, RunA(a)) && RunStep(s, a).Some?
    ensures
      var f := Chosen(RunStep(s, a).value.run);
      f.Some? && if s.job.cancelState.Some? then f == s.job.cancelState else f.value.Completed? || f.value.Failed?
  {
  }

  lemma RunFinalStays(s: Sys, a: RunAct)
    requires RunStep(s, a).Some? && Chosen(s.run).Some?
    ensures Chosen(RunStep(s, a).value.run) == Chosen(s.run)
  {
    OnlyFinalizes(s, a);
    FinalizeKeepsFinal(s, a);
  }

  lemma OnlyFinalizes(s: Sys, a: RunAct)
    requires RunStep(s, a).Some? && Chosen(s.run).Some?
    ensures s.run.Finalizing? && RunStep(s, a) == FinalizeRun(s, a)
  {
  }

  lemma FinalizeKeepsFinal(s: Sys, a: RunAct)
    requires s.run.Finalizing? && FinalizeRun(s, a).Some?
    ensures Chosen(FinalizeRun(s, a).value.run) == Chosen(s.run)
  {
  }

  /** Only the run goroutine moves its own program point. */
  lemma OthersLeaveRun(s: Sys, a: Action)
    requires Next(s, a).Some? && !a.RunA?
    ensures Next(s, a).value.run == s.run
  {
    if a.UploadA? {
      UploadTouches(s, a.worker, a.u);
    } else if a.WatchA? {
      WatchTouches(s, a.w);
    } else {
      OutsideTouches(s, a);
    }
  }

  lemma FinalStays(s: Sys, a: Action)
    requires Next(s, a).Some? && Chosen(s.run).Some?
    ensures Chosen(Next(s, a).value.run) == Chosen(s.run)
  {
    if a.RunA? {
      RunFinalStays(s, a.r);
    } else {
      OthersLeaveRun(s, a);
    }
  }

  /** What was settled, and a cancel once recorded, survive every continuation. */
  lemma {:induction false} SettledStays(s: Sys, acts: seq<Action>)
    requires Exec(s, acts).Some? && Chosen(s.run).Some?
    ensures Chosen(Exec(s, acts).value.run) == Chosen(s.run)
    ensures s.job.cancelState.Some? ==> Exec(s, acts).value.job.cancelState == s.job.cancelState
    decreases |acts|
  {
    if acts != [] {
      SettledStays(s, acts[..|acts| - 1]);
      FinalStays(Exec(s, acts[..|acts| - 1]).value, acts[|acts| - 1]);
      StepOnward(Exec(s, acts[..|acts| - 1]).value, acts[|acts| - 1]);
    }
  }

  /** A terminal state is the one that was settled on, and a cancel is to CANCELLED or LOST. */
  lemma TerminalIsSettled(cfg: Config, acts: seq<Action>)
    requires Exec(Init(cfg), acts).Some?
    ensures
      var s := Exec(Init(cfg), acts).value;
      && (IsTerminal(s.job.state) ==> Chosen(s.run) == Some(s.job.state))
      && (s.job.cancelState.Some? ==> s.job.cancelState.value.Cancelled? || s.job.cancelState.value.Lost?)
  {
    RunStage(cfg, acts);
    RunFinal(cfg, acts);
    EndStage(Exec(Init(cfg), acts).value);
  }

  lemma EndStage(s: Sys)
    requires s.job.state == StateAt(s.run)
    ensures IsTerminal(s.job.state) ==> Chosen(s.run) == Some(s.job.state)
  {
  }

  /**
   * A recorded cancel decides how the job ends exactly when it was recorded before the deciding
   * step. In any run through such a step that ends in a terminal state with a cancel on record, the
   * job has ended in the cancel's state if and only if the cancel was there when the step was taken.
   */
  lemma CancelDecides(cfg: Config, pre: seq<Action>, a: Action, post: seq<Action>)
    requires Exec(Init(cfg), pre).Some? && Decides(Exec(Init(cfg), pre).value, a)
    requires Exec(Init(cfg), pre + [a] + post).Some?
    requires IsTerminal(Exec(Init(cfg), pre + [a] + post).value.job.state)
    requires Exec(Init(cfg), pre + [a] + post).value.job.cancelState.Some?
    ensures
      var s := Exec(Init(cfg), pre + [a] + post).value;
      s.job.state == s.job.cancelState.value <==> Exec(Init(cfg), pre).value.job.cancelState.Some?
  {
    var s0 := Exec(Init(cfg), pre).value;
    var mid := pre + [a];
    ExecConcat(Init(cfg), mid, post);
    assert mid[..|mid| - 1] == pre;
    var s1 := Exec(Init(cfg), mid).value;
    assert Next(s0, a) == Some(s1);
    DecidesFinal(s0, a);
    StepOnward(s0, a);
    SettledStays(s1, post);
    TerminalIsSettled(cfg, mid + post);
  }

  /** Where a run that has settled its end did so. */
  lemma {:induction false} DecisionExists(cfg: Config, acts: seq<Action>) returns (k: nat)
    requires Exec(Init(cfg), acts).Some? && Chosen(Exec(Init(cfg), acts).value.run).Some?
    ensures k < |acts| && Exec(Init(cfg), acts[..k]).Some? && Decides(Exec(Init(cfg), acts[..k]).value, acts[k])
    decreases |acts|
  {
    var n := |acts| - 1;
    var s := Exec(Init(cfg), acts[..n]).value;
    if Chosen(s.run).Some? {
      k := DecisionExists(cfg, acts[..n]);
      assert acts[..n][..k] == acts[..k];
    } else {
      k := n;
      if acts[n].RunA? {
        SettlingDecides(s, acts[n].r);
      } else {
        OthersLeaveRun(s, acts[n]);
      }
    }
  }

  lemma SettlingDecides(s: Sys, a: RunAct)
    requires RunStep(s, a).Some? && Chosen(s.run).None? && Chosen(RunStep(s, a).value.run).Some?
    ensures Decides(s, RunA(a))
  {
    if StartAct(a) {
      StartSettles(s, a);
    } else if StopAct(a) {
      StopSettles(s, a);
    } else if a.StepPublish? {
      PublishSettles(s);
    }
  }

  lemma PublishSettles(s: Sys)
    requires PublishRun(s).Some?
    ensures Chosen(PublishRun(s).value.run).None?
  {
  }

  lemma StartSettles(s: Sys, a: RunAct)
    requires StartRun(s, a).Some? && Chosen(StartRun(s, a).value.run).Some?
    ensures Decides(s, RunA(a))
  {
    match a
    case StepAbortCheck =>
    case StepEarlyFail =>
    case StepSetPreparing =>
    case PrepareOk =>
    case PrepareFails =>
    case PushersOk =>
    case PushersFail =>
    case ProcessOk =>
    case ProcessFails =>
    case StepSetRunning =>
    case _ =>
  }

  lemma StopSettles(s: Sys, a: RunAct)
    requires StopRun(s, a).Some? && Chosen(StopRun(s, a).value.run).Some?
    ensures Decides(s, RunA(a))
  {
  }

  /**
   * The same for every run that ends with a cancel on record, whichever way it ended: it has a
   * deciding step, and the cancel decided if and only if it came first.
   */
  lemma CancelledExactly(cfg: Config, acts: seq<Action>) returns (k: nat)
    requires Exec(Init(cfg), acts).Some? && IsTerminal(Exec(Init(cfg), acts).value.job.state)
    requires Exec(Init(cfg), acts).value.job.cancelState.Some?
    ensures k < |acts| && Exec(Init(cfg), acts[..k]).Some? && Decides(Exec(Init(cfg), acts[..k]).value, acts[k])
    ensures
      var s := Exec(Init(cfg), acts).value;
      s.job.state == s.job.cancelState.value <==> Exec(Init(cfg), acts[..k]).value.job.cancelState.Some?
  {
    TerminalIsSettled(cfg, acts);
    k := DecisionExists(cfg, acts);
    SplitAt(acts, k);
    CancelDecides(cfg, acts[..k], acts[k], acts[k + 1..]);
  }
}
