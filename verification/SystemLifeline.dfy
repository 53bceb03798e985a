/** The implicit cancel: a job is LOST only after a real silence on its events stream. */
module SystemLifeline {
  import opened Prelude
  import opened Protocol
  import opened JobSections
  import opened System
  import opened SystemLife
  import opened SystemGate
  import opened SystemInv
  import opened SystemTheorems

  /** The state of a run after its first `m` actions. */
  function At(cfg: Config, acts: seq<Action>, m: nat): Option<Sys>
    requires m <= |acts|
  {
    Exec(Init(cfg), acts[..m])
  }

  predicate Silent(s: Option<Sys>) {
    s.Some? && s.value.job.state.Running? && s.value.job.clients == 0
  }

  /** From position `i` to position `k` of the run, RUNNING throughout and never a client. */
  ghost predicate SilentSpan(cfg: Config, acts: seq<Action>, i: nat, k: nat) {
    i <= k <= |acts| && forall m | i <= m <= k :: Silent(At(cfg, acts, m))
  }

  ghost predicate LongSilence(cfg: Config, acts: seq<Action>) {
    exists i: nat, k: nat :: SilentSpan(cfg, acts, i, k)
      && At(cfg, acts, k).value.clock - At(cfg, acts, i).value.clock >= PEER_TIMEOUT
  }

  /** While the job is silent, `clientGone` is the time since when it has been. */
  ghost predicate GoneOk(cfg: Config, acts: seq<Action>) {
    Silent(Exec(Init(cfg), acts)) ==>
      exists i: nat :: SilentSpan(cfg, acts, i, |acts|)
        && At(cfg, acts, i).value.clock == Exec(Init(cfg), acts).value.job.clientGone
  }

  ghost predicate LostOk(cfg: Config, acts: seq<Action>) {
    var s := Exec(Init(cfg), acts);
    s.Some? && (s.value.mon.MonLost? || s.value.job.cancelState == Some(Lost)) ==> LongSilence(cfg, acts)
  }

  // ---- steps ----

  /** A step into silence starts the clock, and a step within it leaves the clock alone. */
  lemma GoneMoves(s: Sys, a: Action)
    requires CountInv(s) && (s.run.Finalizing? ==> IsTerminal(s.run.final))
    requires Next(s, a).Some? && Silent(Next(s, a))
    ensures
      var s' := Next(s, a).value;
      || s'.job.clientGone == s'.clock
      || (Silent(Some(s)) && s'.job.clientGone == s.job.clientGone)
  {
    match a
    case RunA(r) => RunGone(s, r);
    case WatchA(w) => WatchGone(s, w);
    case UploadA(w, u) => UploadGone(s, w, u);
    case _ => OutsideGone(s, a);
  }

  lemma OutsideGone(s: Sys, a: Action)
    requires CountInv(s) && Outside(a) && Next(s, a).Some?
    ensures
      var s' := Next(s, a).value;
      s'.job.state.Running? && s'.job.clients == 0 ==>
        s'.job.clientGone == s'.clock || SameLifeline(s.job, s'.job)
  {
    match a
    case GateA(id, g) => GateJob(s, id, g);
    case ClientA(id, c) => ClientGoneMoves(s, id, c);
    case MonTick => MonJob(s, a);
    case MonCancel => MonJob(s, a);
    case MonStop => MonJob(s, a);
    case Forget => ReapTouches(s, a);
    case RemoveForgotten => ReapTouches(s, a);
    case _ =>
  }

  /** Two jobs agree on what the lifeline looks at. */
  ghost predicate SameLifeline(j: Job, j': Job) {
    j'.state == j.state && j'.clients == j.clients && j'.clientGone == j.clientGone
  }

  lemma RunGone(s: Sys, a: RunAct)
    requires RunStep(s, a).Some? && (s.run.Finalizing? ==> IsTerminal(s.run.final))
    ensures
      var s' := RunStep(s, a).value;
      s'.job.state.Running? && s'.job.clients == 0 ==>
        s'.job.clientGone == s'.clock || SameLifeline(s.job, s'.job)
  {
    if StartAct(a) {
      StartGone(s, a);
    } else if StopAct(a) {
      StopGone(s, a);
    } else if a.StepPublish? {
      PublishTouches(s);
    } else if a.StepLock? {
      LockGone(s);
    } else {
      FinalizeTouches(s, a);
    }
  }

  lemma StartGone(s: Sys, a: RunAct)
    requires StartRun(s, a).Some?
    ensures
      var s' := StartRun(s, a).value;
      s'.job.state.Running? && s'.job.clients == 0 ==>
        s'.job.clientGone == s'.clock || SameLifeline(s.job, s'.job)
  {
    if !a.StepSetPreparing? && !a.StepSetRunning? {
      assert StartRun(s, a).value.job == s.job;
    }
  }

  lemma StopGone(s: Sys, a: RunAct)
    requires StopRun(s, a).Some?
    ensures
      var s' := StopRun(s, a).value;
      s'.job.state.Running? ==> SameLifeline(s.job, s'.job)
  {
  }

  lemma LockGone(s: Sys)
    requires s.run.Finalizing? && IsTerminal(s.run.final) && FinalizeRun(s, StepLock).Some?
    ensures !FinalizeRun(s, StepLock).value.job.state.Running?
  {
  }

  lemma WatchGone(s: Sys, a: WatchAct)
    requires WatchStep(s, a).Some?
    ensures SameLifeline(s.job, WatchStep(s, a).value.job)
  {
    WatchTouches(s, a);
  }

  lemma UploadGone(s: Sys, w: nat, a: UploadAct)
    requires UploadStep(s, w, a).Some?
    ensures SameLifeline(s.job, UploadStep(s, w, a).value.job)
  {
  }

  lemma ClientGoneMoves(s: Sys, id: nat, a: ClientAct)
    requires CountInv(s) && ClientStep(s, id, a).Some?
    ensures
      var s' := ClientStep(s, id, a).value;
      s'.job.state.Running? && s'.job.clients == 0 ==>
        s'.job.clientGone == s'.clock || SameLifeline(s.job, s'.job)
  {
    ClientTouches(s, id, a);
  }

  ghost predicate LostStep(s: Sys, s': Sys) {
    && (s'.mon.MonLost? ==> s.mon.MonLost? || LifelineLost(s.job, s.clock))
    && (s'.job.cancelState == Some(Lost) ==> s.job.cancelState == Some(Lost) || s.mon.MonLost?)
  }

  lemma LostMoves(s: Sys, a: Action)
    requires Next(s, a).Some?
    ensures LostStep(s, Next(s, a).value)
  {
    match a
    case RunA(r) => RunLost(s, r);
    case WatchA(w) => WatchLost(s, w);
    case UploadA(w, u) => UploadLost(s, w, u);
    case _ => OutsideLost(s, a);
  }

  lemma OutsideLost(s: Sys, a: Action)
    requires Outside(a) && Next(s, a).Some?
    ensures LostStep(s, Next(s, a).value)
  {
    match a
    case GateA(id, g) => GateLost(s, id, g);
    case ClientA(id, c) => ClientLost(s, id, c);
    case MonTick => MonitorLost(s, a);
    case MonCancel => MonitorLost(s, a);
    case MonStop => MonitorLost(s, a);
    case Forget => ReapTouches(s, a);
    case RemoveForgotten => ReapTouches(s, a);
    case _ =>
  }

  lemma MonitorLost(s: Sys, a: Action)
    requires MonStep(s, a).Some?
    ensures LostStep(s, MonStep(s, a).value)
  {
  }

  lemma RunLost(s: Sys, a: RunAct)
    requires RunStep(s, a).Some?
    ensures LostStep(s, RunStep(s, a).value)
  {
    RunSignals(s, a);
    RunMon(s, a);
  }

  lemma WatchLost(s: Sys, a: WatchAct)
    requires WatchStep(s, a).Some?
    ensures LostStep(s, WatchStep(s, a).value)
  {
    WatchTouches(s, a);
  }

  lemma UploadLost(s: Sys, w: nat, a: UploadAct)
    requires UploadStep(s, w, a).Some?
    ensures LostStep(s, UploadStep(s, w, a).value)
  {
    UploadSurroundings(s, w, a);
  }

  lemma GateLost(s: Sys, id: nat, a: GateAct)
    requires GateStep(s, id, a).Some?
    ensures LostStep(s, GateStep(s, id, a).value)
  {
    GateTouches(s, id, a);
    GateJob(s, id, a);
  }

  lemma ClientLost(s: Sys, id: nat, a: ClientAct)
    requires ClientStep(s, id, a).Some?
    ensures LostStep(s, ClientStep(s, id, a).value)
  {
    ClientTouches(s, id, a);
  }

  lemma RunMon(s: Sys, a: RunAct)
    requires RunStep(s, a).Some?
    ensures RunStep(s, a).value.mon == s.mon || RunStep(s, a).value.mon == MonWatching
  {
    if StartAct(a) {
      StartMon(s, a);
    } else if StopAct(a) {
      StopMoves(s, a);
    } else if a.StepPublish? {
      PublishMoves(s);
    } else {
      FinalizeMon(s, a);
    }
  }

  lemma StartMon(s: Sys, a: RunAct)
    requires StartRun(s, a).Some?
    ensures StartRun(s, a).value.mon == s.mon || StartRun(s, a).value.mon == MonWatching
  {
  }

  lemma FinalizeMon(s: Sys, a: RunAct)
    requires s.run.Finalizing? && FinalizeRun(s, a).Some?
    ensures FinalizeRun(s, a).value.mon == s.mon
  {
  }

  // ---- runs ----

  lemma AtPrefix(cfg: Config, acts: seq<Action>, m: nat)
    requires 0 < |acts| && m <= |acts| - 1
    ensures At(cfg, acts, m) == At(cfg, acts[..|acts| - 1], m)
  {
    assert acts[..|acts| - 1][..m] == acts[..m];
  }

  lemma SilentAt(cfg: Config, acts: seq<Action>, p: seq<Action>, i: nat, m: nat)
    requires acts != [] && p == acts[..|acts| - 1] && SilentSpan(cfg, p, i, |p|)
    requires i <= m <= |p|
    ensures Silent(At(cfg, acts, m))
  {
    AtPrefix(cfg, acts, m);
    assert Silent(At(cfg, p, m));
  }

  lemma SpanGrows(cfg: Config, acts: seq<Action>, i: nat)
    requires 0 < |acts| && SilentSpan(cfg, acts[..|acts| - 1], i, |acts| - 1)
    requires Silent(Exec(Init(cfg), acts))
    ensures SilentSpan(cfg, acts, i, |acts|)
  {
    assert acts[..|acts|] == acts;
    forall m | i <= m <= |acts|
      ensures Silent(At(cfg, acts, m))
    {
      if m < |acts| {
        SilentAt(cfg, acts, acts[..|acts| - 1], i, m);
      }
    }
  }

  lemma SilenceStays(cfg: Config, acts: seq<Action>)
    requires 0 < |acts| && LongSilence(cfg, acts[..|acts| - 1])
    ensures LongSilence(cfg, acts)
  {
    var p := acts[..|acts| - 1];
    var i: nat, k: nat :| SilentSpan(cfg, p, i, k) && At(cfg, p, k).value.clock - At(cfg, p, i).value.clock >= PEER_TIMEOUT;
    forall m | i <= m <= k
      ensures At(cfg, acts, m) == At(cfg, p, m)
    {
      AtPrefix(cfg, acts, m);
    }
    assert SilentSpan(cfg, acts, i, k);
  }

  lemma GoneNow(cfg: Config, acts: seq<Action>)
    requires Silent(Exec(Init(cfg), acts))
    requires Exec(Init(cfg), acts).value.job.clientGone == Exec(Init(cfg), acts).value.clock
    ensures GoneOk(cfg, acts)
  {
    assert acts[..|acts|] == acts;
    assert SilentSpan(cfg, acts, |acts|, |acts|);
  }

  lemma GoneStill(cfg: Config, acts: seq<Action>)
    requires acts != [] && GoneOk(cfg, acts[..|acts| - 1])
    requires Silent(Exec(Init(cfg), acts[..|acts| - 1])) && Silent(Exec(Init(cfg), acts))
    requires Exec(Init(cfg), acts).value.job.clientGone == Exec(Init(cfg), acts[..|acts| - 1]).value.job.clientGone
    ensures GoneOk(cfg, acts)
  {
    var p := acts[..|acts| - 1];
    var gone := Exec(Init(cfg), p).value.job.clientGone;
    var i: nat :| SilentSpan(cfg, p, i, |p|) && At(cfg, p, i).value.clock == gone;
    SpanGrows(cfg, acts, i);
    AtPrefix(cfg, acts, i);
  }

  lemma {:induction false} RunGoneOk(cfg: Config, acts: seq<Action>)
    requires Exec(Init(cfg), acts).Some?
    ensures GoneOk(cfg, acts)
    decreases |acts|
  {
    if acts != [] && Silent(Exec(Init(cfg), acts)) {
      RunGoneOk(cfg, acts[..|acts| - 1]);
      RunGoneMoves(cfg, acts);
      if Exec(Init(cfg), acts).value.job.clientGone == Exec(Init(cfg), acts).value.clock {
        GoneNow(cfg, acts);
      } else {
        GoneStill(cfg, acts);
      }
    }
  }

  lemma RunGoneMoves(cfg: Config, acts: seq<Action>)
    requires acts != [] && Silent(Exec(Init(cfg), acts))
    ensures
      var s' := Exec(Init(cfg), acts).value;
      var s := Exec(Init(cfg), acts[..|acts| - 1]);
      || s'.job.clientGone == s'.clock
      || (Silent(s) && s'.job.clientGone == s.value.job.clientGone)
  {
    RunInv(cfg, acts[..|acts| - 1]);
    assert LifeInv(Exec(Init(cfg), acts[..|acts| - 1]).value);
    GoneMoves(Exec(Init(cfg), acts[..|acts| - 1]).value, acts[|acts| - 1]);
  }

  lemma LostIsLong(cfg: Config, p: seq<Action>)
    requires Exec(Init(cfg), p).Some? && LifelineLost(Exec(Init(cfg), p).value.job, Exec(Init(cfg), p).value.clock)
    ensures LongSilence(cfg, p)
  {
    RunGoneOk(cfg, p);
    var gone := Exec(Init(cfg), p).value.job.clientGone;
    var i: nat :| SilentSpan(cfg, p, i, |p|) && At(cfg, p, i).value.clock == gone;
    assert p[..|p|] == p;
  }

  lemma {:induction false} RunLostOk(cfg: Config, acts: seq<Action>)
    requires Exec(Init(cfg), acts).Some?
    ensures LostOk(cfg, acts)
    decreases |acts|
  {
    if acts != [] {
      var p := acts[..|acts| - 1];
      var s := Exec(Init(cfg), p).value;
      RunLostOk(cfg, p);
      LostMoves(s, acts[|acts| - 1]);
      if LifelineLost(s.job, s.clock) {
        LostIsLong(cfg, p);
      }
      if LongSilence(cfg, p) {
        SilenceStays(cfg, acts);
      }
    }
  }

  /**
   * A job ends LOST only if, somewhere in its run, it was RUNNING without a single counted events
   * client for an unbroken PEER_TIMEOUT.
   */
  lemma LostOnlyAfterSilence(cfg: Config, acts: seq<Action>)
    requires Exec(Init(cfg), acts).Some? && Exec(Init(cfg), acts).value.job.state.Lost?
    ensures LongSilence(cfg, acts)
  {
    RunInv(cfg, acts);
    var s := Exec(Init(cfg), acts).value;
    assert LifeInv(s);
    RunLostOk(cfg, acts);
  }

  // ---- the converse ----

  /** Within a silence nobody moves the time since when it lasts. */
  lemma GoneStands(s: Sys, a: Action)
    requires CountInv(s) && StageInv(s) && Silent(Some(s)) && Next(s, a).Some? && Silent(Next(s, a))
    ensures Next(s, a).value.job.clientGone == s.job.clientGone
  {
    match a
    case RunA(r) => RunStands(s, r);
    case WatchA(w) => WatchGone(s, w);
    case UploadA(w, u) => UploadGone(s, w, u);
    case _ => OutsideStands(s, a);
  }

  lemma OutsideStands(s: Sys, a: Action)
    requires CountInv(s) && s.job.clients == 0 && Outside(a) && Next(s, a).Some?
    ensures Next(s, a).value.job.clientGone == s.job.clientGone
  {
    match a
    case GateA(id, g) => GateJob(s, id, g);
    case ClientA(id, c) => ClientStands(s, id, c);
    case MonTick => MonJob(s, a);
    case MonCancel => MonJob(s, a);
    case MonStop => MonJob(s, a);
    case Forget => ReapTouches(s, a);
    case RemoveForgotten => ReapTouches(s, a);
    case _ =>
  }

  /** With no client counted in there is none to count out. */
  lemma ClientStands(s: Sys, id: nat, a: ClientAct)
    requires CountInv(s) && s.job.clients == 0 && ClientStep(s, id, a).Some?
    ensures ClientStep(s, id, a).value.job.clientGone == s.job.clientGone
  {
    if a.CountOut? {
      OneInside(s.clients, id);
    }
  }

  lemma OneInside(clients: map<nat, ClientPc>, id: nat)
    requires id in clients && clients[id].Unhooked?
    ensures |Inside(clients)| > 0
  {
    assert id in Inside(clients);
  }

  lemma RunStands(s: Sys, a: RunAct)
    requires RunStep(s, a).Some? && s.job.state == StateAt(s.run) && s.job.state.Running?
    ensures RunStep(s, a).value.job.clientGone == s.job.clientGone
  {
    if StartAct(a) {
      StartsBefore(s, a);
    } else if StopAct(a) {
      StopStands(s, a);
    } else if a.StepPublish? {
      PublishMoves(s);
    } else if a.StepLock? {
      LockStands(s);
    } else {
      FinalizeTouches(s, a);
    }
  }

  /** What the goroutine does before the job is RUNNING. */
  lemma StartsBefore(s: Sys, a: RunAct)
    requires StartRun(s, a).Some? && s.job.state == StateAt(s.run)
    ensures !s.job.state.Running?
  {
  }

  lemma StopStands(s: Sys, a: RunAct)
    requires StopRun(s, a).Some?
    ensures StopRun(s, a).value.job.clientGone == s.job.clientGone
  {
    if a.StepSetDraining? {
      DrainingStands(s);
    }
  }

  lemma DrainingStands(s: Sys)
    requires StopRun(s, StepSetDraining).Some?
    ensures StopRun(s, StepSetDraining).value.job.clientGone == s.job.clientGone
  {
  }

  lemma LockStands(s: Sys)
    requires s.run.Finalizing? && FinalizeRun(s, StepLock).Some?
    ensures FinalizeRun(s, StepLock).value.job.clientGone == s.job.clientGone
  {
  }

  /** The clock never goes back. */
  lemma StepClock(s: Sys, a: Action)
    requires Next(s, a).Some?
    ensures s.clock <= Next(s, a).value.clock
  {
    match a
    case RunA(r) => RunClock(s, r);
    case WatchA(w) => WatchTouches(s, w);
    case UploadA(w, u) => UploadTouches(s, w, u);
    case _ => OutsideClock(s, a);
  }

  lemma RunClock(s: Sys, a: RunAct)
    requires RunStep(s, a).Some?
    ensures RunStep(s, a).value.clock == s.clock
  {
    if !a.PushersOk? {
      RunTouches(s, a);
    }
  }

  lemma OutsideClock(s: Sys, a: Action)
    requires Outside(a) && Next(s, a).Some?
    ensures s.clock <= Next(s, a).value.clock
  {
    match a
    case CreateFile(n) => FileTouches(s, n, []);
    case CompleteFile(n, data) => FileTouches(s, n, data);
    case GateA(id, g) => GateTouches(s, id, g);
    case MonTick => MonTouches(s, a);
    case MonCancel => MonTouches(s, a);
    case MonStop => MonTouches(s, a);
    case ClientA(id, c) => ClientTouches(s, id, c);
    case Forget => ReapTouches(s, a);
    case RemoveForgotten => ReapTouches(s, a);
    case _ =>
  }

  lemma {:induction false} ClockGrows(cfg: Config, acts: seq<Action>, i: nat)
    requires i <= |acts| && At(cfg, acts, i).Some? && Exec(Init(cfg), acts).Some?
    ensures At(cfg, acts, i).value.clock <= Exec(Init(cfg), acts).value.clock
    decreases |acts|
  {
    if i == |acts| {
      assert acts[..i] == acts;
    } else {
      AtPrefix(cfg, acts, i);
      ClockGrows(cfg, acts[..|acts| - 1], i);
      StepClock(Exec(Init(cfg), acts[..|acts| - 1]).value, acts[|acts| - 1]);
    }
  }

  /** A silent job has been so since `clientGone`, which has passed. */
  lemma GonePassed(cfg: Config, acts: seq<Action>)
    requires Silent(Exec(Init(cfg), acts))
    ensures Exec(Init(cfg), acts).value.job.clientGone <= Exec(Init(cfg), acts).value.clock
  {
    RunGoneOk(cfg, acts);
    var i: nat :| SilentSpan(cfg, acts, i, |acts|)
      && At(cfg, acts, i).value.clock == Exec(Init(cfg), acts).value.job.clientGone;
    assert Silent(At(cfg, acts, i));
    ClockGrows(cfg, acts, i);
  }

  /** So a silence that has lasted since position `i` is counted from a time no later than that. */
  lemma {:induction false} GoneSince(cfg: Config, acts: seq<Action>, i: nat)
    requires SilentSpan(cfg, acts, i, |acts|)
    ensures At(cfg, acts, i).Some? && Exec(Init(cfg), acts).Some?
    ensures Exec(Init(cfg), acts).value.job.clientGone <= At(cfg, acts, i).value.clock
    decreases |acts|
  {
    assert Silent(At(cfg, acts, i)) && Silent(At(cfg, acts, |acts|));
    assert acts[..|acts|] == acts;
    if i == |acts| {
      GonePassed(cfg, acts);
    } else {
      SpanShrinks(cfg, acts, i);
      GoneSince(cfg, acts[..|acts| - 1], i);
      AtPrefix(cfg, acts, i);
      LastStands(cfg, acts);
    }
  }

  lemma SpanShrinks(cfg: Config, acts: seq<Action>, i: nat)
    requires i < |acts| && SilentSpan(cfg, acts, i, |acts|)
    ensures SilentSpan(cfg, acts[..|acts| - 1], i, |acts| - 1) && Silent(Exec(Init(cfg), acts[..|acts| - 1]))
  {
    var p := acts[..|acts| - 1];
    forall m | i <= m <= |p|
      ensures Silent(At(cfg, p, m))
    {
      assert Silent(At(cfg, acts, m));
      AtPrefix(cfg, acts, m);
    }
    assert Silent(At(cfg, acts, |acts| - 1));
  }

  lemma LastStands(cfg: Config, acts: seq<Action>)
    requires acts != [] && Silent(Exec(Init(cfg), acts)) && Silent(Exec(Init(cfg), acts[..|acts| - 1]))
    ensures Exec(Init(cfg), acts).value.job.clientGone == Exec(Init(cfg), acts[..|acts| - 1]).value.job.clientGone
  {
    var p := acts[..|acts| - 1];
    RunInv(cfg, p);
    RunStage(cfg, p);
    InvParts(Exec(Init(cfg), p).value);
    GoneStands(Exec(Init(cfg), p).value, acts[|acts| - 1]);
  }

  /** Silent for PEER_TIMEOUT up to now. */
  ghost predicate SilentForLong(cfg: Config, acts: seq<Action>) {
    Exec(Init(cfg), acts).Some?
    && exists i: nat :: SilentSpan(cfg, acts, i, |acts|)
         && Exec(Init(cfg), acts).value.clock - At(cfg, acts, i).value.clock >= 10
  }

  /**
   * The lifeline monitor is neither hasty nor blind: over every run, a tick of a monitor that is still
   * watching finds the lifeline lost if and only if the job has been RUNNING without one counted
   * events client for the last ten seconds, with no cancel on record; and it stops watching if and
   * only if the job has ended or a cancel is on record.
   */
  lemma LostExactly(cfg: Config, acts: seq<Action>)
    requires Exec(Init(cfg), acts + [MonTick]).Some?
    ensures Exec(Init(cfg), acts).Some?
    ensures
      var j := Exec(Init(cfg), acts).value.job;
      var mon := Exec(Init(cfg), acts + [MonTick]).value.mon;
      && (mon.MonLost? <==> SilentForLong(cfg, acts) && j.cancelState.None?)
      && (mon.MonEnded? <==> j.state in {Completed, Failed, Cancelled, JobState.Lost} || j.cancelState.Some?)
  {
    var next := acts + [MonTick];
    assert next[..|next| - 1] == acts;
    var s := Exec(Init(cfg), acts).value;
    TickFinds(s);
    assert acts[..|acts|] == acts;
    if LifelineLost(s.job, s.clock) {
      LostIsNow(cfg, acts);
    }
    if SilentForLong(cfg, acts) {
      LongIsLost(cfg, acts);
    }
  }

  lemma TickFinds(s: Sys)
    requires MonStep(s, MonTick).Some?
    ensures
      var mon := MonStep(s, MonTick).value.mon;
      && (mon.MonEnded? <==> MonitorStops(s.job))
      && (mon.MonLost? <==> !MonitorStops(s.job) && LifelineLost(s.job, s.clock))
  {
  }

  lemma LostIsNow(cfg: Config, acts: seq<Action>)
    requires Exec(Init(cfg), acts).Some? && LifelineLost(Exec(Init(cfg), acts).value.job, Exec(Init(cfg), acts).value.clock)
    ensures SilentForLong(cfg, acts)
  {
    RunGoneOk(cfg, acts);
    var gone := Exec(Init(cfg), acts).value.job.clientGone;
    var i: nat :| SilentSpan(cfg, acts, i, |acts|) && At(cfg, acts, i).value.clock == gone;
  }

  lemma LongIsLost(cfg: Config, acts: seq<Action>)
    requires SilentForLong(cfg, acts)
    ensures LifelineLost(Exec(Init(cfg), acts).value.job, Exec(Init(cfg), acts).value.clock)
    ensures Exec(Init(cfg), acts).value.job.state.Running?
  {
    var i: nat :| SilentSpan(cfg, acts, i, |acts|)
      && Exec(Init(cfg), acts).value.clock - At(cfg, acts, i).value.clock >= 10;
    GoneSince(cfg, acts, i);
    assert Silent(At(cfg, acts, |acts|));
    assert acts[..|acts|] == acts;
  }

  /** `clients` is the number of clients counted in and not yet counted out, in every reachable state. */
  lemma ClientsCounted(s: Sys)
    requires Reachable(s)
    ensures s.job.clients == |set id | id in s.clients && (s.clients[id].Counted? || s.clients[id].Unhooked?)|
  {
    ReachableInv(s);
    assert Inside(s.clients) == set id | id in s.clients && (s.clients[id].Counted? || s.clients[id].Unhooked?);
  }
}
