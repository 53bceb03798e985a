/**
 * The gate: no announce passes before its chunks have landed, and nobody sleeps through the
 * broadcast that should have woken it.
 */
module SystemGate {
  import opened Prelude
  import opened Protocol
  import opened JobSections
  import L = JobLoops
  import opened System
  import opened SystemFiles
  import opened SystemLife

  // ---- chunk before announce ----

  /** Every owed name the gate has stepped over has landed, unless the job dir was reaped. */
  ghost predicate GateOk(g: Gate, landed: map<Name, Bytes>, done: map<Name, Bytes>, reaped: bool) {
    && g.i <= |g.names|
    && (g.pc.Passed? || g.pc.Forwarded? ==> g.i == |g.names|)
    && (forall n :: n in g.must ==> n in g.names && n in done)
    && (forall k :: 0 <= k < g.i && g.names[k] in g.must ==> g.names[k] in landed || reaped)
  }

  ghost predicate GateInv(s: Sys) {
    forall id :: id in s.gates ==> GateOk(s.gates[id], s.server.landed, s.done, s.reaped)
  }

  lemma GateKeeps(s: Sys, s': Sys)
    requires GateInv(s) && s'.gates == s.gates
    requires s.server.landed.Keys <= s'.server.landed.Keys && s.done.Keys <= s'.done.Keys
    requires s.reaped ==> s'.reaped
    ensures GateInv(s')
  {
    forall id | id in s'.gates
      ensures GateOk(s'.gates[id], s'.server.landed, s'.done, s'.reaped)
    {
      assert GateOk(s.gates[id], s.server.landed, s.done, s.reaped);
    }
  }

  /** A completed chunk that is not ACKed can be missing from the out dir only in a broken or reaped job. */
  lemma MissingBreaks(s: Sys, n: Name)
    requires FileInv(s) && LifeInv(s)
    requires n in s.done && n !in s.job.acked && n !in s.disk.files
    ensures s.reaped || GateBroken(s.job)
  {
  }

  /**
   * The skip that the gate allows for foreign names, on a chunk of this job: a check of a completed
   * chunk without an ACK lets the announce go on exactly when the out dir was reaped and the job
   * had ended COMPLETED with no failure or cancel recorded.
   */
  lemma SkipWhen(s: Sys, n: Name)
    requires FileInv(s) && LifeInv(s)
    requires n in s.done && n !in s.job.acked
    ensures GateCheck(s.job, n, false, n in s.disk.files) == Skip
      <==> n !in s.disk.files && s.reaped && s.job.state.Completed? && !s.job.failing && s.job.cancelState.None?
  {
    if n !in s.disk.files {
      MissingBreaks(s, n);
    }
  }

  /** An owed name that the gate skips has landed, or the dir was reaped. */
  lemma SkipLanded(s: Sys, n: Name, ctxDone: bool)
    requires FileInv(s) && LifeInv(s)
    requires n in s.done && GateCheck(s.job, n, ctxDone, n in s.disk.files) == Skip
    ensures n in s.server.landed || s.reaped
  {
    if n !in s.job.acked {
      MissingBreaks(s, n);
    }
  }

  lemma CheckOneOk(g: Gate, j: Job, present: bool, landed: map<Name, Bytes>, done: map<Name, Bytes>, reaped: bool)
    requires GateOk(g, landed, done, reaped) && g.pc.Checking? && g.i < |g.names|
    requires g.names[g.i] in g.must && GateCheck(j, g.names[g.i], g.ctxDone, present) == Skip ==>
               g.names[g.i] in landed || reaped
    ensures GateOk(CheckOne(g, j, present), landed, done, reaped)
  {
  }

  lemma CheckGate(s: Sys, id: nat)
    requires GateInv(s) && FileInv(s) && LifeInv(s) && GateStep(s, id, CheckName).Some?
    ensures GateInv(GateStep(s, id, CheckName).value)
  {
    var g := s.gates[id];
    var n := g.names[g.i];
    assert GateOk(g, s.server.landed, s.done, s.reaped);
    if n in g.must && GateCheck(s.job, n, g.ctxDone, n in s.disk.files) == Skip {
      SkipLanded(s, n, g.ctxDone);
    }
    CheckOneOk(g, s.job, n in s.disk.files, s.server.landed, s.done, s.reaped);
    GateReplaced(s, id, CheckOne(g, s.job, n in s.disk.files));
  }

  lemma GateReplaced(s: Sys, id: nat, g: Gate)
    requires GateInv(s) && GateOk(g, s.server.landed, s.done, s.reaped)
    ensures GateInv(s.(gates := s.gates[id := g]))
  {
  }

  lemma StepGate(s: Sys, id: nat, a: GateAct)
    requires GateInv(s) && FileInv(s) && LifeInv(s) && GateStep(s, id, a).Some?
    ensures GateInv(GateStep(s, id, a).value)
  {
    if a.CheckName? {
      CheckGate(s, id);
    } else {
      var s' := GateStep(s, id, a).value;
      assert GateOk(s.gates[id], s.server.landed, s.done, s.reaped);
      PlainGate(s, id, a);
      forall k | k in s'.gates
        ensures GateOk(s'.gates[k], s'.server.landed, s'.done, s'.reaped)
      {
        assert k != id ==> s'.gates[k] == s.gates[k];
      }
    }
  }

  lemma PlainGate(s: Sys, id: nat, a: GateAct)
    requires GateStep(s, id, a).Some? && !a.CheckName?
    ensures
      var s' := GateStep(s, id, a).value;
      && id in s.gates && s'.gates == s.gates[id := s'.gates[id]]
      && s'.server == s.server && s'.done == s.done && s'.reaped == s.reaped
      && s'.gates[id].names == s.gates[id].names && s'.gates[id].must == s.gates[id].must
      && s'.gates[id].i == s.gates[id].i
      && (s'.gates[id].pc.Passed? || s'.gates[id].pc.Forwarded? ==>
            s.gates[id].pc.Passed? || s.gates[id].pc.Forwarded? || s.gates[id].i >= |s.gates[id].names|)
  {
  }

  lemma PostGate(s: Sys, id: nat, names: seq<Name>)
    requires GateInv(s) && Post(s, id, names).Some?
    ensures GateInv(Post(s, id, names).value)
  {
    var s' := Post(s, id, names).value;
    forall k | k in s'.gates
      ensures GateOk(s'.gates[k], s'.server.landed, s'.done, s'.reaped)
    {
      assert k != id ==> s'.gates[k] == s.gates[k];
    }
  }

  // ---- no lost wakeups ----

  /**
   * What a critical section owes the sleepers: if it does not broadcast, no ACK is added, the gate
   * does not break, the job does not start failing and uploads do not run out.
   */
  ghost predicate Signalled(j: Job, j': Job) {
    && j'.signals >= j.signals
    && (j'.signals == j.signals ==>
          && j'.acked == j.acked && GateBroken(j') == GateBroken(j)
          && j'.failing == j.failing && (j.pending > 0 ==> j'.pending > 0))
  }

  /** What no critical section takes back: a failure, a cancel, an ACK, a terminal state. */
  ghost predicate Onward(j: Job, j': Job) {
    && (j.failing ==> j'.failing)
    && (j.cancelState.Some? ==> j'.cancelState == j.cancelState)
    && j.acked <= j'.acked
    && (IsTerminal(j.state) ==> j'.state == j.state)
  }

  /** A sleeping announce that no broadcast has reached has a reason to sleep. */
  ghost predicate SleeperOk(g: Gate, j: Job) {
    g.pc.Asleep? ==>
      && g.pc.since <= j.signals
      && (g.pc.since == j.signals ==>
            && g.i < |g.names| && g.names[g.i] !in j.acked && !GateBroken(j)
            && (g.ctxDone ==> g.wakeDue))
  }

  /** A sleeping drain that no broadcast has reached has a reason to sleep, or its timer is due. */
  ghost predicate DrainOk(r: RunPc, j: Job, now: nat) {
    r.DrainAsleep? ==>
      && r.since <= j.signals
      && (r.timerFired ==> now >= r.deadline && r.since < j.signals)
      && (r.since == j.signals ==> j.pending > 0 && !j.failing)
  }

  ghost predicate WakeInv(s: Sys) {
    && (forall id :: id in s.gates ==> SleeperOk(s.gates[id], s.job))
    && DrainOk(s.run, s.job, s.clock)
  }

  lemma RunSections(j: Job, st: JobState, queueMade: bool, now: nat)
    ensures !IsTerminal(j.state) ==> RunJob(j, SetState(j, st, now))
    ensures RunJob(j, CloseIntake(j)) && RunJob(j, Broadcast(j)) && RunJob(j, Finalize(j, queueMade, st, now).0)
  {
  }

  lemma UploadSections(j: Job, q: Queue, name: Name, ok: bool, cap: nat)
    ensures Signalled(j, AbortFail(j)) && Signalled(j, Resolve(j, name, ok)) && Signalled(j, Enqueue(j, q, name, cap).0)
  {
  }

  lemma ClientSections(j: Job, st: JobState, now: nat)
    ensures Signalled(j, RequestCancel(j, st)) && Signalled(j, Broadcast(j))
    ensures Signalled(j, ClientIn(j)) && Signalled(j, ClientOut(j, now))
  {
  }

  lemma WakeKeeps(s: Sys, s': Sys)
    requires WakeInv(s) && Signalled(s.job, s'.job)
    requires s'.gates == s.gates && s'.clock >= s.clock
    requires s'.run == s.run || !s'.run.DrainAsleep?
    ensures WakeInv(s')
  {
    forall id | id in s'.gates
      ensures SleeperOk(s'.gates[id], s'.job)
    {
      assert SleeperOk(s.gates[id], s.job);
    }
  }

  lemma GateWake(s: Sys, id: nat, a: GateAct)
    requires WakeInv(s) && GateStep(s, id, a).Some?
    ensures WakeInv(GateStep(s, id, a).value)
  {
    var s' := GateStep(s, id, a).value;
    ClientSections(s.job, Failed, 0);
    assert s'.run == s.run && s'.clock == s.clock;
    GateJob(s, id, a);
    OneSleeper(s, id, a);
    forall k | k in s'.gates
      ensures SleeperOk(s'.gates[k], s'.job)
    {
      if k != id {
        assert SleeperOk(s.gates[k], s.job);
      }
    }
  }

  lemma GateJob(s: Sys, id: nat, a: GateAct)
    requires GateStep(s, id, a).Some?
    ensures
      var s' := GateStep(s, id, a).value;
      && s'.job == (if a.CtxBroadcast? then Broadcast(s.job) else s.job)
      && id in s.gates && id in s'.gates
      && (forall k :: k in s'.gates && k != id ==> k in s.gates && s'.gates[k] == s.gates[k])
  {
  }

  lemma OneSleeper(s: Sys, id: nat, a: GateAct)
    requires id in s.gates && SleeperOk(s.gates[id], s.job) && GateStep(s, id, a).Some?
    ensures id in GateStep(s, id, a).value.gates
    ensures SleeperOk(GateStep(s, id, a).value.gates[id], GateStep(s, id, a).value.job)
  {
    var s' := GateStep(s, id, a).value;
    match a
    case CheckName => assert SleeperOk(s'.gates[id], s'.job);
    case PassThrough => assert SleeperOk(s'.gates[id], s'.job);
    case WakeUp => assert SleeperOk(s'.gates[id], s'.job);
    case Forward => assert SleeperOk(s'.gates[id], s'.job);
    case Cancel => assert SleeperOk(s'.gates[id], s'.job);
    case CtxBroadcast => assert SleeperOk(s'.gates[id], s'.job);
  }

  lemma RunWake(s: Sys, a: RunAct)
    requires WakeInv(s) && RunStep(s, a).Some?
    ensures WakeInv(RunStep(s, a).value)
  {
    var s' := RunStep(s, a).value;
    RunSignals(s, a);
    DrainSleeps(s, a);
    if !a.PushersOk? {
      RunTouches(s, a);
    }
    forall id | id in s'.gates
      ensures SleeperOk(s'.gates[id], s'.job)
    {
      assert SleeperOk(s.gates[id], s.job);
    }
  }

  /** What the run goroutine leaves alone in the job, and what it owes the sleepers. */
  ghost predicate RunJob(j: Job, j': Job) {
    Signalled(j, j') && Onward(j, j') && SameUploads(j, j') && j'.clients == j.clients && j'.cancelState == j.cancelState
  }

  lemma RunSignals(s: Sys, a: RunAct)
    requires RunStep(s, a).Some?
    ensures RunJob(s.job, RunStep(s, a).value.job)
  {
    if StartAct(a) {
      StartSignals(s, a);
    } else if StopAct(a) {
      StopSignals(s, a);
    } else {
      FinishSignals(s, a);
    }
  }

  lemma StartSignals(s: Sys, a: RunAct)
    requires StartAct(a) && StartRun(s, a).Some?
    ensures RunJob(s.job, StartRun(s, a).value.job)
  {
    if a.StepSetPreparing? {
      RunSections(s.job, Preparing, true, s.clock);
    } else if a.StepSetRunning? {
      RunSections(s.job, Running, true, s.clock);
    } else {
      assert StartRun(s, a).value.job == s.job;
    }
  }

  lemma StopSignals(s: Sys, a: RunAct)
    requires StopAct(a) && StopRun(s, a).Some?
    ensures RunJob(s.job, StopRun(s, a).value.job)
  {
    if a.StepSetDraining? || a.StepDrainStart? || a.DrainTimer? {
      RunSections(s.job, Draining, true, s.clock);
    }
  }

  lemma FinishSignals(s: Sys, a: RunAct)
    requires !StartAct(a) && !StopAct(a) && RunStep(s, a).Some?
    ensures RunJob(s.job, RunStep(s, a).value.job)
  {
    if a.StepPublish? {
      PublishTouches(s);
    } else {
      FinalizeSignals(s, a);
    }
  }

  lemma FinalizeSignals(s: Sys, a: RunAct)
    requires s.run.Finalizing? && FinalizeRun(s, a).Some?
    ensures RunJob(s.job, FinalizeRun(s, a).value.job)
  {
    if a.StepLock? {
      RunSections(s.job, s.run.final, s.queue.made, s.clock);
    } else {
      FinalizeTouches(s, a);
    }
  }

  lemma DrainSleeps(s: Sys, a: RunAct)
    requires RunStep(s, a).Some? && DrainOk(s.run, s.job, s.clock)
    ensures DrainOk(RunStep(s, a).value.run, RunStep(s, a).value.job, s.clock)
  {
    if a.StepDrainStart? || a.StepDrainWake? || a.DrainTimer? {
      DrainOnly(s, a);
    } else if StartAct(a) {
      if !a.PushersOk? {
        StartTouches(s, a);
      }
    } else if StopAct(a) {
      StopTouches(s, a);
    } else if a.StepPublish? {
      PublishTouches(s);
    } else {
      FinalizeTouches(s, a);
    }
  }

  lemma DrainOnly(s: Sys, a: RunAct)
    requires a.StepDrainStart? || a.StepDrainWake? || a.DrainTimer?
    requires StopRun(s, a).Some? && DrainOk(s.run, s.job, s.clock)
    ensures DrainOk(StopRun(s, a).value.run, StopRun(s, a).value.job, s.clock)
  {
  }

  // ---- one check is one pass of the loop ----

  /**
   * Where gateWait stands after a check of the step system: refused, asleep until the others have
   * made `next` of the job, or at the next name.
   */
  lemma CheckIsTurn(s: Sys, id: nat, next: Job, rest: seq<L.Turn>)
    requires GateStep(s, id, CheckName).Some?
    ensures
      var g, g' := s.gates[id], GateStep(s, id, CheckName).value.gates[id];
      var turns := [L.Turn(g.ctxDone, g.names[g.i] in s.disk.files, next)] + rest;
      var loop := L.GateRun(s.job, g.names[g.i..], turns);
      match g'.pc
      case Refused => loop.end.Refuses?
      case Asleep(_) => g'.i == g.i && loop == L.GateRun(next, g.names[g.i..], rest)
      case _ =>
        && g'.pc == g.pc && g'.i == g.i + 1
        && loop == L.GateRun(s.job, g.names[g.i + 1..], if g.names[g.i] in s.job.acked then turns else rest)
  {
    var g := s.gates[id];
    var turns := [L.Turn(g.ctxDone, g.names[g.i] in s.disk.files, next)] + rest;
    PassOfLoop(s.job, g.names[g.i..], turns);
    assert g.names[g.i..][1..] == g.names[g.i + 1..];
    assert turns[1..] == rest;
  }

  lemma PassOfLoop(j: Job, names: seq<Name>, turns: seq<L.Turn>)
    requires names != [] && turns != []
    ensures L.GateRun(j, names, turns) ==
      match GateCheck(j, names[0], turns[0].ctxDone, turns[0].present)
      case Skip => L.GateRun(j, names[1..], if names[0] in j.acked then turns else turns[1..])
      case Refuse => L.GateResult(L.Refuses, j)
      case Hold => L.GateRun(turns[0].next, names, turns[1..])
  {
  }
}
