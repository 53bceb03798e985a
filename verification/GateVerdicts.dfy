/** When an announce is refused, over every run: never without a cause, and always when there is one. */
module GateVerdicts {
  import opened Prelude
  import opened Protocol
  import opened JobSections
  import opened JobLoops
  import opened System
  import opened SystemGate
  import opened SystemTheorems
  import P = SystemPuts

  /** What a check does with a name, read off the job, the out dir and the client. */
  lemma CheckDecides(s: Sys, id: nat)
    requires Next(s, GateA(id, CheckName)).Some?
    ensures id in s.gates && s.gates[id].i < |s.gates[id].names| && id in Next(s, GateA(id, CheckName)).value.gates
    ensures
      var g, g' := s.gates[id], Next(s, GateA(id, CheckName)).value.gates[id];
      var n := g.names[g.i];
      && (g'.pc.Refused? <==> n !in s.job.acked && (InTrouble(s.job) || g.ctxDone))
      && (g'.pc.Asleep? <==> n !in s.job.acked && !InTrouble(s.job) && !g.ctxDone && n in s.disk.files)
      && (!g'.pc.Refused? && !g'.pc.Asleep? ==> g'.pc.Checking? && g'.i == g.i + 1)
  {
    CheckStep(s, id);
  }

  lemma CheckStep(s: Sys, id: nat)
    requires GateStep(s, id, CheckName).Some?
    ensures id in s.gates && s.gates[id].i < |s.gates[id].names| && id in GateStep(s, id, CheckName).value.gates
    ensures
      var g, g' := s.gates[id], GateStep(s, id, CheckName).value.gates[id];
      var n := g.names[g.i];
      && (g'.pc.Refused? <==> n !in s.job.acked && (InTrouble(s.job) || g.ctxDone))
      && (g'.pc.Asleep? <==> n !in s.job.acked && !InTrouble(s.job) && !g.ctxDone && n in s.disk.files)
      && (!g'.pc.Refused? && !g'.pc.Asleep? ==> g'.pc.Checking? && g'.i == g.i + 1)
  {
  }

  ghost predicate CauseOk(s: Sys) {
    forall id :: id in s.gates && s.gates[id].pc.Refused? ==> s.gates[id].ctxDone || InTrouble(s.job)
  }

  lemma GateCause(s: Sys, id: nat, a: GateAct)
    requires CauseOk(s) && GateStep(s, id, a).Some?
    ensures CauseOk(GateStep(s, id, a).value)
  {
    GateJob(s, id, a);
    GateStable(s, id, a);
    if a.CheckName? {
      CheckStep(s, id);
    }
  }

  /** Trouble does not go away. */
  lemma TroubleStays(j: Job, j': Job)
    requires Onward(j, j') && InTrouble(j)
    ensures InTrouble(j')
  {
  }

  lemma StepCause(s: Sys, a: Action)
    requires CauseOk(s) && Next(s, a).Some?
    ensures CauseOk(Next(s, a).value)
  {
    var s' := Next(s, a).value;
    if a.GateA? {
      GateCause(s, a.gate, a.g);
    } else {
      StepOnward(s, a);
      if a.PostAnnounce? {
        assert forall id :: id in s'.gates && s'.gates[id].pc.Refused? ==> id in s.gates && s'.gates[id] == s.gates[id];
      } else if a.CompleteFile? {
        FileTouches(s, a.name, a.data);
      } else {
        PlainStable(s, a);
      }
      if InTrouble(s.job) {
        TroubleStays(s.job, s'.job);
      }
    }
  }

  lemma {:induction false} RunCause(cfg: Config, acts: seq<Action>)
    requires Exec(Init(cfg), acts).Some?
    ensures CauseOk(Exec(Init(cfg), acts).value)
    decreases |acts|
  {
    if acts != [] {
      RunCause(cfg, acts[..|acts| - 1]);
      StepCause(Exec(Init(cfg), acts[..|acts| - 1]).value, acts[|acts| - 1]);
    }
  }

  /**
   * No announce is refused without a cause: in every reachable state, one that was refused had its client
   * gone, or the job has a failure or a cancel on record or has ended other than COMPLETED.
   */
  lemma RefusedHasCause(s: Sys, id: nat)
    requires Reachable(s) && id in s.gates && s.gates[id].pc.Refused?
    ensures s.gates[id].ctxDone || s.job.failing || s.job.cancelState.Some? || s.job.state in {Failed, Cancelled, Lost}
  {
    var acts :| Exec(Init(s.cfg), acts) == Some(s);
    RunCause(s.cfg, acts);
  }

  // ---- clients that give up, and waking ----

  lemma GateCancels(s: Sys, id: nat, a: GateAct, k: nat)
    requires GateStep(s, id, a).Some? && k in s.gates
    ensures k in GateStep(s, id, a).value.gates
    ensures GateStep(s, id, a).value.gates[k].ctxDone <==> s.gates[k].ctxDone || (id == k && a == Cancel)
  {
  }

  lemma StepCancels(s: Sys, a: Action, k: nat)
    requires Next(s, a).Some? && k in Next(s, a).value.gates
    ensures k in s.gates ==> (Next(s, a).value.gates[k].ctxDone <==> s.gates[k].ctxDone || a == GateA(k, Cancel))
    ensures k !in s.gates ==> !Next(s, a).value.gates[k].ctxDone && a != GateA(k, Cancel)
  {
    if a.GateA? {
      GateStable(s, a.gate, a.g);
      if k in s.gates {
        GateCancels(s, a.gate, a.g, k);
      }
    } else if a.CompleteFile? {
      FileTouches(s, a.name, a.data);
    } else if !a.PostAnnounce? {
      PlainStable(s, a);
    }
  }

  lemma PostedBefore(s: Sys, k: nat, a: GateAct)
    requires Next(s, GateA(k, a)).Some?
    ensures k in s.gates
  {
  }

  lemma GatesStay(s: Sys, a: Action, k: nat)
    requires Next(s, a).Some? && k in s.gates
    ensures k in Next(s, a).value.gates
  {
    StepStable(s, a);
  }

  lemma {:induction false} NotPosted(cfg: Config, acts: seq<Action>, k: nat)
    requires Exec(Init(cfg), acts).Some? && k !in Exec(Init(cfg), acts).value.gates
    ensures GateA(k, Cancel) !in acts
    decreases |acts|
  {
    if acts != [] {
      var p, a := acts[..|acts| - 1], acts[|acts| - 1];
      var b := Exec(Init(cfg), p).value;
      if k in b.gates {
        GatesStay(b, a, k);
      }
      NotPosted(cfg, p, k);
      if a == GateA(k, Cancel) {
        PostedBefore(b, k, Cancel);
      }
      assert acts == p + [a];
    }
  }

  /** The gate knows that its client has given up exactly when it has, at any time before. */
  lemma {:induction false} ClientGaveUp(cfg: Config, acts: seq<Action>, k: nat)
    requires Exec(Init(cfg), acts).Some? && k in Exec(Init(cfg), acts).value.gates
    ensures Exec(Init(cfg), acts).value.gates[k].ctxDone <==> GateA(k, Cancel) in acts
    decreases |acts|
  {
    if acts != [] {
      var p, a := acts[..|acts| - 1], acts[|acts| - 1];
      var b := Exec(Init(cfg), p).value;
      StepCancels(b, a, k);
      assert acts == p + [a];
      if k in b.gates {
        ClientGaveUp(cfg, p, k);
      } else {
        NotPosted(cfg, p, k);
      }
    }
  }

  /**
   * Nobody sleeps when he should not: in every reachable state, a held announce can wake up if the name it
   * waits for is ACKed, if the job is in trouble, or if its client has given up and the wakeup for that is
   * out; and so can the drain if nothing is pending, the job is failing, or its timer has fired in time.
   */
  lemma SleepersCanWake(s: Sys, id: nat)
    requires Reachable(s)
    ensures id in s.gates && s.gates[id].pc.Asleep? && s.gates[id].i < |s.gates[id].names|
              && (s.gates[id].names[s.gates[id].i] in s.job.acked || InTrouble(s.job)
                  || (s.gates[id].ctxDone && !s.gates[id].wakeDue))
            ==> Next(s, GateA(id, WakeUp)).Some?
    ensures s.run.DrainAsleep? && (s.job.pending <= 0 || s.job.failing || (s.clock >= s.run.deadline && s.run.timerFired))
            ==> Next(s, RunA(StepDrainWake)).Some?
  {
    NoLostWakeup(s);
    if id in s.gates && s.gates[id].pc.Asleep? && s.job.signals > s.gates[id].pc.since {
      GateWakes(s, id);
    }
    if s.run.DrainAsleep? && s.job.signals > s.run.since {
      DrainWakes(s);
    }
  }

  lemma GateWakes(s: Sys, id: nat)
    requires id in s.gates && s.gates[id].pc.Asleep? && s.job.signals > s.gates[id].pc.since
    ensures Next(s, GateA(id, WakeUp)).Some?
  {
    assert GateStep(s, id, WakeUp).Some?;
  }

  lemma DrainWakes(s: Sys)
    requires s.run.DrainAsleep? && s.job.signals > s.run.since
    ensures Next(s, RunA(StepDrainWake)).Some?
  {
    assert RunStep(s, StepDrainWake) == StopRun(s, StepDrainWake);
  }

  // ---- and the announce of ACKed chunks goes out ----

  /** The steps of a gate that has `left` more names to check, all of them ACKed. */
  function PassRun(id: nat, left: nat): seq<Action> {
    if left == 0 then [GateA(id, PassThrough), GateA(id, Forward)] else [GateA(id, CheckName)] + PassRun(id, left - 1)
  }

  function WithGate(s: Sys, id: nat, g: Gate): Sys {
    s.(gates := s.gates[id := g])
  }

  lemma WithGateTwice(s: Sys, id: nat, g: Gate, g': Gate)
    ensures WithGate(WithGate(s, id, g), id, g') == WithGate(s, id, g')
  {
    assert s.gates[id := g][id := g'] == s.gates[id := g'];
  }

  lemma OneGate(s: Sys, id: nat, a: GateAct, s': Sys)
    requires GateStep(s, id, a) == Some(s')
    ensures Exec(s, [GateA(id, a)]) == Some(s')
  {
    P.OneStep(s, GateA(id, a), s');
  }

  lemma PassesThrough(s: Sys, id: nat)
    requires id in s.gates && s.gates[id].pc.Checking? && s.gates[id].i == |s.gates[id].names|
    ensures GateStep(s, id, PassThrough) == Some(WithGate(s, id, s.gates[id].(pc := Passed)))
  {
  }

  lemma Forwards(s: Sys, id: nat)
    requires id in s.gates && s.gates[id].pc.Passed?
    ensures GateStep(s, id, Forward) == Some(WithGate(s, id, s.gates[id].(pc := Forwarded)))
  {
  }

  lemma Pass(s: Sys, id: nat) returns (s': Sys)
    requires id in s.gates && s.gates[id].pc.Checking? && s.gates[id].i == |s.gates[id].names|
    ensures Exec(s, PassRun(id, 0)) == Some(s') && s' == WithGate(s, id, s.gates[id].(pc := Forwarded))
  {
    var g := s.gates[id];
    var s1 := WithGate(s, id, g.(pc := Passed));
    PassesThrough(s, id);
    Forwards(s1, id);
    WithGateTwice(s, id, g.(pc := Passed), g.(pc := Forwarded));
    s' := WithGate(s, id, g.(pc := Forwarded));
    OneGate(s, id, PassThrough, s1);
    OneGate(s1, id, Forward, s');
    P.Joined(s, [GateA(id, PassThrough)], s1, [GateA(id, Forward)], s');
    assert [GateA(id, PassThrough)] + [GateA(id, Forward)] == PassRun(id, 0);
  }

  lemma CheckPasses(s: Sys, id: nat)
    requires id in s.gates && s.gates[id].pc.Checking? && s.gates[id].i < |s.gates[id].names|
    requires s.gates[id].names[s.gates[id].i] in s.job.acked
    ensures Exec(s, [GateA(id, CheckName)]) == Some(WithGate(s, id, s.gates[id].(i := s.gates[id].i + 1)))
  {
    ChecksNext(s, id);
    OneGate(s, id, CheckName, WithGate(s, id, s.gates[id].(i := s.gates[id].i + 1)));
  }

  lemma ChecksNext(s: Sys, id: nat)
    requires id in s.gates && s.gates[id].pc.Checking? && s.gates[id].i < |s.gates[id].names|
    requires s.gates[id].names[s.gates[id].i] in s.job.acked
    ensures GateStep(s, id, CheckName) == Some(WithGate(s, id, s.gates[id].(i := s.gates[id].i + 1)))
  {
  }

  /**
   * An announce of ACKed chunks goes out, whatever has become of the job: from every state in which a
   * gate is checking and all the names that it has left are ACKed, its steps lead to forwarding.
   */
  lemma {:induction false} AckedPasses(s: Sys, id: nat, g: Gate, left: nat)
    requires id in s.gates && s.gates[id] == g && g.pc.Checking? && g.i + left == |g.names|
    requires forall k :: g.i <= k < |g.names| ==> g.names[k] in s.job.acked
    ensures Exec(s, PassRun(id, left)) == Some(WithGate(s, id, g.(i := |g.names|, pc := Forwarded)))
    decreases left
  {
    if left == 0 {
      AckedNone(s, id, g);
    } else {
      var g1 := g.(i := g.i + 1);
      AckedPasses(WithGate(s, id, g1), id, g1, left - 1);
      AckedMore(s, id, g, left);
    }
  }

  lemma AckedNone(s: Sys, id: nat, g: Gate)
    requires id in s.gates && s.gates[id] == g && g.pc.Checking? && g.i == |g.names|
    ensures Exec(s, PassRun(id, 0)) == Some(WithGate(s, id, g.(i := |g.names|, pc := Forwarded)))
  {
    var s' := Pass(s, id);
    assert g.(i := |g.names|, pc := Forwarded) == g.(pc := Forwarded);
  }

  lemma AckedMore(s: Sys, id: nat, g: Gate, left: nat)
    requires id in s.gates && s.gates[id] == g && g.pc.Checking? && left > 0 && g.i + left == |g.names|
    requires g.names[g.i] in s.job.acked
    requires
      var g1 := g.(i := g.i + 1);
      var s1 := WithGate(s, id, g1);
      Exec(s1, PassRun(id, left - 1)) == Some(WithGate(s1, id, g1.(i := |g1.names|, pc := Forwarded)))
    ensures Exec(s, PassRun(id, left)) == Some(WithGate(s, id, g.(i := |g.names|, pc := Forwarded)))
  {
    var g1, last := g.(i := g.i + 1), g.(i := |g.names|, pc := Forwarded);
    assert g1.(i := |g1.names|, pc := Forwarded) == last;
    CheckPasses(s, id);
    WithGateTwice(s, id, g1, last);
    PassMore(s, id, left, WithGate(s, id, g1), WithGate(s, id, last));
  }

  lemma PassMore(s: Sys, id: nat, left: nat, s1: Sys, s2: Sys)
    requires left > 0 && Exec(s, [GateA(id, CheckName)]) == Some(s1) && Exec(s1, PassRun(id, left - 1)) == Some(s2)
    ensures Exec(s, PassRun(id, left)) == Some(s2)
  {
    P.Joined(s, [GateA(id, CheckName)], s1, PassRun(id, left - 1), s2);
  }
}
