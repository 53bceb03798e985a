/** A run in which the exit event is not the last thing that a client is sent. */
module ExitExample {
  import opened Prelude
  import opened Protocol
  import opened EventHubSpec
  import opened System
  import opened SystemTheorems
  import opened SystemExamples
  import opened ExitLast

  /** The terminal state of a COMPLETED job is entered and published; the exit event comes next. */
  lemma ToExit() returns (acts: seq<Action>, s: Sys)
    ensures Exec(Init(ONE), acts) == Some(s)
    ensures s.run.Finalizing? && s.run.stage.PubExit? && !s.run.early && s.job.state.Completed?
  {
    var s0: Sys;
    acts, s0 := ToRunning();
    acts, s0 := ToVerdict(acts, s0);
    acts, s0 := ToCompleted(acts, s0);
    s := Publishes(s0);
    acts := DoRun(acts, s0, StepFinPublish, s);
  }

  lemma Publishes(s: Sys) returns (s': Sys)
    requires s.run.Finalizing? && s.run.stage.PubState?
    ensures RunStep(s, StepFinPublish) == Some(s')
    ensures s'.run == s.run.(stage := PubExit) && s'.job == s.job
  {
    s' := FinalizeRun(s, StepFinPublish).value;
  }

  lemma Exits(s: Sys) returns (s': Sys)
    requires s.run.Finalizing? && s.run.stage.PubExit?
    ensures RunStep(s, StepFinExit) == Some(s') && s'.run == s.run.(stage := ClosingHub)
  {
    s' := FinalizeRun(s, StepFinExit).value;
  }

  /** An identity that no channel or client has had. */
  lemma {:induction false} FreshId(used: set<nat>) returns (id: nat)
    ensures forall k :: k in used ==> k < id
    decreases used
  {
    id := 0;
    if k :| k in used {
      var below := FreshId(used - {k});
      id := if k < below then below else k + 1;
      assert forall j :: j in used ==> j == k || j in used - {k};
    }
  }

  lemma Attaches(s: Sys, id: nat) returns (s1: Sys)
    requires InWindow(s) && !s.hub.closed && HubInv(s.hub) && |s.hub.states| <= 5
    requires id !in s.hub.chans && id !in s.clients
    ensures ClientStep(s, id, Attach) == Some(s1) && s1.run == s.run && !s1.hub.closed
    ensures HasRoom(s1.hub, id)
  {
    SubscribeKeeps(s.hub, id);
    SnapshotShort(s.hub);
    s1 := s.(hub := Subscribe(s.hub, id), clients := s.clients[id := Subscribed]);
  }

  /** A client attaches, and the mirror publishes a line that was left in its buffer. */
  lemma LateLine(s: Sys, id: nat) returns (s1: Sys, s2: Sys)
    requires InWindow(s) && !s.run.early && !s.hub.closed && HubInv(s.hub) && |s.hub.states| <= 5
    requires id !in s.hub.chans && id !in s.clients
    ensures Next(s, ClientA(id, Attach)) == Some(s1) && Next(s1, Stderr("late")) == Some(s2)
    ensures HasRoom(s1.hub, id) && id in s2.hub.subs && InWindow(s2)
  {
    s1 := Attaches(s, id);
    ClientNext(s, id, Attach, s1);
    LineStays(s1.hub, id);
    s2 := s1.(hub := Publish(s1.hub, StderrEvent("late")));
    LineNext(s1, "late", s2);
  }

  lemma LineMet(s: Sys, a: Action, line: string, s1: Sys, s2: Sys, id: nat)
    requires Next(s, a) == Some(s1) && Next(s1, Stderr(line)) == Some(s2) && HasRoom(s1.hub, id)
    ensures Exec(s, [a, Stderr(line)]) == Some(s2) && StderrMet(s, [a, Stderr(line)], id)
  {
    TwoActions(s, a, Stderr(line), s1, s2);
  }

  lemma TwoActions(s: Sys, a: Action, b: Action, s1: Sys, s2: Sys)
    requires Next(s, a) == Some(s1) && Next(s1, b) == Some(s2)
    ensures Exec(s, [a]) == Some(s1) && Exec(s, [a, b]) == Some(s2)
    ensures [a, b][..1] == [a] && [a][..0] == []
  {
    assert Exec(s, []) == Some(s);
  }

  lemma SnapshotShort(h: Hub)
    requires HubInv(h) && |h.states| <= 5
    ensures |Snapshot(h)| < SUB_BUFFER
  {
  }

  lemma LineStays(h: Hub, id: nat)
    requires id in h.subs && !h.closed
    ensures id in h.chans ==> id in Publish(h, StderrEvent("late")).subs
  {
  }

  lemma ClientNext(s: Sys, id: nat, c: ClientAct, s': Sys)
    requires ClientStep(s, id, c) == Some(s')
    ensures Next(s, ClientA(id, c)) == Some(s')
  {
  }

  lemma LineNext(s: Sys, line: string, s': Sys)
    requires MayWrite(s) && s' == s.(hub := Publish(s.hub, StderrEvent(line)))
    ensures Next(s, Stderr(line)) == Some(s')
  {
  }

  /**
   * A job runs its transcoder to the end and is COMPLETED. After the exit event the goroutine that
   * mirrors stderr, which nobody waits for, publishes one more line; it is the last thing that a
   * client attached at the close has been sent.
   */
  lemma StderrComesLast() returns (s: Sys, s0: Sys, mid: seq<Action>, s1: Sys, end: Sys, id: nat)
    ensures Reachable(s) && RunStep(s, StepFinExit) == Some(s0) && s.job.state.Completed?
    ensures Exec(s0, mid) == Some(s1) && RunStep(s1, StepCloseHub) == Some(end)
    ensures id in s1.hub.subs && id in end.hub.chans && end.hub.chans[id].closed && end.hub.chans[id].sent != []
    ensures !end.hub.chans[id].sent[|end.hub.chans[id].sent| - 1].ExitEvent?
  {
    var pre;
    pre, s := ToExit();
    RunReachable(ONE, pre);
    s0 := Exits(s);
    id := FreshId(s0.hub.chans.Keys + s0.clients.Keys);
    mid := [ClientA(id, Attach), Stderr("late")];
    s1 := LateRun(s, s0, id);
    end := Closes(s1);
    ExitIsLast(s, s0, mid, s1, end, id);
  }

  lemma LateRun(s: Sys, s0: Sys, id: nat) returns (s2: Sys)
    requires Reachable(s) && RunStep(s, StepFinExit) == Some(s0) && s0.run.Finalizing? && !s0.run.early
    requires id !in s0.hub.chans && id !in s0.clients
    ensures Exec(s0, [ClientA(id, Attach), Stderr("late")]) == Some(s2)
    ensures StderrMet(s0, [ClientA(id, Attach), Stderr("late")], id) && id in s2.hub.subs && InWindow(s2)
  {
    OpenFacts(s, s0);
    var s1;
    s1, s2 := LateLine(s0, id);
    LineMet(s0, ClientA(id, Attach), "late", s1, s2, id);
  }

  lemma OpenFacts(s: Sys, s0: Sys)
    requires Reachable(s) && RunStep(s, StepFinExit) == Some(s0)
    ensures InWindow(s0) && !s0.hub.closed && HubInv(s0.hub) && |s0.hub.states| <= 5
  {
    WindowOpens(s, s0);
    WindowFacts(s0);
    ExitFacts(s);
    ExitOpens(s);
  }

  lemma Closes(s: Sys) returns (end: Sys)
    requires InWindow(s)
    ensures RunStep(s, StepCloseHub) == Some(end)
  {
    end := RunStep(s, StepCloseHub).value;
  }
}
