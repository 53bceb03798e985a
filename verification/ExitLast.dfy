/** What an events client has been sent when the hub closes: is the exit event the last one? */
module ExitLast {
  import opened Prelude
  import opened Protocol
  import opened EventHubSpec
  import opened System
  import opened SystemLife
  import opened SystemInv

  /** Between the exit event and the close of the hub. */
  predicate InWindow(s: Sys) {
    s.run.Finalizing? && s.run.stage.ClosingHub?
  }

  /** In the course of `acts` from `s`, a stderr line met the attached channel `id` with room. */
  predicate StderrMet(s: Sys, acts: seq<Action>, id: nat)
    requires Exec(s, acts).Some?
    decreases |acts|
  {
    if acts == [] then false
    else
      var before := Exec(s, acts[..|acts| - 1]).value;
      || StderrMet(s, acts[..|acts| - 1], id)
      || (acts[|acts| - 1].Stderr? && HasRoom(before.hub, id))
  }

  predicate HasRoom(h: Hub, id: nat) {
    id in h.subs && id in h.chans && |h.chans[id].buf| < SUB_BUFFER
  }

  predicate EndsWithExit(c: Chan) {
    c.sent != [] && c.sent[|c.sent| - 1].ExitEvent?
  }

  /** While the hub is open, an attached channel ends with the exit unless a stderr line has met it. */
  ghost predicate ExitKept(s: Sys, s0: Sys, acts: seq<Action>)
    requires Exec(s0, acts) == Some(s)
  {
    && (!s.hub.closed ==> InWindow(s))
    && (forall id :: StderrMet(s0, acts, id) ==> id in s.hub.chans)
    && (!s.hub.closed ==> forall id :: id in s.hub.subs ==>
          id in s.hub.chans && s.hub.chans[id].sent != []
          && (EndsWithExit(s.hub.chans[id]) <==> !StderrMet(s0, acts, id)))
  }

  /** Every channel still attached after the exit was published ends with it. */
  lemma ExitReaches(h: Hub, ev: Event)
    requires HubInv(h) && !h.closed && ev.ExitEvent?
    ensures var h' := Publish(h, ev);
            !h'.closed && forall id :: id in h'.subs ==> id in h'.chans && EndsWithExit(h'.chans[id])
  {
  }

  /** Actions that leave the hub alone. */
  predicate NoHub(a: Action) {
    !a.RunA? && !a.ClientA? && !a.Stderr?
  }

  lemma HubUntouched(s: Sys, a: Action)
    requires NoHub(a) && Next(s, a).Some?
    ensures Next(s, a).value.hub == s.hub && Next(s, a).value.run == s.run
  {
    match a
    case UploadA(w, u) => UploadTouches(s, w, u);
    case WatchA(w) => WatchTouches(s, w);
    case CreateFile(n) => FileTouches(s, n, []);
    case CompleteFile(n, data) => FileTouches(s, n, data);
    case GateA(id, g) => GateTouches(s, id, g);
    case MonTick => MonTouches(s, a);
    case MonCancel => MonTouches(s, a);
    case MonStop => MonTouches(s, a);
    case Forget => ReapTouches(s, a);
    case RemoveForgotten => ReapTouches(s, a);
    case ServerA(_, _) =>
    case SessionGone =>
    case RemoveSessionDir =>
    case MakeSessionDir =>
    case PostAnnounce(_, _) =>
    case DeleteJob =>
    case Tick(_) =>
  }

  lemma OnlyCloses(s: Sys, a: RunAct)
    requires InWindow(s) && RunStep(s, a).Some?
    ensures RunStep(s, a).value.hub == CloseHub(s.hub)
  {
    assert !StartAct(a) && !StopAct(a) && !a.StepPublish?;
    assert a.StepCloseHub?;
  }

  lemma StderrEnds(h: Hub, line: string, id: nat)
    requires HubInv(h) && !h.closed && id in h.subs && h.chans[id].sent != []
    ensures
      var h' := Publish(h, StderrEvent(line));
      && h'.chans.Keys == h.chans.Keys && h'.subs == h.subs && !h'.closed && h'.chans[id].sent != []
      && (EndsWithExit(h'.chans[id]) <==> EndsWithExit(h.chans[id]) && !HasRoom(h, id))
  {
  }

  lemma SnapshotEnds(h: Hub, id: nat)
    requires HubInv(h) && FewStates(h) && id !in h.chans && !h.closed && h.exit.Some?
    ensures
      var h' := Subscribe(h, id);
      h'.chans == h.chans[id := h'.chans[id]] && h'.subs == h.subs + {id} && !h'.closed && EndsWithExit(h'.chans[id])
  {
    SubscribeKeeps(h, id);
    assert Snapshot(h)[|Snapshot(h)| - 1] == h.exit.value;
  }

  /** A client that joins, reads or leaves. */
  lemma ClientKeepsExit(s: Sys, s0: Sys, acts: seq<Action>, id: nat, c: ClientAct)
    requires acts != [] && acts[|acts| - 1] == ClientA(id, c) && Exec(s0, acts).Some?
    requires Exec(s0, acts[..|acts| - 1]) == Some(s) && ExitKept(s, s0, acts[..|acts| - 1])
    requires HubInv(s.hub) && FewStates(s.hub) && (!s.hub.closed ==> s.hub.exit.Some?)
    ensures ExitKept(Exec(s0, acts).value, s0, acts)
  {
    var s' := Exec(s0, acts).value;
    assert ClientStep(s, id, c) == Some(s');
    ClientTouches(s, id, c);
    ClientHub(s, id, c);
    assert forall k :: StderrMet(s0, acts, k) <==> StderrMet(s0, acts[..|acts| - 1], k);
  }

  /** A client neither opens nor closes the hub, and the channel it is given ends with the exit. */
  lemma ClientHub(s: Sys, id: nat, c: ClientAct)
    requires ClientStep(s, id, c).Some? && HubInv(s.hub) && FewStates(s.hub) && (!s.hub.closed ==> s.hub.exit.Some?)
    ensures
      var h, h' := s.hub, ClientStep(s, id, c).value.hub;
      && h'.closed == h.closed && h.chans.Keys <= h'.chans.Keys
      && forall k :: k in h'.subs && !h.closed ==>
           k in h'.chans && if k in h.subs then k in h.chans && h'.chans[k].sent == h.chans[k].sent
                            else k !in h.chans && EndsWithExit(h'.chans[k])
  {
    if c.Attach? && !s.hub.closed {
      SnapshotEnds(s.hub, id);
    }
  }

  lemma LineKeepsExit(s: Sys, s0: Sys, acts: seq<Action>, line: string)
    requires acts != [] && acts[|acts| - 1] == Stderr(line) && Exec(s0, acts).Some?
    requires Exec(s0, acts[..|acts| - 1]) == Some(s) && ExitKept(s, s0, acts[..|acts| - 1]) && HubInv(s.hub)
    ensures ExitKept(Exec(s0, acts).value, s0, acts)
  {
    var s' := Exec(s0, acts).value;
    if !s.hub.closed {
      forall id | id in s.hub.subs
        ensures s'.hub.chans.Keys == s.hub.chans.Keys && s'.hub.subs == s.hub.subs && s'.hub.chans[id].sent != []
        ensures EndsWithExit(s'.hub.chans[id]) <==> EndsWithExit(s.hub.chans[id]) && !HasRoom(s.hub, id)
      {
        StderrEnds(s.hub, line, id);
      }
    }
  }

  lemma WindowFacts(s: Sys)
    requires Inv(s)
    ensures HubInv(s.hub) && |s.hub.states| <= 5 && FewStates(s.hub) && (InWindow(s) ==> s.hub.exit.Some?)
  {
    InvParts(s);
    LifeParts(s);
    StageFew(s);
  }

  lemma StageFew(s: Sys)
    requires StageInv(s)
    ensures |s.hub.states| <= 5 && FewStates(s.hub) && (InWindow(s) ==> s.hub.exit.Some?)
  {
  }

  lemma {:induction false} WindowKeeps(s0: Sys, acts: seq<Action>)
    requires Inv(s0) && Exec(s0, acts).Some? && InWindow(s0) && ExitKept(s0, s0, [])
    ensures ExitKept(Exec(s0, acts).value, s0, acts)
    decreases |acts|
  {
    if acts != [] {
      var p, a := acts[..|acts| - 1], acts[|acts| - 1];
      WindowKeeps(s0, p);
      var s := Exec(s0, p).value;
      ExecKeeps(s0, p);
      WindowFacts(s);
      if a.Stderr? {
        LineKeepsExit(s, s0, acts, a.line);
      } else if a.ClientA? {
        ClientKeepsExit(s, s0, acts, a.client, a.c);
      } else {
        assert forall k :: StderrMet(s0, acts, k) <==> StderrMet(s0, p, k);
        QuietKeepsExit(s, a);
      }
    }
  }

  lemma QuietKeepsExit(s: Sys, a: Action)
    requires Next(s, a).Some? && !a.Stderr? && !a.ClientA? && (s.hub.closed || InWindow(s))
    ensures Next(s, a).value.hub.closed || (Next(s, a).value.hub == s.hub && InWindow(Next(s, a).value))
    ensures Next(s, a).value.hub.chans.Keys == s.hub.chans.Keys
  {
    if !a.RunA? {
      HubUntouched(s, a);
    } else if s.hub.closed {
      ClosedStays(s, a.r);
    } else {
      OnlyCloses(s, a.r);
    }
  }

  lemma ClosedStays(s: Sys, a: RunAct)
    requires s.hub.closed && RunStep(s, a).Some?
    ensures RunStep(s, a).value.hub == s.hub
  {
    if a.StepPublish? {
      PublishMoves(s);
    } else if a.StepFinPublish? || a.StepFinExit? || a.StepCloseHub? {
      FinalHub(s, a);
    } else {
      RunNoHub(s, a);
    }
  }

  /**
   * The exit is the last event that a client is sent before the end of its stream exactly when no
   * stderr line comes in between. Take any run, its exit event, what happens until the hub closes, and
   * a channel attached when it does: the channel ends with the exit event if and only if no stderr line
   * published in between met it with room in its buffer.
   */
  lemma ExitIsLast(s: Sys, s0: Sys, mid: seq<Action>, s1: Sys, end: Sys, id: nat)
    requires Reachable(s) && RunStep(s, StepFinExit) == Some(s0)
    requires Exec(s0, mid) == Some(s1) && RunStep(s1, StepCloseHub) == Some(end)
    requires id in s1.hub.subs
    ensures id in end.hub.chans && end.hub.chans[id].closed && end.hub.chans[id].sent != []
    ensures end.hub.chans[id].sent[|end.hub.chans[id].sent| - 1].ExitEvent? <==> !StderrMet(s0, mid, id)
  {
    WindowRun(s, s0, mid);
    ClosingEnds(s1, id);
    Attached(s1, s0, mid, id);
  }

  lemma WindowRun(s: Sys, s0: Sys, mid: seq<Action>)
    requires Reachable(s) && RunStep(s, StepFinExit) == Some(s0) && Exec(s0, mid).Some?
    ensures var s1 := Exec(s0, mid).value;
            ExitKept(s1, s0, mid) && HubInv(s1.hub) && s1.hub.closed == HubDone(s1.run)
  {
    WindowOpens(s, s0);
    WindowKeeps(s0, mid);
    OpenHub(s0, mid);
  }

  lemma Attached(s1: Sys, s0: Sys, mid: seq<Action>, id: nat)
    requires Exec(s0, mid) == Some(s1) && ExitKept(s1, s0, mid) && !s1.hub.closed && id in s1.hub.subs
    ensures id in s1.hub.chans && s1.hub.chans[id].sent != []
    ensures EndsWithExit(s1.hub.chans[id]) <==> !StderrMet(s0, mid, id)
  {
  }

  lemma WindowOpens(s: Sys, s0: Sys)
    requires Reachable(s) && RunStep(s, StepFinExit) == Some(s0)
    ensures Inv(s0) && InWindow(s0) && ExitKept(s0, s0, [])
  {
    ExitFacts(s);
    ExitOpens(s);
    ReachableInv(s);
    RunKeeps(s, StepFinExit);
  }

  lemma ExitFacts(s: Sys)
    requires Reachable(s)
    ensures HubInv(s.hub) && s.hub.closed == HubDone(s.run)
  {
    ReachableInv(s);
    InvParts(s);
    LifeParts(s);
  }

  lemma OpenHub(s0: Sys, mid: seq<Action>)
    requires Inv(s0) && Exec(s0, mid).Some?
    ensures var s := Exec(s0, mid).value; HubInv(s.hub) && s.hub.closed == HubDone(s.run)
  {
    ExecKeeps(s0, mid);
    InvParts(Exec(s0, mid).value);
    LifeParts(Exec(s0, mid).value);
  }

  lemma ExitOpens(s: Sys)
    requires HubInv(s.hub) && s.hub.closed == HubDone(s.run) && RunStep(s, StepFinExit).Some?
    ensures
      var s0 := RunStep(s, StepFinExit).value;
      InWindow(s0) && !s0.hub.closed && forall id :: id in s0.hub.subs ==> id in s0.hub.chans && EndsWithExit(s0.hub.chans[id])
  {
    ExitReaches(s.hub, ExitEvent(s.run.code));
  }

  lemma ClosingEnds(s: Sys, id: nat)
    requires HubInv(s.hub) && s.hub.closed == HubDone(s.run) && id in s.hub.subs && RunStep(s, StepCloseHub).Some?
    ensures
      var end := RunStep(s, StepCloseHub).value;
      && !s.hub.closed
      && id in end.hub.chans && end.hub.chans[id].closed && end.hub.chans[id].sent == s.hub.chans[id].sent
  {
  }
}
