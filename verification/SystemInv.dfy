/** All invariants together, and the proof that every action keeps them. */
module SystemInv {
  import opened Prelude
  import opened Protocol
  import opened EventHubSpec
  import opened JobSections
  import opened System
  import opened SystemChunks
  import opened SystemFiles
  import opened SystemLife
  import opened SystemGate

  /** Clients counted in and not yet counted out. */
  function Inside(clients: map<nat, ClientPc>): set<nat> {
    set id | id in clients && (clients[id].Counted? || clients[id].Unhooked?)
  }

  ghost predicate CountInv(s: Sys) {
    s.job.clients == |Inside(s.clients)|
  }

  ghost predicate Inv(s: Sys) {
    && HubInv(s.hub)
    && AccountInv(s)
    && FileInv(s)
    && LifeInv(s)
    && GateInv(s)
    && WakeInv(s)
    && CountInv(s)
  }

  lemma InitInv(cfg: Config)
    ensures Inv(Init(cfg))
  {
    NewHubInv();
    PublishKeeps(NEW_HUB, StateEvent(Pending));
    InitAccount(cfg);
    InitFiles(cfg);
    InitLife(cfg);
    assert Inside(Init(cfg).clients) == {};
  }

  /** The lifecycle owes the hub few states, and no state or exit after the exit. */
  lemma HubDiscipline(s: Sys)
    requires LifeInv(s)
    ensures FewStates(s.hub) && |s.hub.states| <= 5
    ensures !ExitPublished(s.run) ==> s.hub.exit.None?
  {
  }

  // ---- the run goroutine ----

  lemma RunPublishes(s: Sys)
    requires HubInv(s.hub) && LifeInv(s) && PublishRun(s).Some?
    ensures HubInv(PublishRun(s).value.hub)
  {
    HubDiscipline(s);
    PublishMoves(s);
    PublishKeeps(s.hub, StateEvent(if s.run.PubPreparing? then Preparing else if s.run.PubRunning? then Running else Draining));
  }

  lemma FinalHub(s: Sys, a: RunAct)
    requires s.run.Finalizing? && FinalizeRun(s, a).Some? && (a.StepFinPublish? || a.StepFinExit? || a.StepCloseHub?)
    ensures
      FinalizeRun(s, a).value.hub ==
        if a.StepFinPublish? then Publish(s.hub, StateEvent(s.run.final))
        else if a.StepFinExit? then Publish(s.hub, ExitEvent(s.run.code))
        else CloseHub(s.hub)
    ensures !a.StepCloseHub? ==> !ExitPublished(s.run)
  {
  }

  lemma RunEndsHub(s: Sys, a: RunAct)
    requires HubInv(s.hub) && LifeInv(s)
    requires s.run.Finalizing? && FinalizeRun(s, a).Some? && (a.StepFinPublish? || a.StepFinExit? || a.StepCloseHub?)
    ensures HubInv(FinalizeRun(s, a).value.hub)
  {
    HubDiscipline(s);
    FinalHub(s, a);
    if a.StepCloseHub? {
      CloseHubKeeps(s.hub);
    } else {
      PublishKeeps(s.hub, if a.StepFinPublish? then StateEvent(s.run.final) else ExitEvent(s.run.code));
    }
  }

  lemma RunHub(s: Sys, a: RunAct)
    requires HubInv(s.hub) && LifeInv(s) && RunStep(s, a).Some?
    ensures HubInv(RunStep(s, a).value.hub)
  {
    if a.StepPublish? {
      RunPublishes(s);
    } else if a.StepFinPublish? || a.StepFinExit? || a.StepCloseHub? {
      RunEndsHub(s, a);
    } else {
      RunNoHub(s, a);
    }
  }

  lemma RunNoHub(s: Sys, a: RunAct)
    requires RunStep(s, a).Some?
    requires !a.StepPublish? && !a.StepFinPublish? && !a.StepFinExit? && !a.StepCloseHub?
    ensures RunStep(s, a).value.hub == s.hub
  {
    if StartAct(a) {
      StartNoHub(s, a);
    } else if StopAct(a) {
      StopMoves(s, a);
    } else {
      FinalizeNoHub(s, a);
    }
  }

  lemma StartNoHub(s: Sys, a: RunAct)
    requires StartRun(s, a).Some?
    ensures StartRun(s, a).value.hub == s.hub
  {
  }

  lemma FinalizeNoHub(s: Sys, a: RunAct)
    requires s.run.Finalizing? && FinalizeRun(s, a).Some?
    requires !a.StepFinPublish? && !a.StepFinExit? && !a.StepCloseHub?
    ensures FinalizeRun(s, a).value.hub == s.hub
  {
  }

  lemma RunKeeps(s: Sys, a: RunAct)
    requires Inv(s) && RunStep(s, a).Some?
    ensures Inv(RunStep(s, a).value)
  {
    var s' := RunStep(s, a).value;
    RunHub(s, a);
    RunLife(s, a);
    RunWake(s, a);
    RunSignals(s, a);
    if a.PushersOk? {
      PushersKeep(s);
    } else {
      RunTouches(s, a);
      FrameKeeps(s, s');
    }
  }

  lemma PushersKeep(s: Sys)
    requires AccountInv(s) && FileInv(s) && GateInv(s) && CountInv(s) && LifeInv(s) && RunStep(s, PushersOk).Some?
    ensures var s' := RunStep(s, PushersOk).value;
            AccountInv(s') && FileInv(s') && GateInv(s') && CountInv(s')
  {
    var s' := RunStep(s, PushersOk).value;
    PushersStart(s, s');
    GateKeeps(s, s');
  }

  /** What the run goroutine's frame is enough for. */
  lemma FrameKeeps(s: Sys, s': Sys)
    requires AccountInv(s) && FileInv(s) && GateInv(s) && CountInv(s) && RunFrame(s, s') && RunJob(s.job, s'.job)
    ensures AccountInv(s') && FileInv(s') && GateInv(s') && CountInv(s')
  {
    assert SameAccount(s, s');
    SameAccountKeeps(s, s');
    RunFiles(s, s');
    GateKeeps(s, s');
  }

  lemma RunFiles(s: Sys, s': Sys)
    requires FileInv(s) && RunFrame(s, s') && SameUploads(s.job, s'.job)
    ensures FileInv(s')
  {
  }

  // ---- the others ----

  /** The transcoder creating or completing a file. */
  lemma CreateKeeps(s: Sys, n: Name)
    requires Inv(s) && Create(s, n).Some?
    ensures Inv(Create(s, n).value)
  {
    var s' := Create(s, n).value;
    assert s' == s.(disk := s'.disk);
    CreateFiles(s, n);
    SameAccountKeeps(s, s');
    SameLifeKeeps(s, s');
    GateKeeps(s, s');
    WakeKeeps(s, s');
  }

  lemma CompleteKeeps(s: Sys, n: Name, data: Bytes)
    requires Inv(s) && Complete(s, n, data).Some?
    ensures Inv(Complete(s, n, data).value)
  {
    var s' := Complete(s, n, data).value;
    assert s' == s.(disk := s'.disk, done := s'.done, watch := s'.watch);
    CompleteAccount(s, n, data);
    CompleteFiles(s, n, data);
    CompleteLife(s, n, data);
    GateKeeps(s, s');
    WakeKeeps(s, s');
  }

  lemma CompleteLife(s: Sys, n: Name, data: Bytes)
    requires LifeInv(s) && Complete(s, n, data).Some?
    ensures LifeInv(Complete(s, n, data).value)
  {
    var s' := Complete(s, n, data).value;
    assert s'.watch.pc == s.watch.pc && (!s.watch.open ==> s'.watch == s.watch);
  }

  lemma WatchKeeps(s: Sys, a: WatchAct)
    requires Inv(s) && WatchStep(s, a).Some?
    ensures Inv(WatchStep(s, a).value)
  {
    var s' := WatchStep(s, a).value;
    WatchTouches(s, a);
    WatchAccount(s, a);
    WatchLife(s, a);
    UploadSections(s.job, s.queue, if s.watch.pc.Enqueuing? then s.watch.pc.name else "", true, s.cfg.cap);
    assert Signalled(s.job, s'.job);
    WatchFiles(s, s');
    GateKeeps(s, s');
    WakeKeeps(s, s');
  }

  lemma WatchTouches(s: Sys, a: WatchAct)
    requires WatchStep(s, a).Some?
    ensures
      var s' := WatchStep(s, a).value;
      && s' == s.(job := s'.job, queue := s'.queue, watch := s'.watch, accepted := s'.accepted)
      && s'.job.acked == s.job.acked && s'.job.clients == s.job.clients
      && (a.EnqueueIt? ==> s.watch.pc.Enqueuing? && s'.job == Enqueue(s.job, s.queue, s.watch.pc.name, s.cfg.cap).0)
      && (a.AbortIt? ==> s'.job == AbortFail(s.job))
      && (!a.EnqueueIt? && !a.AbortIt? ==> s'.job == s.job)
  {
    OnlyPipelineSections(s.job, Failed, true, 0);
  }

  lemma WatchFiles(s: Sys, s': Sys)
    requires FileInv(s) && s'.job.acked == s.job.acked
    requires s' == s.(job := s'.job, queue := s'.queue, watch := s'.watch, accepted := s'.accepted)
    ensures FileInv(s')
  {
  }

  lemma UploadKeeps(s: Sys, w: nat, a: UploadAct)
    requires Inv(s) && UploadStep(s, w, a).Some?
    ensures Inv(UploadStep(s, w, a).value)
  {
    var s' := UploadStep(s, w, a).value;
    UploadTouches(s, w, a);
    UploadAccount(s, w, a);
    UploadFiles(s, w, a);
    UploadLife(s, w, a);
    UploadJob(s, w, a);
    UploadHandlers(s, w, a);
    GateKeeps(s, s');
    WakeKeeps(s, s');
  }

  lemma UploadJob(s: Sys, w: nat, a: UploadAct)
    requires UploadStep(s, w, a).Some?
    ensures
      var s' := UploadStep(s, w, a).value;
      Signalled(s.job, s'.job) && s'.job.clients == s.job.clients
  {
    if a.RecordIt? {
      var u := s.uploads[w];
      UploadSections(s.job, s.queue, u.name, u.ok, 0);
    } else if !a.TakeName? {
      QuietWorker(s, w, a);
      UploadSections(s.job, s.queue, "", true, 0);
    }
  }

  lemma ServerKeeps(s: Sys, n: Name, a: ServerAct)
    requires Inv(s) && ServerStep(s.server, n, a).Some?
    ensures Inv(s.(server := ServerStep(s.server, n, a).value))
  {
    ServerFiles(s.server, n, a, s.done);
    SessionKeeps(s, ServerStep(s.server, n, a).value);
  }

  /** Whatever happens to masterd's side, as long as what has landed stays recorded. */
  lemma SessionKeeps(s: Sys, v: Server)
    requires Inv(s) && HandlersOk(v, s.done) && LandedOk(v.landed, s.done)
    requires s.server.landed.Keys <= v.landed.Keys
    ensures Inv(s.(server := v))
  {
    var s' := s.(server := v);
    SameAccountKeeps(s, s');
    SameLifeKeeps(s, s');
    GateKeeps(s, s');
    WakeKeeps(s, s');
    forall w | w in s'.uploads
      ensures PushOk(s'.uploads[w], s'.job.acked, v.landed)
    {
      assert PushOk(s.uploads[w], s.job.acked, s.server.landed);
    }
  }

  lemma GateActKeeps(s: Sys, id: nat, a: GateAct)
    requires Inv(s) && GateStep(s, id, a).Some?
    ensures Inv(GateStep(s, id, a).value)
  {
    var s' := GateStep(s, id, a).value;
    assert s' == s.(job := s'.job, gates := s'.gates);
    GateJob(s, id, a);
    StepGate(s, id, a);
    GateWake(s, id, a);
    SameAccountKeeps(s, s');
    SameFilesKeeps(s, s');
    SameLifeKeeps(s, s');
  }

  lemma PostKeeps(s: Sys, id: nat, names: seq<Name>)
    requires Inv(s) && Post(s, id, names).Some?
    ensures Inv(Post(s, id, names).value)
  {
    var s' := Post(s, id, names).value;
    assert s' == s.(gates := s'.gates);
    PostGate(s, id, names);
    SameAccountKeeps(s, s');
    SameFilesKeeps(s, s');
    SameLifeKeeps(s, s');
    forall k | k in s'.gates
      ensures SleeperOk(s'.gates[k], s'.job)
    {
      assert k != id ==> s'.gates[k] == s.gates[k];
    }
  }

  lemma CancelKeeps(s: Sys, target: JobState, mon: MonPc)
    requires Inv(s) && (target.Cancelled? || (target.Lost? && !s.mon.MonOff?))
    requires mon == s.mon || (!s.mon.MonOff? && !mon.MonOff?)
    ensures Inv(s.(job := RequestCancel(s.job, target), mon := mon))
  {
    var s' := s.(job := RequestCancel(s.job, target), mon := mon);
    OnlyPipelineSections(s.job, target, true, 0);
    ClientSections(s.job, target, 0);
    CancelLife(s, s', target);
    SameAccountKeeps(s, s');
    SameFilesKeeps(s, s');
    GateKeeps(s, s');
    WakeKeeps(s, s');
  }

  lemma MonKeeps(s: Sys, a: Action)
    requires Inv(s) && MonStep(s, a).Some?
    ensures Inv(MonStep(s, a).value)
  {
    var s' := MonStep(s, a).value;
    if a.MonCancel? {
      CancelKeeps(s, Lost, MonEnded);
    } else {
      assert s' == s.(mon := s'.mon) && (s.mon.MonOff? <==> s'.mon.MonOff?);
      MonMoves(s, s'.mon);
    }
  }

  lemma MonMoves(s: Sys, mon: MonPc)
    requires Inv(s) && (s.mon.MonOff? <==> mon.MonOff?)
    ensures Inv(s.(mon := mon))
  {
    var s' := s.(mon := mon);
    SameAccountKeeps(s, s');
    SameFilesKeeps(s, s');
    GateKeeps(s, s');
    WakeKeeps(s, s');
    MonLife(s, mon);
  }

  lemma MonLife(s: Sys, mon: MonPc)
    requires LifeInv(s) && (s.mon.MonOff? <==> mon.MonOff?)
    ensures LifeInv(s.(mon := mon))
  {
  }

  /** Steps that touch only the hub, the clients and the client count. */
  lemma ClientFrame(s: Sys, hub: Hub, job: Job, clients: map<nat, ClientPc>)
    requires Inv(s) && HubInv(hub) && SameStages(s.hub, hub)
    requires job == s.job || job == ClientIn(s.job) || job == ClientOut(s.job, s.clock)
    requires job.clients == |Inside(clients)|
    ensures Inv(s.(hub := hub, job := job, clients := clients))
  {
    var s' := s.(hub := hub, job := job, clients := clients);
    ClientSections(s.job, Failed, s.clock);
    SameAccountKeeps(s, s');
    SameFilesKeeps(s, s');
    SameLifeKeeps(s, s');
    GateKeeps(s, s');
    WakeKeeps(s, s');
  }

  lemma SubscribeHub(s: Sys, id: nat)
    requires HubInv(s.hub) && LifeInv(s) && id !in s.hub.chans
    ensures HubInv(Subscribe(s.hub, id)) && SameStages(s.hub, Subscribe(s.hub, id))
  {
    HubDiscipline(s);
    SubscribeKeeps(s.hub, id);
    QuietHub(s.hub, "", id);
  }

  lemma SubscribeStep(s: Sys, id: nat)
    requires Inv(s) && id !in s.hub.chans && id !in s.clients
    ensures Inv(s.(hub := Subscribe(s.hub, id), clients := s.clients[id := Subscribed]))
  {
    SubscribeHub(s, id);
    var hub := Subscribe(s.hub, id);
    var clients := s.clients[id := Subscribed];
    assert Inside(clients) == Inside(s.clients);
    ClientFrame(s, hub, s.job, clients);
    assert s.(hub := hub, job := s.job, clients := clients) == s.(hub := hub, clients := clients);
  }

  lemma InsideGrows(clients: map<nat, ClientPc>, id: nat)
    requires id in clients && clients[id].Subscribed?
    ensures |Inside(clients[id := Counted])| == |Inside(clients)| + 1
  {
    assert Inside(clients[id := Counted]) == Inside(clients) + {id};
  }

  lemma InsideShrinks(clients: map<nat, ClientPc>, id: nat)
    requires id in clients && clients[id].Unhooked?
    ensures |Inside(clients[id := Left])| == |Inside(clients)| - 1
  {
    assert id in Inside(clients);
    assert Inside(clients[id := Left]) == Inside(clients) - {id};
  }

  lemma CountStep(s: Sys, id: nat, a: ClientAct)
    requires Inv(s) && (a.CountIn? || a.CountOut?) && ClientStep(s, id, a).Some?
    ensures Inv(ClientStep(s, id, a).value)
  {
    var s' := ClientStep(s, id, a).value;
    if a.CountIn? {
      InsideGrows(s.clients, id);
    } else {
      InsideShrinks(s.clients, id);
    }
    ClientFrame(s, s.hub, s'.job, s'.clients);
    assert s.(hub := s.hub, job := s'.job, clients := s'.clients) == s';
  }

  lemma ReadStep(s: Sys, id: nat)
    requires Inv(s)
    ensures Inv(s.(hub := Drain(s.hub, id)))
  {
    DrainKeeps(s.hub, id);
    QuietHub(s.hub, "", id);
    ClientFrame(s, Drain(s.hub, id), s.job, s.clients);
  }

  lemma UnhookStep(s: Sys, id: nat)
    requires Inv(s) && ClientStep(s, id, Detach).Some?
    ensures Inv(ClientStep(s, id, Detach).value)
  {
    var hub := Unsubscribe(s.hub, id);
    var clients := s.clients[id := Unhooked];
    UnsubscribeKeeps(s.hub, id);
    QuietHub(s.hub, "", id);
    assert Inside(clients) == Inside(s.clients);
    ClientFrame(s, hub, s.job, clients);
    assert s.(hub := hub, job := s.job, clients := clients) == ClientStep(s, id, Detach).value;
  }

  lemma ClientKeeps(s: Sys, id: nat, a: ClientAct)
    requires Inv(s) && ClientStep(s, id, a).Some?
    ensures Inv(ClientStep(s, id, a).value)
  {
    match a
    case Attach => SubscribeStep(s, id);
    case CountIn => CountStep(s, id, a);
    case ReadOne => ReadStep(s, id);
    case Detach => UnhookStep(s, id);
    case CountOut => CountStep(s, id, a);
  }

  lemma StderrKeeps(s: Sys, line: string)
    requires Inv(s)
    ensures Inv(s.(hub := Publish(s.hub, StderrEvent(line))))
  {
    var s' := s.(hub := Publish(s.hub, StderrEvent(line)));
    PublishKeeps(s.hub, StderrEvent(line));
    QuietHub(s.hub, line, 0);
    ClientFrame(s, s'.hub, s.job, s.clients);
  }

  lemma TickKeeps(s: Sys, d: nat)
    requires Inv(s)
    ensures Inv(s.(clock := s.clock + d))
  {
    var s' := s.(clock := s.clock + d);
    SameAccountKeeps(s, s');
    SameFilesKeeps(s, s');
    SameLifeKeeps(s, s');
    GateKeeps(s, s');
    WakeKeeps(s, s');
  }

  lemma ReapKeeps(s: Sys, a: Action)
    requires Inv(s) && ReapStep(s, a).Some?
    ensures Inv(ReapStep(s, a).value)
  {
    var s' := ReapStep(s, a).value;
    assert s' == s.(registered := s'.registered, reaped := s'.reaped, disk := s'.disk);
    assert s'.disk == s.disk || s'.disk == Disk(false, map[]);
    ReapLife(s, a);
    SameAccountKeeps(s, s');
    GateKeeps(s, s');
    WakeKeeps(s, s');
  }

  /** Every action keeps every invariant. */
  lemma StepKeeps(s: Sys, a: Action)
    requires Inv(s) && Next(s, a).Some?
    ensures Inv(Next(s, a).value)
  {
    if a.RunA? {
      RunKeeps(s, a.r);
    } else if a.WatchA? || a.UploadA? || a.CreateFile? || a.CompleteFile? || a.ServerA? {
      ChunkKeeps(s, a);
    } else if a.MonTick? || a.MonCancel? || a.MonStop? || a.Forget? || a.RemoveForgotten? {
      CareKeeps(s, a);
    } else if a.ClientA? || a.PostAnnounce? || a.GateA? {
      PeerKeeps(s, a);
    } else if a.Stderr? {
      StderrStep(s, a.line);
    } else if a.Tick? || a.DeleteJob? {
      OutsideKeeps(s, a);
    } else {
      SessionStep(s, a);
    }
  }

  /** The parties that a chunk passes through. */
  lemma ChunkKeeps(s: Sys, a: Action)
    requires Inv(s) && Next(s, a).Some?
    requires a.WatchA? || a.UploadA? || a.CreateFile? || a.CompleteFile? || a.ServerA?
    ensures Inv(Next(s, a).value)
  {
    match a
    case CreateFile(n) => CreateKeeps(s, n);
    case CompleteFile(n, data) => CompleteKeeps(s, n, data);
    case WatchA(w) => WatchKeeps(s, w);
    case UploadA(w, u) => UploadKeeps(s, w, u);
    case ServerA(n, h) => ServerKeeps(s, n, h);
  }

  /** The lifeline monitor and the reaper. */
  lemma CareKeeps(s: Sys, a: Action)
    requires Inv(s) && Next(s, a).Some?
    requires a.MonTick? || a.MonCancel? || a.MonStop? || a.Forget? || a.RemoveForgotten?
    ensures Inv(Next(s, a).value)
  {
    if a.Forget? || a.RemoveForgotten? {
      ReapKeeps(s, a);
    } else {
      MonKeeps(s, a);
    }
  }

  /** Those who talk to the worker. */
  lemma PeerKeeps(s: Sys, a: Action)
    requires Inv(s) && Next(s, a).Some? && (a.ClientA? || a.PostAnnounce? || a.GateA?)
    ensures Inv(Next(s, a).value)
  {
    match a
    case ClientA(id, c) => ClientKeeps(s, id, c);
    case PostAnnounce(id, names) => PostKeeps(s, id, names);
    case GateA(id, g) => GateActKeeps(s, id, g);
  }

  lemma OutsideKeeps(s: Sys, a: Action)
    requires Inv(s) && Next(s, a).Some? && (a.Tick? || a.DeleteJob?)
    ensures Inv(Next(s, a).value)
  {
    match a
    case Tick(d) => TickKeeps(s, d);
    case DeleteJob => DeleteKeeps(s);
  }

  lemma StderrStep(s: Sys, line: string)
    requires Inv(s) && Next(s, Stderr(line)).Some?
    ensures Inv(Next(s, Stderr(line)).value)
  {
    StderrNext(s, line);
    StderrKeeps(s, line);
  }

  lemma StderrNext(s: Sys, line: string)
    requires Next(s, Stderr(line)).Some?
    ensures MayWrite(s) && Next(s, Stderr(line)).value == s.(hub := Publish(s.hub, StderrEvent(line)))
  {
  }

  lemma DeleteKeeps(s: Sys)
    requires Inv(s)
    ensures Inv(s.(job := RequestCancel(s.job, Cancelled)))
  {
    CancelKeeps(s, Cancelled, s.mon);
    assert s.(job := RequestCancel(s.job, Cancelled)) == s.(job := RequestCancel(s.job, Cancelled), mon := s.mon);
  }

  lemma SessionStep(s: Sys, a: Action)
    requires Inv(s) && (a.SessionGone? || a.RemoveSessionDir? || a.MakeSessionDir?)
    ensures Next(s, a).Some? && Inv(Next(s, a).value)
  {
    var v := Next(s, a).value.server;
    SessionFiles(s.server, v, s.done);
    SessionKeeps(s, v);
  }

  lemma {:induction false} ExecKeeps(s: Sys, acts: seq<Action>)
    requires Inv(s) && Exec(s, acts).Some?
    ensures Inv(Exec(s, acts).value)
    decreases |acts|
  {
    if acts != [] {
      ExecKeeps(s, acts[..|acts| - 1]);
      StepKeeps(Exec(s, acts[..|acts| - 1]).value, acts[|acts| - 1]);
    }
  }

  lemma RunInv(cfg: Config, acts: seq<Action>)
    requires Exec(Init(cfg), acts).Some?
    ensures Inv(Exec(Init(cfg), acts).value)
  {
    InitInv(cfg);
    ExecKeeps(Init(cfg), acts);
  }

  /** Single invariants after a run, for proofs that need no more. */
  lemma RunStage(cfg: Config, acts: seq<Action>)
    requires Exec(Init(cfg), acts).Some?
    ensures StageInv(Exec(Init(cfg), acts).value)
  {
    RunInv(cfg, acts);
    LifeParts(Exec(Init(cfg), acts).value);
  }

  lemma RunFinal(cfg: Config, acts: seq<Action>)
    requires Exec(Init(cfg), acts).Some?
    ensures var s := Exec(Init(cfg), acts).value; FinalInv(s.run, s.job, s.mon)
  {
    RunInv(cfg, acts);
    LifeParts(Exec(Init(cfg), acts).value);
  }

  lemma InvParts(s: Sys)
    requires Inv(s)
    ensures HubInv(s.hub) && AccountInv(s) && FileInv(s) && LifeInv(s) && GateInv(s) && WakeInv(s) && CountInv(s)
  {
  }

  lemma LifeParts(s: Sys)
    requires Inv(s)
    ensures StageInv(s) && QueueInv(s.run, s.queue, s.job, s.watch.pc) && StartInv(s)
    ensures FinalInv(s.run, s.job, s.mon) && SettledInv(s.run, s.job) && DirInv(s)
  {
  }

  /** Every reachable state satisfies every invariant. */
  lemma ReachableInv(s: Sys)
    requires Reachable(s)
    ensures Inv(s)
  {
    var acts :| Exec(Init(s.cfg), acts) == Some(s);
    RunInv(s.cfg, acts);
  }

  lemma ReachableLife(s: Sys)
    requires Reachable(s)
    ensures LifeInv(s)
  {
    ReachableInv(s);
  }

  lemma ReachableAccount(s: Sys)
    requires Reachable(s)
    ensures AccountInv(s)
  {
    ReachableInv(s);
  }

  lemma ReachableFiles(s: Sys)
    requires Reachable(s)
    ensures FileInv(s)
  {
    ReachableInv(s);
  }

  lemma ReachableHub(s: Sys)
    requires Reachable(s)
    ensures HubInv(s.hub)
  {
    ReachableInv(s);
  }
}
