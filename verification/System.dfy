/**
 * One worker job with everything that runs beside it, as a step system: the run goroutine, the
 * transcoder, the directory watcher, the upload workers, masterd's PUT handlers, the gated
 * announces, cancel requests, the lifeline monitor, events clients, the reaper and the clock.
 *
 * One action is one critical section, one file operation, one channel operation, one hub call or
 * one masterd reply. `Next(s, a)` is the state after action `a`, or None when `a` cannot happen
 * in `s`. Everything nondeterministic (which goroutine runs, file contents, network errors, exit
 * codes, time) is in the choice of actions.
 *
 * Four fields are history that no program code reads: `done` (what the transcoder completed),
 * `accepted` and `failed` (names let into the queue, and names whose push failed), and
 * `server.landed` (what masterd's rename put in place). `Gate.must` is history too.
 */
module System {
  import opened Prelude
  import opened Protocol
  import opened EventHubSpec
  import opened JobSections

  type Bytes = seq<bv8>

  // ---- the worker's out dir ----

  datatype LocalFile = LocalFile(complete: bool, data: Bytes)

  datatype Disk = Disk(present: bool, files: map<Name, LocalFile>)

  // ---- masterd ----

  /** Replies of handlePutFile: 200, 410, and everything the worker retries. */
  datatype Reply = Stored | Gone | Retryable

  datatype HandlerPc =
    | Lookup
    | OpenTmp
    | Copying(written: nat)
    | Renaming
    | Touching
    | Replied(reply: Reply)

  /** One PUT being served; `client` is the upload worker still waiting for the reply. */
  datatype Handler = Handler(client: Option<nat>, body: Bytes, pc: HandlerPc)

  datatype Server = Server(
    live: bool,
    dirPresent: bool,
    tmp: map<Name, Bytes>,
    files: map<Name, Bytes>,
    handlers: map<Name, Handler>,
    landed: map<Name, Bytes>)

  // ---- the worker's goroutines ----

  datatype FinStage = Locking | PubState | PubExit | ClosingHub | ClosingWatcher | ClosingQueue | RemovingDir

  datatype RunPc =
    | SetPreparing
    | PubPreparing
    | InPrepare
    | AbortCheck
    | StartPushers
    | StartProcess
    | EarlyFail
    | SetRunning
    | PubRunning
    | WaitProcess
    | MarkExited(code: int)
    | CloseWatcher(code: int)
    | SetDraining(code: int)
    | PubDraining(code: int)
    | DrainStart(code: int)
    | DrainAsleep(code: int, deadline: nat, timerFired: bool, since: nat)
    | Deciding(code: int, drainErr: bool)
    | Finalizing(stage: FinStage, final: JobState, code: int, early: bool, closing: bool)
    | RunDone(final: JobState, code: int, early: bool)

  datatype WatchPc =
    | NotWatching
    | Listening
    | Enqueuing(name: Name)
    | Overflowed          // queue full: abortFail still to be called
    | WatchBroken         // fatal watcher error: abortFail still to be called
    | WatchEnded

  datatype Watch = Watch(pc: WatchPc, open: bool, events: seq<Name>)

  datatype Upload =
    | Idle
    | Opening(name: Name, attempt: nat)
    | Sending(name: Name, attempt: nat)
    | BackingOff(name: Name, attempt: nat)
    | Pushed(name: Name, ok: bool)
    | Removing(name: Name)     // ACK recorded, local copy still to be deleted
    | Aborting(name: Name)     // failure recorded, abortFail still to be called
    | Exited

  datatype GatePc =
    | Checking
    | Asleep(since: nat)
    | Passed
    | Forwarded
    | Refused

  /** `must`: the referenced names that were complete in the out dir when the announce was posted. */
  datatype Gate = Gate(names: seq<Name>, must: set<Name>, i: nat, pc: GatePc, ctxDone: bool, wakeDue: bool)

  datatype MonPc = MonOff | MonWatching | MonLost | MonEnded

  datatype ClientPc = Subscribed | Counted | Unhooked | Left

  datatype Config = Config(cap: nat, parallel: nat)

  datatype Sys = Sys(
    cfg: Config,
    clock: nat,
    job: Job,
    queue: Queue,
    hub: Hub,
    run: RunPc,
    watch: Watch,
    uploads: map<nat, Upload>,
    mon: MonPc,
    clients: map<nat, ClientPc>,
    gates: map<nat, Gate>,
    disk: Disk,
    server: Server,
    registered: bool,
    reaped: bool,
    done: map<Name, Bytes>,
    accepted: set<Name>,
    failed: set<Name>)

  const PUSH_RETRIES: nat := 3

  /** A new job: PENDING is already published and the job dirs exist. */
  function Init(cfg: Config): Sys {
    Sys(cfg, 0, NEW_JOB, NO_QUEUE, Publish(NEW_HUB, StateEvent(Pending)), SetPreparing,
        Watch(NotWatching, false, []), map[], MonOff, map[], map[],
        Disk(true, map[]), Server(true, true, map[], map[], map[], map[]),
        true, false, map[], {}, {})
  }

  // ---- actions ----

  datatype RunAct =
    | StepSetPreparing | StepPublish
    | PrepareOk | PrepareFails
    | StepAbortCheck
    | PushersOk | PushersFail
    | ProcessOk | ProcessFails
    | StepEarlyFail
    | StepSetRunning
    | ProcessExits(code: int)
    | StepMarkExited | StepCloseWatcher | StepSetDraining
    | StepDrainStart | StepDrainWake | DrainTimer
    | StepDecide
    | StepLock | StepFinPublish | StepFinExit | StepCloseHub | StepFinWatcher | StepCloseQueue | StepRemoveDir

  datatype WatchAct = Take | EnqueueIt | AbortIt | FatalError | EndOfEvents

  datatype UploadAct =
    | TakeName | OpenFile | OpenFails | GetReply | NetError | RetryNow | QuitRetry
    | RecordIt | FinishIt | SeeClosed

  datatype ServerAct =
    | DoLookup | DoOpen | OpenError | Copy(n: nat) | CopyError | CopyDone
    | DoRename | RenameError | DoTouch | DropOrphan

  datatype GateAct = CheckName | WakeUp | Cancel | CtxBroadcast | PassThrough | Forward

  datatype ClientAct = Attach | CountIn | ReadOne | Detach | CountOut

  datatype Action =
    | RunA(r: RunAct)
    | CreateFile(name: Name)
    | CompleteFile(name: Name, data: Bytes)
    | WatchA(w: WatchAct)
    | UploadA(worker: nat, u: UploadAct)
    | ServerA(name: Name, h: ServerAct)
    | SessionGone | RemoveSessionDir | MakeSessionDir
    | PostAnnounce(gate: nat, names: seq<Name>)
    | GateA(gate: nat, g: GateAct)
    | DeleteJob
    | MonTick | MonCancel | MonStop
    | ClientA(client: nat, c: ClientAct)
    | Stderr(line: string)
    | Tick(elapsed: nat)
    | Forget | RemoveForgotten

  // ---- run goroutine ----

  function WithState(h: Hub, st: JobState): Hub {
    Publish(h, StateEvent(st))
  }

  function Fin(final: JobState, code: int, early: bool): RunPc {
    Finalizing(Locking, final, code, early, false)
  }

  /** drainUploads after its locked loop test: sleep, or return its verdict. */
  function DrainOutcome(j: Job, code: int, now: nat, deadline: nat, fired: bool): RunPc {
    if DrainHolds(j, now, deadline) then DrainAsleep(code, deadline, fired, j.signals)
    else Deciding(code, DrainFails(j))
  }

  function IdleWorkers(n: nat): (m: map<nat, Upload>)
    ensures forall w :: w in m <==> 0 <= w < n
    ensures forall w :: w in m ==> m[w] == Idle
  {
    if n == 0 then map[] else IdleWorkers(n - 1)[n - 1 := Idle]
  }

  function StartRun(s: Sys, a: RunAct): Option<Sys> {
    match a
    case StepSetPreparing =>
      if !s.run.SetPreparing? then None
      else Some(s.(job := SetState(s.job, Preparing, s.clock),
                   run := if IsTerminal(s.job.state) then InPrepare else PubPreparing))
    case PrepareOk => if s.run.InPrepare? then Some(s.(run := AbortCheck)) else None
    case PrepareFails => if s.run.InPrepare? then Some(s.(run := EarlyFail)) else None
    case StepAbortCheck =>
      if !s.run.AbortCheck? then None
      else
        var st := AbortState(s.job);
        Some(s.(run := if st.Some? then Fin(st.value, 1, true) else StartPushers))
    case PushersOk =>
      if !s.run.StartPushers? then None
      else Some(s.(run := StartProcess,
                   queue := Queue(true, [], false, s.queue.fault),
                   watch := Watch(Listening, true, []),
                   uploads := IdleWorkers(s.cfg.parallel)))
    case PushersFail => if s.run.StartPushers? then Some(s.(run := EarlyFail)) else None
    case ProcessOk => if s.run.StartProcess? then Some(s.(run := SetRunning)) else None
    case ProcessFails => if s.run.StartProcess? then Some(s.(run := EarlyFail)) else None
    case StepEarlyFail =>
      if s.run.EarlyFail? then Some(s.(run := Fin(TerminalFor(s.job, true), 1, true))) else None
    case StepSetRunning =>
      if !s.run.SetRunning? then None
      else if IsTerminal(s.job.state) then Some(s.(run := WaitProcess, mon := MonWatching))
      else Some(s.(job := SetState(s.job, Running, s.clock), run := PubRunning))
    case _ => None
  }

  /** The publishing half of setState. */
  function PublishRun(s: Sys): Option<Sys> {
    match s.run
    case PubPreparing => Some(s.(hub := WithState(s.hub, Preparing), run := InPrepare))
    case PubRunning => Some(s.(hub := WithState(s.hub, Running), run := WaitProcess, mon := MonWatching))
    case PubDraining(code) => Some(s.(hub := WithState(s.hub, Draining), run := DrainStart(code)))
    case _ => None
  }

  function StopRun(s: Sys, a: RunAct): Option<Sys> {
    match a
    case ProcessExits(code) => if s.run.WaitProcess? then Some(s.(run := MarkExited(code))) else None
    case StepMarkExited =>
      if s.run.MarkExited? then Some(s.(job := s.job.(exited := true), run := CloseWatcher(s.run.code))) else None
    case StepCloseWatcher =>
      if s.run.CloseWatcher? then Some(s.(watch := s.watch.(open := false), run := SetDraining(s.run.code))) else None
    case StepSetDraining =>
      if !s.run.SetDraining? then None
      else if IsTerminal(s.job.state) then Some(s.(run := DrainStart(s.run.code)))
      else Some(s.(job := SetState(s.job, Draining, s.clock), run := PubDraining(s.run.code)))
    case StepDrainStart =>
      if !s.run.DrainStart? then None
      else
        var j := CloseIntake(s.job);
        Some(s.(job := j, run := DrainOutcome(j, s.run.code, s.clock, s.clock + DRAIN_TIMEOUT, false)))
    case StepDrainWake =>
      if s.run.DrainAsleep? && s.job.signals > s.run.since
      then Some(s.(run := DrainOutcome(s.job, s.run.code, s.clock, s.run.deadline, s.run.timerFired)))
      else None
    case DrainTimer =>
      if s.run.DrainAsleep? && s.clock >= s.run.deadline && !s.run.timerFired
      then Some(s.(job := Broadcast(s.job), run := s.run.(timerFired := true)))
      else None
    case StepDecide =>
      if s.run.Deciding? then Some(s.(run := Fin(Verdict(s.job, s.run.drainErr, s.run.code), s.run.code, false))) else None
    case _ => None
  }

  function FinalizeRun(s: Sys, a: RunAct): Option<Sys>
    requires s.run.Finalizing?
  {
    var p := s.run;
    match a
    case StepLock =>
      if !p.stage.Locking? then None
      else if IsTerminal(s.job.state) then Some(s.(run := RunDone(p.final, p.code, p.early)))
      else
        var (j, closing) := Finalize(s.job, s.queue.made, p.final, s.clock);
        Some(s.(job := j, run := p.(stage := PubState, closing := closing)))
    case StepFinPublish =>
      if p.stage.PubState? then Some(s.(hub := WithState(s.hub, p.final), run := p.(stage := PubExit))) else None
    case StepFinExit =>
      if p.stage.PubExit?
      then Some(s.(hub := Publish(s.hub, ExitEvent(p.code)), run := p.(stage := ClosingHub))) else None
    case StepCloseHub =>
      if p.stage.ClosingHub? then Some(s.(hub := CloseHub(s.hub), run := p.(stage := ClosingWatcher))) else None
    case StepFinWatcher =>
      if p.stage.ClosingWatcher?
      then Some(s.(watch := s.watch.(open := false), run := p.(stage := ClosingQueue))) else None
    case StepCloseQueue =>
      if p.stage.ClosingQueue?
      then Some(s.(queue := if p.closing then CloseQueue(s.queue) else s.queue, run := p.(stage := RemovingDir))) else None
    case StepRemoveDir =>
      if p.stage.RemovingDir?
      then Some(s.(disk := if p.final.Cancelled? || p.final.Lost? then Disk(false, map[]) else s.disk,
                   run := RunDone(p.final, p.code, p.early)))
      else None
    case _ => None
  }

  predicate StartAct(a: RunAct) {
    a.StepSetPreparing? || a.PrepareOk? || a.PrepareFails? || a.StepAbortCheck? || a.PushersOk? || a.PushersFail?
    || a.ProcessOk? || a.ProcessFails? || a.StepEarlyFail? || a.StepSetRunning?
  }

  predicate StopAct(a: RunAct) {
    a.ProcessExits? || a.StepMarkExited? || a.StepCloseWatcher? || a.StepSetDraining?
    || a.StepDrainStart? || a.StepDrainWake? || a.DrainTimer? || a.StepDecide?
  }

  function RunStep(s: Sys, a: RunAct): Option<Sys> {
    if StartAct(a) then StartRun(s, a)
    else if StopAct(a) then StopRun(s, a)
    else if a.StepPublish? then PublishRun(s)
    else if s.run.Finalizing? then FinalizeRun(s, a)
    else None
  }

  /** All that the run goroutine ever changes, once the pushers run. */
  ghost predicate RunFrame(s: Sys, s': Sys) {
    && s' == s.(job := s'.job, hub := s'.hub, run := s'.run, mon := s'.mon,
                disk := s'.disk, queue := s'.queue, watch := s'.watch)
    && (s'.queue == s.queue || s'.queue == CloseQueue(s.queue))
    && (s'.watch == s.watch || s'.watch == s.watch.(open := false))
    && (s'.disk == s.disk || s'.disk == Disk(false, map[]))
  }

  lemma StartTouches(s: Sys, a: RunAct)
    requires StartRun(s, a).Some? && !a.PushersOk?
    ensures RunFrame(s, StartRun(s, a).value) && !StartRun(s, a).value.run.DrainAsleep?
  {
    if a.StepSetPreparing? || a.StepSetRunning? {
      assert RunFrame(s, StartRun(s, a).value);
    } else {
      assert StartRun(s, a).value == s.(run := StartRun(s, a).value.run);
    }
  }

  /** Publishing a state changes the hub, the point of the goroutine, and starts the monitor. */
  lemma PublishMoves(s: Sys)
    requires PublishRun(s).Some?
    ensures
      var s' := PublishRun(s).value;
      && s' == s.(hub := s'.hub, run := s'.run, mon := s'.mon)
      && (s.run.PubPreparing? ==> s'.run == InPrepare && s'.mon == s.mon && s'.hub == WithState(s.hub, Preparing))
      && (s.run.PubRunning? ==> s'.run == WaitProcess && s'.mon == MonWatching && s'.hub == WithState(s.hub, Running))
      && (s.run.PubDraining? ==>
            s'.run == DrainStart(s.run.code) && s'.mon == s.mon && s'.hub == WithState(s.hub, Draining))
      && (s.run.PubPreparing? || s.run.PubRunning? || s.run.PubDraining?)
  {
  }

  lemma PublishTouches(s: Sys)
    requires PublishRun(s).Some?
    ensures RunFrame(s, PublishRun(s).value) && !PublishRun(s).value.run.DrainAsleep?
    ensures PublishRun(s).value.job == s.job
  {
    PublishMoves(s);
  }

  lemma StopMoves(s: Sys, a: RunAct)
    requires StopRun(s, a).Some?
    ensures
      var s' := StopRun(s, a).value;
      && s' == s.(job := s'.job, run := s'.run, watch := s'.watch)
      && (s'.watch == s.watch || s'.watch == s.watch.(open := false))
      && (!a.StepDrainStart? && !a.StepDrainWake? && !a.DrainTimer? ==> !s'.run.DrainAsleep?)
  {
    if a.StepDrainStart? || a.StepDrainWake? || a.DrainTimer? || a.StepDecide? {
      DrainMoves(s, a);
    } else if a.StepCloseWatcher? {
      CloseMoves(s);
    } else if a.StepSetDraining? {
      DrainingMoves(s);
    } else {
      ExitMoves(s, a);
    }
  }

  lemma DrainMoves(s: Sys, a: RunAct)
    requires StopRun(s, a).Some? && (a.StepDrainStart? || a.StepDrainWake? || a.DrainTimer? || a.StepDecide?)
    ensures var s' := StopRun(s, a).value; s' == s.(job := s'.job, run := s'.run)
    ensures a.StepDecide? ==> !StopRun(s, a).value.run.DrainAsleep?
  {
  }

  lemma ExitMoves(s: Sys, a: RunAct)
    requires StopRun(s, a).Some? && (a.ProcessExits? || a.StepMarkExited?)
    ensures var s' := StopRun(s, a).value; s' == s.(job := s'.job, run := s'.run) && !s'.run.DrainAsleep?
  {
  }

  lemma DrainingMoves(s: Sys)
    requires StopRun(s, StepSetDraining).Some?
    ensures var s' := StopRun(s, StepSetDraining).value; s' == s.(job := s'.job, run := s'.run) && !s'.run.DrainAsleep?
  {
    if IsTerminal(s.job.state) {
      assert StopRun(s, StepSetDraining).value == s.(run := DrainStart(s.run.code));
    } else {
      assert StopRun(s, StepSetDraining).value == s.(job := SetState(s.job, Draining, s.clock), run := PubDraining(s.run.code));
    }
  }

  lemma CloseMoves(s: Sys)
    requires StopRun(s, StepCloseWatcher).Some?
    ensures
      var s' := StopRun(s, StepCloseWatcher).value;
      s' == s.(run := s'.run, watch := s.watch.(open := false)) && s'.run.SetDraining?
  {
  }

  lemma StopTouches(s: Sys, a: RunAct)
    requires StopRun(s, a).Some?
    ensures RunFrame(s, StopRun(s, a).value)
    ensures !a.StepDrainStart? && !a.StepDrainWake? && !a.DrainTimer? ==> !StopRun(s, a).value.run.DrainAsleep?
  {
    StopMoves(s, a);
  }

  lemma FinalizeTouches(s: Sys, a: RunAct)
    requires s.run.Finalizing? && FinalizeRun(s, a).Some?
    ensures RunFrame(s, FinalizeRun(s, a).value) && !FinalizeRun(s, a).value.run.DrainAsleep?
    ensures !a.StepLock? ==> FinalizeRun(s, a).value.job == s.job
  {
    var s' := FinalizeRun(s, a).value;
    match a
    case StepLock => assert s' == s.(job := s'.job, run := s'.run);
    case StepFinWatcher => assert s' == s.(watch := s'.watch, run := s'.run);
    case StepCloseQueue => assert s' == s.(queue := s'.queue, run := s'.run);
    case StepRemoveDir => assert s' == s.(disk := s'.disk, run := s'.run);
    case StepFinPublish => assert s' == s.(hub := s'.hub, run := s'.run);
    case StepFinExit => assert s' == s.(hub := s'.hub, run := s'.run);
    case StepCloseHub => assert s' == s.(hub := s'.hub, run := s'.run);
    case _ =>
  }

  lemma RunTouches(s: Sys, a: RunAct)
    requires RunStep(s, a).Some? && !a.PushersOk?
    ensures RunFrame(s, RunStep(s, a).value)
  {
    if StartAct(a) {
      StartTouches(s, a);
    } else if StopAct(a) {
      StopTouches(s, a);
    } else if a.StepPublish? {
      PublishTouches(s);
    } else {
      FinalizeTouches(s, a);
    }
  }

  // ---- transcoder and watcher ----

  function Create(s: Sys, n: Name): Option<Sys> {
    if s.watch.pc.NotWatching? || !s.disk.present || n in s.disk.files || n in s.done then None
    else Some(s.(disk := s.disk.(files := s.disk.files[n := LocalFile(false, [])])))
  }

  /** The writer closes a file: it is whole from now on, and reported if the watcher is open. */
  function Complete(s: Sys, n: Name, data: Bytes): Option<Sys> {
    if !s.disk.present || n !in s.disk.files || s.disk.files[n].complete || n in s.done then None
    else Some(s.(
      disk := s.disk.(files := s.disk.files[n := LocalFile(true, data)]),
      done := s.done[n := data],
      watch := if s.watch.open then s.watch.(events := s.watch.events + [n]) else s.watch))
  }

  function WatchStep(s: Sys, a: WatchAct): Option<Sys> {
    var pc := s.watch.pc;
    match a
    case Take =>
      if !pc.Listening? || s.watch.events == [] then None
      else Some(s.(watch := s.watch.(pc := Enqueuing(s.watch.events[0]), events := s.watch.events[1..])))
    case EnqueueIt =>
      if !pc.Enqueuing? then None
      else
        var (j, q, overflow) := Enqueue(s.job, s.queue, pc.name, s.cfg.cap);
        Some(s.(job := j, queue := q,
                accepted := if |q.buf| > |s.queue.buf| then s.accepted + {pc.name} else s.accepted,
                watch := s.watch.(pc := if overflow then Overflowed else Listening)))
    case AbortIt =>
      if pc.Overflowed? || pc.WatchBroken?
      then Some(s.(job := AbortFail(s.job), watch := s.watch.(pc := if pc.Overflowed? then Listening else WatchEnded)))
      else None
    case FatalError => if pc.Listening? then Some(s.(watch := s.watch.(pc := WatchBroken))) else None
    case EndOfEvents =>
      if pc.Listening? && !s.watch.open then Some(s.(watch := s.watch.(pc := WatchEnded))) else None
  }

  // ---- upload workers ----

  function Retry(name: Name, attempt: nat): Upload {
    if attempt < PUSH_RETRIES then BackingOff(name, attempt + 1) else Pushed(name, false)
  }

  function AfterReply(name: Name, attempt: nat, r: Reply): Upload {
    match r
    case Stored => Pushed(name, true)
    case Gone => Pushed(name, false)
    case Retryable => Retry(name, attempt)
  }

  function UploadStep(s: Sys, w: nat, a: UploadAct): Option<Sys> {
    if w !in s.uploads then None else
    var u := s.uploads[w];
    match a
    case TakeName =>
      if !u.Idle? || s.queue.buf == [] then None
      else Some(s.(uploads := s.uploads[w := Opening(s.queue.buf[0], 0)],
                   queue := s.queue.(buf := s.queue.buf[1..])))
    case SeeClosed =>
      if u.Idle? && s.queue.closed && s.queue.buf == [] then Some(s.(uploads := s.uploads[w := Exited])) else None
    case OpenFile =>
      // PUT attempts for one name do not overlap on the server.
      if u.Opening? && u.name in s.disk.files && u.name !in s.server.handlers
      then Some(s.(uploads := s.uploads[w := Sending(u.name, u.attempt)],
                   server := s.server.(handlers := s.server.handlers[
                     u.name := Handler(Some(w), s.disk.files[u.name].data, Lookup)])))
      else None
    case OpenFails => if u.Opening? then Some(s.(uploads := s.uploads[w := Pushed(u.name, false)])) else None
    case GetReply =>
      if u.Sending? && u.name in s.server.handlers
         && s.server.handlers[u.name].client == Some(w) && s.server.handlers[u.name].pc.Replied?
      then Some(s.(uploads := s.uploads[w := AfterReply(u.name, u.attempt, s.server.handlers[u.name].pc.reply)],
                   server := s.server.(handlers := s.server.handlers - {u.name})))
      else None
    case NetError =>
      if !u.Sending? then None
      else Some(s.(uploads := s.uploads[w := Retry(u.name, u.attempt)], server := Orphan(s.server, u.name)))
    case RetryNow => if u.BackingOff? then Some(s.(uploads := s.uploads[w := Opening(u.name, u.attempt)])) else None
    case QuitRetry => if u.BackingOff? then Some(s.(uploads := s.uploads[w := Pushed(u.name, false)])) else None
    case RecordIt =>
      if !u.Pushed? then None
      else Some(s.(job := Resolve(s.job, u.name, u.ok),
                   uploads := s.uploads[w := if u.ok then Removing(u.name) else Aborting(u.name)],
                   failed := if u.ok then s.failed else s.failed + {u.name}))
    case FinishIt =>
      if u.Removing? then Some(s.(disk := s.disk.(files := s.disk.files - {u.name}), uploads := s.uploads[w := Idle]))
      else if u.Aborting? then Some(s.(job := AbortFail(s.job), uploads := s.uploads[w := Idle]))
      else None
  }

  /** All that an upload worker ever changes. */
  ghost predicate UploadFrame(s: Sys, s': Sys) {
    s' == s.(job := s'.job, queue := s'.queue, uploads := s'.uploads, disk := s'.disk,
             server := s'.server, failed := s'.failed)
  }

  lemma UploadTouches(s: Sys, w: nat, a: UploadAct)
    requires UploadStep(s, w, a).Some?
    ensures UploadFrame(s, UploadStep(s, w, a).value)
  {
  }

  lemma UploadHandlers(s: Sys, w: nat, a: UploadAct)
    requires UploadStep(s, w, a).Some?
    ensures var v := UploadStep(s, w, a).value.server; v == s.server.(handlers := v.handlers)
  {
  }

  // ---- masterd's handlePutFile ----

  /** The client of a PUT gave up on it; the handler runs on. */
  function Orphan(v: Server, n: Name): Server {
    if n in v.handlers then v.(handlers := v.handlers[n := v.handlers[n].(client := None)]) else v
  }

  function SetHandler(v: Server, n: Name, pc: HandlerPc): Server
    requires n in v.handlers
  {
    v.(handlers := v.handlers[n := v.handlers[n].(pc := pc)])
  }

  function ServerStep(v: Server, n: Name, a: ServerAct): Option<Server> {
    if n !in v.handlers then None else
    var h := v.handlers[n];
    match a
    case DoLookup =>
      if h.pc.Lookup? then Some(SetHandler(v, n, if v.live then OpenTmp else Replied(Gone))) else None
    case DoOpen =>
      if !h.pc.OpenTmp? then None
      else if v.dirPresent then Some(SetHandler(v, n, Copying(0)).(tmp := v.tmp[n := []]))
      else Some(SetHandler(v, n, Replied(Gone)).(live := false))
    case OpenError => if h.pc.OpenTmp? then Some(SetHandler(v, n, Replied(Retryable))) else None
    case Copy(more) =>
      if h.pc.Copying? && h.pc.written + more <= |h.body|
      then
        var k := h.pc.written + more;
        Some(SetHandler(v, n, Copying(k)).(tmp := if n in v.tmp then v.tmp[n := h.body[..k]] else v.tmp))
      else None
    case CopyError =>
      if h.pc.Copying? then Some(SetHandler(v, n, Replied(Retryable)).(tmp := v.tmp - {n})) else None
    case CopyDone =>
      if h.pc.Copying? && h.pc.written == |h.body| then Some(SetHandler(v, n, Renaming)) else None
    case DoRename =>
      if !h.pc.Renaming? then None
      else if n in v.tmp
      then Some(SetHandler(v, n, Touching).(
        files := v.files[n := v.tmp[n]], landed := v.landed[n := v.tmp[n]], tmp := v.tmp - {n}))
      else Some(SetHandler(v, n, Replied(Gone)).(live := false))
    case RenameError =>
      if h.pc.Renaming? then Some(SetHandler(v, n, Replied(Retryable)).(tmp := v.tmp - {n})) else None
    case DoTouch => if h.pc.Touching? then Some(SetHandler(v, n, Replied(Stored))) else None
    case DropOrphan =>
      if h.pc.Replied? && h.client.None? then Some(v.(handlers := v.handlers - {n})) else None
  }

  // ---- announces ----

  function Post(s: Sys, id: nat, names: seq<Name>): Option<Sys> {
    if id in s.gates then None
    else
      var must := set n | n in names && n in s.done;
      Some(s.(gates := s.gates[id := Gate(names, must, 0, Checking, false, false)]))
  }

  function CheckOne(g: Gate, j: Job, present: bool): Gate
    requires g.i < |g.names|
  {
    match GateCheck(j, g.names[g.i], g.ctxDone, present)
    case Skip => g.(i := g.i + 1)
    case Refuse => g.(pc := Refused)
    case Hold => g.(pc := Asleep(j.signals))
  }

  function GateStep(s: Sys, id: nat, a: GateAct): Option<Sys> {
    if id !in s.gates then None else
    var g := s.gates[id];
    match a
    case CheckName =>
      if g.pc.Checking? && g.i < |g.names|
      then Some(s.(gates := s.gates[id := CheckOne(g, s.job, g.names[g.i] in s.disk.files)])) else None
    case PassThrough =>
      if g.pc.Checking? && g.i >= |g.names| then Some(s.(gates := s.gates[id := g.(pc := Passed)])) else None
    case WakeUp =>
      if g.pc.Asleep? && s.job.signals > g.pc.since then Some(s.(gates := s.gates[id := g.(pc := Checking)])) else None
    case Forward => if g.pc.Passed? then Some(s.(gates := s.gates[id := g.(pc := Forwarded)])) else None
    case Cancel => Some(s.(gates := s.gates[id := g.(ctxDone := true, wakeDue := true)]))
    case CtxBroadcast =>
      if g.wakeDue then Some(s.(job := Broadcast(s.job), gates := s.gates[id := g.(wakeDue := false)])) else None
  }

  // ---- lifeline, clients, reaper ----

  function MonStep(s: Sys, a: Action): Option<Sys> {
    match a
    case MonTick =>
      if !s.mon.MonWatching? then None
      else if MonitorStops(s.job) then Some(s.(mon := MonEnded))
      else if LifelineLost(s.job, s.clock) then Some(s.(mon := MonLost))
      else Some(s)
    case MonCancel =>
      if s.mon.MonLost? then Some(s.(job := RequestCancel(s.job, Lost), mon := MonEnded)) else None
    case MonStop => if s.mon.MonWatching? then Some(s.(mon := MonEnded)) else None
    case _ => None
  }

  function ClientStep(s: Sys, id: nat, a: ClientAct): Option<Sys> {
    match a
    case Attach =>
      if id in s.clients || id in s.hub.chans then None
      else Some(s.(hub := Subscribe(s.hub, id), clients := s.clients[id := Subscribed]))
    case CountIn =>
      if id in s.clients && s.clients[id].Subscribed?
      then Some(s.(job := ClientIn(s.job), clients := s.clients[id := Counted])) else None
    case ReadOne => Some(s.(hub := Drain(s.hub, id)))
    case Detach =>
      if id in s.clients && s.clients[id].Counted?
      then Some(s.(hub := Unsubscribe(s.hub, id), clients := s.clients[id := Unhooked])) else None
    case CountOut =>
      if id in s.clients && s.clients[id].Unhooked?
      then Some(s.(job := ClientOut(s.job, s.clock), clients := s.clients[id := Left])) else None
  }

  function ReapStep(s: Sys, a: Action): Option<Sys> {
    match a
    case Forget =>
      if s.registered && IsTerminal(s.job.state) && s.clock - s.job.terminalAt >= REAP_AGE
      then Some(s.(registered := false)) else None
    case RemoveForgotten =>
      if !s.registered && !s.reaped then Some(s.(reaped := true, disk := Disk(false, map[]))) else None
    case _ => None
  }

  /** The goroutine that mirrors the transcoder's stderr has been started; nothing waits for its end. */
  predicate Mirrored(r: RunPc) {
    match r
    case SetPreparing => false
    case PubPreparing => false
    case InPrepare => false
    case AbortCheck => false
    case StartPushers => false
    case StartProcess => false
    case EarlyFail => false
    case Finalizing(_, _, _, early, _) => !early
    case RunDone(_, _, early) => !early
    case _ => true
  }

  /**
   * Who can publish a line of stderr: the mirror, the run goroutine when it gives up early, or an
   * abortFail that has marked the job as failing and says so outside the lock. How many lines come
   * is free.
   */
  predicate MayWrite(s: Sys) {
    Mirrored(s.run) || s.run.EarlyFail? || s.job.failing
  }

  function Next(s: Sys, a: Action): Option<Sys> {
    match a
    case RunA(r) => RunStep(s, r)
    case CreateFile(n) => Create(s, n)
    case CompleteFile(n, data) => Complete(s, n, data)
    case WatchA(w) => WatchStep(s, w)
    case UploadA(w, u) => UploadStep(s, w, u)
    case ServerA(n, h) =>
      var v := ServerStep(s.server, n, h);
      if v.Some? then Some(s.(server := v.value)) else None
    case SessionGone => Some(s.(server := s.server.(live := false)))
    case RemoveSessionDir => Some(s.(server := s.server.(dirPresent := false, tmp := map[], files := map[])))
    case MakeSessionDir => Some(s.(server := s.server.(dirPresent := true)))
    case PostAnnounce(id, names) => Post(s, id, names)
    case GateA(id, g) => GateStep(s, id, g)
    case DeleteJob => Some(s.(job := RequestCancel(s.job, Cancelled)))
    case MonTick => MonStep(s, a)
    case MonCancel => MonStep(s, a)
    case MonStop => MonStep(s, a)
    case ClientA(id, c) => ClientStep(s, id, c)
    case Stderr(line) => if MayWrite(s) then Some(s.(hub := Publish(s.hub, StderrEvent(line)))) else None
    case Tick(d) => Some(s.(clock := s.clock + d))
    case Forget => ReapStep(s, a)
    case RemoveForgotten => ReapStep(s, a)
  }

  // ---- what each party can change ----

  lemma FileTouches(s: Sys, n: Name, data: Bytes)
    ensures Create(s, n).Some? ==> var s' := Create(s, n).value; s' == s.(disk := s'.disk)
    ensures Complete(s, n, data).Some? ==>
              var s' := Complete(s, n, data).value; s' == s.(disk := s'.disk, done := s'.done, watch := s'.watch)
  {
  }

  lemma GateTouches(s: Sys, id: nat, a: GateAct)
    requires GateStep(s, id, a).Some?
    ensures var s' := GateStep(s, id, a).value; s' == s.(job := s'.job, gates := s'.gates)
  {
  }

  lemma MonTouches(s: Sys, a: Action)
    requires MonStep(s, a).Some?
    ensures var s' := MonStep(s, a).value; s' == s.(job := s'.job, mon := s'.mon)
  {
    var s' := MonStep(s, a).value;
    if a.MonCancel? {
      assert s' == s.(job := s'.job, mon := MonEnded);
    } else {
      assert s' == s.(mon := s'.mon);
    }
  }

  lemma ClientTouches(s: Sys, id: nat, a: ClientAct)
    requires ClientStep(s, id, a).Some?
    ensures var s' := ClientStep(s, id, a).value; s' == s.(job := s'.job, hub := s'.hub, clients := s'.clients)
  {
  }

  lemma ReapTouches(s: Sys, a: Action)
    requires ReapStep(s, a).Some?
    ensures
      var s' := ReapStep(s, a).value;
      s' == s.(registered := s'.registered, reaped := s'.reaped, disk := s'.disk)
  {
  }

  /** The state after a whole run of actions, or None if some action was impossible. */
  function Exec(s: Sys, acts: seq<Action>): Option<Sys>
    decreases |acts|
  {
    if acts == [] then Some(s)
    else
      var r := Exec(s, acts[..|acts| - 1]);
      if r.None? then None else Next(r.value, acts[|acts| - 1])
  }

  ghost predicate Reachable(s: Sys) {
    exists acts: seq<Action> :: Exec(Init(s.cfg), acts) == Some(s)
  }
}
