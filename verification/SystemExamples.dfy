/** Concrete runs that mark the limits of what SystemTheorems can promise. */
module SystemExamples {
  import opened Prelude
  import opened Protocol
  import opened JobSections
  import opened System
  import opened SystemPuts

  const ONE: Config := Config(1, 1)

  /** One more action at the end of a run, with the state it leads to. */
  lemma Do(acts: seq<Action>, s: Sys, a: Action, s': Sys) returns (acts': seq<Action>)
    requires Exec(Init(ONE), acts) == Some(s) && Next(s, a) == Some(s')
    ensures Exec(Init(ONE), acts') == Some(s')
  {
    acts' := acts + [a];
    assert acts'[..|acts'| - 1] == acts;
  }

  lemma DoRun(acts: seq<Action>, s: Sys, r: RunAct, s': Sys) returns (acts': seq<Action>)
    requires Exec(Init(ONE), acts) == Some(s) && RunStep(s, r) == Some(s')
    ensures Exec(Init(ONE), acts') == Some(s')
  {
    acts' := Do(acts, s, RunA(r), s');
  }

  lemma DoGate(acts: seq<Action>, s: Sys, g: GateAct, s': Sys) returns (acts': seq<Action>)
    requires Exec(Init(ONE), acts) == Some(s) && GateStep(s, 0, g) == Some(s')
    ensures Exec(Init(ONE), acts') == Some(s')
  {
    acts' := Do(acts, s, GateA(0, g), s');
  }

  // ---- bringing the job to RUNNING with one idle upload worker ----

  const RUNNING: Job := NEW_JOB.(state := Running, signals := 2)
  const OPEN_QUEUE: Queue := Queue(true, [], false, false)
  const WORKER: map<nat, Upload> := map[0 := Idle]

  /** The fields that the later actions look at. */
  ghost predicate Started(s: Sys, run: RunPc, job: Job, watch: Watch, disk: Disk, done: map<Name, Bytes>) {
    && s.cfg == ONE && s.run == run && s.job == job && s.watch == watch && s.disk == disk && s.done == done
    && s.queue == OPEN_QUEUE && s.uploads == WORKER && s.gates == map[] && s.accepted == {} && s.failed == {}
    && s.registered && !s.reaped && s.clock == 0 && s.server == Server(true, true, map[], map[], map[], map[])
  }

  lemma ToPushers() returns (acts: seq<Action>, s: Sys)
    ensures Exec(Init(ONE), acts) == Some(s)
    ensures Started(s, StartProcess, NEW_JOB.(state := Preparing, signals := 1),
                    Watch(Listening, true, []), Disk(true, map[]), map[])
  {
    var s0 := Init(ONE);
    var s1 := s0.(job := NEW_JOB.(state := Preparing, signals := 1), run := PubPreparing);
    acts := DoRun([], s0, StepSetPreparing, s1);
    var s2 := s1.(hub := WithState(s1.hub, Preparing), run := InPrepare);
    acts := DoRun(acts, s1, StepPublish, s2);
    var s3 := s2.(run := AbortCheck);
    acts := DoRun(acts, s2, PrepareOk, s3);
    var s4 := s3.(run := StartPushers);
    acts := DoRun(acts, s3, StepAbortCheck, s4);
    assert IdleWorkers(1) == WORKER;
    s := s4.(run := StartProcess, queue := OPEN_QUEUE, watch := Watch(Listening, true, []), uploads := WORKER);
    acts := DoRun(acts, s4, PushersOk, s);
  }

  lemma ToRunning() returns (acts: seq<Action>, s: Sys)
    ensures Exec(Init(ONE), acts) == Some(s)
    ensures Started(s, WaitProcess, RUNNING, Watch(Listening, true, []), Disk(true, map[]), map[])
  {
    var s0: Sys;
    acts, s0 := ToPushers();
    var s1 := s0.(run := SetRunning);
    acts := DoRun(acts, s0, ProcessOk, s1);
    var s2 := EntersRunning(s1);
    acts := DoRun(acts, s1, StepSetRunning, s2);
    s := RunningIsPublished(s2);
    acts := DoRun(acts, s2, StepPublish, s);
  }

  lemma EntersRunning(s: Sys) returns (s': Sys)
    requires Started(s, SetRunning, NEW_JOB.(state := Preparing, signals := 1),
                     Watch(Listening, true, []), Disk(true, map[]), map[])
    ensures RunStep(s, StepSetRunning) == Some(s')
    ensures Started(s', PubRunning, RUNNING, Watch(Listening, true, []), Disk(true, map[]), map[])
  {
    s' := s.(job := RUNNING, run := PubRunning);
  }

  lemma RunningIsPublished(s: Sys) returns (s': Sys)
    requires Started(s, PubRunning, RUNNING, Watch(Listening, true, []), Disk(true, map[]), map[])
    ensures RunStep(s, StepPublish) == Some(s')
    ensures Started(s', WaitProcess, RUNNING, Watch(Listening, true, []), Disk(true, map[]), map[])
  {
    s' := s.(hub := WithState(s.hub, Running), run := WaitProcess, mon := MonWatching);
  }

  lemma FileAppears(s: Sys, n: Name) returns (s': Sys)
    requires Started(s, WaitProcess, RUNNING, Watch(Listening, true, []), Disk(true, map[]), map[])
    ensures Next(s, CreateFile(n)) == Some(s')
    ensures Started(s', WaitProcess, RUNNING, Watch(Listening, true, []), Disk(true, map[n := LocalFile(false, [])]), map[])
  {
    s' := Create(s, n).value;
  }

  lemma FileCompletes(s: Sys, n: Name) returns (s': Sys)
    requires Started(s, WaitProcess, RUNNING, Watch(Listening, true, []), Disk(true, map[n := LocalFile(false, [])]), map[])
    ensures Next(s, CompleteFile(n, [1])) == Some(s')
    ensures Started(s', WaitProcess, RUNNING, Watch(Listening, true, [n]),
                    Disk(true, map[n := LocalFile(true, [1])]), map[n := [1]])
  {
    s' := Complete(s, n, [1]).value;
    assert s'.disk.files == map[n := LocalFile(true, [1])];
    assert s'.watch.events == [n];
  }

  lemma FileTaken(s: Sys, n: Name, disk: Disk, done: map<Name, Bytes>) returns (s': Sys)
    requires Started(s, WaitProcess, RUNNING, Watch(Listening, true, [n]), disk, done)
    ensures Next(s, WatchA(Take)) == Some(s')
    ensures Started(s', WaitProcess, RUNNING, Watch(Enqueuing(n), true, []), disk, done)
  {
    s' := WatchStep(s, Take).value;
    assert s'.watch.events == [];
  }

  /** The transcoder completes one chunk, and the watcher picks it up. */
  lemma ToReported(n: Name) returns (acts: seq<Action>, s: Sys)
    ensures Exec(Init(ONE), acts) == Some(s)
    ensures Started(s, WaitProcess, RUNNING, Watch(Enqueuing(n), true, []),
                    Disk(true, map[n := LocalFile(true, [1])]), map[n := [1]])
  {
    var s0: Sys;
    acts, s0 := ToRunning();
    var s1 := FileAppears(s0, n);
    acts := Do(acts, s0, CreateFile(n), s1);
    var s2 := FileCompletes(s1, n);
    acts := Do(acts, s1, CompleteFile(n, [1]), s2);
    s := FileTaken(s2, n, s2.disk, s2.done);
    acts := Do(acts, s2, WatchA(Take), s);
  }

  // ---- from a quiet RUNNING job to the COMPLETED verdict ----

  /** A RUNNING job with no upload outstanding and nothing recorded against it. */
  ghost predicate QuietRunning(s: Sys) {
    s.run == WaitProcess && s.job.state.Running? && s.job.pending == 0 && !s.job.failing && s.job.cancelState.None?
  }

  function Drained(j: Job): Job {
    j.(state := Draining, exited := true, intakeClosed := true, signals := j.signals + 1)
  }

  lemma ToExited(acts0: seq<Action>, s0: Sys) returns (acts: seq<Action>, s: Sys)
    requires Exec(Init(ONE), acts0) == Some(s0) && s0.run == WaitProcess
    ensures Exec(Init(ONE), acts) == Some(s) && s == s0.(job := s0.job.(exited := true), run := CloseWatcher(0))
  {
    var s1 := s0.(run := MarkExited(0));
    acts := DoRun(acts0, s0, ProcessExits(0), s1);
    s := s1.(job := s0.job.(exited := true), run := CloseWatcher(0));
    acts := DoRun(acts, s1, StepMarkExited, s);
  }

  /** The process exits with 0 and the drain finds nothing to wait for: the verdict is COMPLETED. */
  lemma ToVerdict(acts0: seq<Action>, s0: Sys) returns (acts: seq<Action>, s: Sys)
    requires Exec(Init(ONE), acts0) == Some(s0) && QuietRunning(s0)
    ensures Exec(Init(ONE), acts) == Some(s)
    ensures s == s0.(run := Fin(Completed, 0, false), job := Drained(s0.job), hub := s.hub, watch := s0.watch.(open := false))
  {
    var s2;
    acts, s2 := ToExited(acts0, s0);
    var s3 := s2.(watch := s0.watch.(open := false), run := SetDraining(0));
    acts := DoRun(acts, s2, StepCloseWatcher, s3);
    acts, s := ToVerdict2(acts, s3);
  }

  lemma ToVerdict2(acts0: seq<Action>, s0: Sys) returns (acts: seq<Action>, s: Sys)
    requires Exec(Init(ONE), acts0) == Some(s0)
    requires s0.run == SetDraining(0) && s0.job.state.Running? && s0.job.pending == 0
    requires !s0.job.failing && s0.job.cancelState.None?
    ensures Exec(Init(ONE), acts) == Some(s)
    ensures s == s0.(run := Fin(Completed, 0, false), hub := s.hub,
                     job := s0.job.(state := Draining, intakeClosed := true, signals := s0.job.signals + 1))
  {
    var s2;
    acts, s2 := ToDraining(acts0, s0);
    var s3 := DrainsAtOnce(s2);
    acts := DoRun(acts, s2, StepDrainStart, s3);
    s := Decides(s3);
    acts := DoRun(acts, s3, StepDecide, s);
  }

  lemma ToDraining(acts0: seq<Action>, s0: Sys) returns (acts: seq<Action>, s: Sys)
    requires Exec(Init(ONE), acts0) == Some(s0) && s0.run == SetDraining(0) && s0.job.state.Running?
    ensures Exec(Init(ONE), acts) == Some(s)
    ensures s == s0.(run := DrainStart(0), hub := s.hub,
                     job := s0.job.(state := Draining, signals := s0.job.signals + 1))
  {
    var s1 := EntersDraining(s0);
    acts := DoRun(acts0, s0, StepSetDraining, s1);
    s := DrainingIsPublished(s1);
    acts := DoRun(acts, s1, StepPublish, s);
  }

  lemma DrainingIsPublished(s: Sys) returns (s': Sys)
    requires s.run == PubDraining(0)
    ensures RunStep(s, StepPublish) == Some(s') && s' == s.(run := DrainStart(0), hub := s'.hub)
  {
    s' := s.(hub := WithState(s.hub, Draining), run := DrainStart(0));
  }

  lemma EntersDraining(s: Sys) returns (s': Sys)
    requires s.run == SetDraining(0) && s.job.state.Running?
    ensures RunStep(s, StepSetDraining) == Some(s')
    ensures s' == s.(job := s.job.(state := Draining, signals := s.job.signals + 1), run := PubDraining(0))
  {
    s' := s.(job := s.job.(state := Draining, signals := s.job.signals + 1), run := PubDraining(0));
    assert SetState(s.job, Draining, s.clock) == s'.job;
    assert StopRun(s, StepSetDraining) == Some(s');
  }

  lemma DrainsAtOnce(s: Sys) returns (s': Sys)
    requires s.run == DrainStart(0) && s.job.pending == 0 && !s.job.failing
    ensures RunStep(s, StepDrainStart) == Some(s')
    ensures s' == s.(job := s.job.(intakeClosed := true), run := Deciding(0, false))
  {
    s' := s.(job := s.job.(intakeClosed := true), run := Deciding(0, false));
    assert !DrainHolds(s'.job, s.clock, s.clock + DRAIN_TIMEOUT) && !DrainFails(s'.job);
    assert StopRun(s, StepDrainStart) == Some(s');
  }

  lemma Decides(s: Sys) returns (s': Sys)
    requires s.run == Deciding(0, false) && !s.job.failing && s.job.cancelState.None?
    ensures RunStep(s, StepDecide) == Some(s')
    ensures s' == s.(run := Fin(Completed, 0, false))
  {
    s' := s.(run := Fin(Completed, 0, false));
    assert Verdict(s.job, false, 0) == Completed;
    assert StopRun(s, StepDecide) == Some(s');
  }

  /** The locked part of finalize, from a COMPLETED verdict. */
  lemma ToCompleted(acts0: seq<Action>, s0: Sys) returns (acts: seq<Action>, s: Sys)
    requires Exec(Init(ONE), acts0) == Some(s0)
    requires s0.run == Fin(Completed, 0, false) && s0.job.state.Draining?
    ensures Exec(Init(ONE), acts) == Some(s)
    ensures s == s0.(run := s.run, job := s.job) && s.job == Finalize(s0.job, s0.queue.made, Completed, s0.clock).0
    ensures s.run == Finalizing(PubState, Completed, 0, false, Finalize(s0.job, s0.queue.made, Completed, s0.clock).1)
  {
    s := FinalizeRun(s0, StepLock).value;
    acts := DoRun(acts0, s0, StepLock, s);
  }

  // ---- a failed upload in a COMPLETED job ----

  lemma Accepts(s: Sys, n: Name) returns (s': Sys)
    requires s.watch.pc == Enqueuing(n) && s.job == RUNNING && s.queue == OPEN_QUEUE && s.cfg == ONE && s.accepted == {}
    ensures Next(s, WatchA(EnqueueIt)) == Some(s')
    ensures s' == s.(job := RUNNING.(pending := 1), queue := OPEN_QUEUE.(buf := [n]), watch := s'.watch, accepted := {n})
  {
    s' := WatchStep(s, EnqueueIt).value;
    assert s'.queue.buf == [n];
  }

  lemma CannotOpen(acts0: seq<Action>, s0: Sys, n: Name) returns (acts: seq<Action>, s: Sys)
    requires Exec(Init(ONE), acts0) == Some(s0) && s0.uploads == WORKER && s0.queue.buf == [n]
    ensures Exec(Init(ONE), acts) == Some(s)
    ensures s == s0.(uploads := s0.uploads[0 := Pushed(n, false)], queue := s0.queue.(buf := []))
  {
    var s1 := s0.(uploads := s0.uploads[0 := Opening(n, 0)], queue := s0.queue.(buf := s0.queue.buf[1..]));
    acts := Do(acts0, s0, UploadA(0, TakeName), s1);
    s := s1.(uploads := s1.uploads[0 := Pushed(n, false)]);
    acts := Do(acts, s1, UploadA(0, OpenFails), s);
  }

  lemma PushFails(acts0: seq<Action>, s0: Sys, n: Name) returns (acts: seq<Action>, s: Sys)
    requires Exec(Init(ONE), acts0) == Some(s0)
    requires s0.watch.pc == Enqueuing(n) && s0.job == RUNNING && s0.queue == OPEN_QUEUE && s0.uploads == WORKER
    requires s0.cfg == ONE && s0.failed == {} && s0.accepted == {} && s0.run == WaitProcess
    ensures Exec(Init(ONE), acts) == Some(s)
    ensures QuietRunning(s) && s.failed == {n} && s.accepted == {n} && s.job.acked == {}
  {
    var s1 := Accepts(s0, n);
    acts := Do(acts0, s0, WatchA(EnqueueIt), s1);
    var s3;
    acts, s3 := CannotOpen(acts, s1, n);
    s := RecordsFailure(s3, n);
    acts := Do(acts, s3, UploadA(0, RecordIt), s);
  }

  lemma RecordsFailure(s: Sys, n: Name) returns (s': Sys)
    requires s.job == RUNNING.(pending := 1) && 0 in s.uploads && s.uploads[0] == Pushed(n, false)
    ensures Next(s, UploadA(0, RecordIt)) == Some(s')
    ensures s' == s.(job := RUNNING.(signals := 3), uploads := s'.uploads, failed := s.failed + {n})
  {
    s' := s.(job := RUNNING.(signals := 3), uploads := s.uploads[0 := Aborting(n)], failed := s.failed + {n});
    assert Resolve(s.job, n, false) == s'.job;
    assert UploadStep(s, 0, RecordIt) == Some(s');
  }

  /**
   * COMPLETED with an upload that failed: the worker has recorded the failure, `pending` is back at
   * zero, and the drain and the verdict run before the worker gets to abortFail.
   */
  lemma CompletedWithFailedUpload(n: Name) returns (acts: seq<Action>)
    ensures Exec(Init(ONE), acts).Some?
    ensures
      var s := Exec(Init(ONE), acts).value;
      s.job.state.Completed? && s.accepted == s.failed == {n} && s.job.acked == {}
  {
    var s: Sys;
    acts, s := ToReported(n);
    acts, s := PushFails(acts, s, n);
    acts, s := ToVerdict(acts, s);
    acts, s := ToCompleted(acts, s);
  }

  /** The report of `n` comes after intake was closed, and is dropped. */
  lemma DropsReport(acts0: seq<Action>, s0: Sys, n: Name) returns (acts: seq<Action>, s: Sys)
    requires Exec(Init(ONE), acts0) == Some(s0) && s0.watch.pc == Enqueuing(n) && s0.job.intakeClosed
    ensures Exec(Init(ONE), acts) == Some(s)
    ensures s == s0.(watch := s.watch)
  {
    s := WatchStep(s0, EnqueueIt).value;
    acts := Do(acts0, s0, WatchA(EnqueueIt), s);
  }

  /** COMPLETED with a completed chunk that never got into the queue: its report came after the drain began. */
  lemma CompletedWithLateReport(n: Name) returns (acts: seq<Action>)
    ensures Exec(Init(ONE), acts).Some?
    ensures
      var s := Exec(Init(ONE), acts).value;
      s.job.state.Completed? && s.done.Keys == {n} && s.accepted == {} && s.server.landed == map[]
  {
    var s: Sys;
    acts, s := ToReported(n);
    acts, s := ToVerdict(acts, s);
    acts, s := DropsReport(acts, s, n);
    acts, s := ToCompleted(acts, s);
  }

  // ---- a cancel between the verdict and finalize ----

  /** A cancel that lands after the verdict is recorded, and the job still ends COMPLETED. */
  lemma CompletedThoughCancelled() returns (acts: seq<Action>)
    ensures Exec(Init(ONE), acts).Some?
    ensures
      var s := Exec(Init(ONE), acts).value;
      s.job.state.Completed? && s.job.cancelState == Some(Cancelled)
  {
    var s: Sys;
    acts, s := ToRunning();
    acts, s := ToVerdict(acts, s);
    var s' := s.(job := RequestCancel(s.job, Cancelled));
    acts := Do(acts, s, DeleteJob, s');
    acts, s := ToCompleted(acts, s');
  }

  // ---- an announce that outlives its job dir ----

  /** One held announce about the chunk `n`, owed but never uploaded. */
  ghost predicate Owes(s: Sys, n: Name, pc: GatePc) {
    && 0 in s.gates && s.gates[0] == Gate([n], {n}, 0, pc, false, false)
    && s.done == map[n := [1]] && s.job.acked == {} && s.server.landed == map[]
  }

  lemma Posts(acts0: seq<Action>, s0: Sys, n: Name) returns (acts: seq<Action>, s: Sys)
    requires Exec(Init(ONE), acts0) == Some(s0)
    requires s0.gates == map[] && s0.job == RUNNING && n in s0.disk.files
    requires s0.done == map[n := [1]] && s0.server.landed == map[]
    ensures Exec(Init(ONE), acts) == Some(s)
    ensures s == s0.(gates := s.gates) && s.gates.Keys == {0} && Owes(s, n, Asleep(2))
  {
    var s1 := Post(s0, 0, [n]).value;
    assert s1.gates[0].must == {n};
    acts := Do(acts0, s0, PostAnnounce(0, [n]), s1);
    acts, s := Held(acts, s1, n);
  }

  /** The gate finds the name neither ACKed nor foreign, and sleeps. */
  lemma Held(acts0: seq<Action>, s0: Sys, n: Name) returns (acts: seq<Action>, s: Sys)
    requires Exec(Init(ONE), acts0) == Some(s0)
    requires s0.gates.Keys == {0} && Owes(s0, n, Checking) && s0.job == RUNNING && n in s0.disk.files
    ensures Exec(Init(ONE), acts) == Some(s)
    ensures s == s0.(gates := s.gates) && s.gates.Keys == {0} && Owes(s, n, Asleep(2))
  {
    s := GateStep(s0, 0, CheckName).value;
    assert GateCheck(s0.job, n, false, true) == Hold;
    acts := DoGate(acts0, s0, CheckName, s);
  }

  lemma Forgets(acts0: seq<Action>, s0: Sys) returns (acts: seq<Action>, s: Sys)
    requires Exec(Init(ONE), acts0) == Some(s0)
    requires s0.registered && !s0.reaped && s0.job.state.Completed? && s0.clock == s0.job.terminalAt
    ensures Exec(Init(ONE), acts) == Some(s)
    ensures s == s0.(clock := s.clock, registered := false)
  {
    var s1;
    acts, s1 := Ages(acts0, s0);
    s := s1.(registered := false);
    ForgetStep(s1);
    acts := Do(acts, s1, Forget, s);
  }

  lemma Ages(acts0: seq<Action>, s0: Sys) returns (acts: seq<Action>, s: Sys)
    requires Exec(Init(ONE), acts0) == Some(s0)
    ensures Exec(Init(ONE), acts) == Some(s) && s == s0.(clock := s0.clock + REAP_AGE)
  {
    s := s0.(clock := s0.clock + REAP_AGE);
    TickStep(s0, REAP_AGE);
    acts := Do(acts0, s0, Tick(REAP_AGE), s);
  }

  lemma TickStep(s: Sys, d: nat)
    ensures Next(s, Tick(d)) == Some(s.(clock := s.clock + d))
  {
  }

  lemma ForgetStep(s: Sys)
    requires s.registered && IsTerminal(s.job.state) && s.clock - s.job.terminalAt >= REAP_AGE
    ensures Next(s, Forget) == Some(s.(registered := false))
  {
    assert ReapStep(s, Forget) == Some(s.(registered := false));
  }

  lemma RemoveStep(s: Sys)
    requires !s.registered && !s.reaped
    ensures Next(s, RemoveForgotten) == Some(s.(reaped := true, disk := Disk(false, map[])))
  {
    assert ReapStep(s, RemoveForgotten) == Some(s.(reaped := true, disk := Disk(false, map[])));
  }

  /** The job dir is reaped. */
  lemma Reaps(acts0: seq<Action>, s0: Sys) returns (acts: seq<Action>, s: Sys)
    requires Exec(Init(ONE), acts0) == Some(s0)
    requires s0.registered && !s0.reaped && s0.job.state.Completed? && s0.clock == s0.job.terminalAt
    ensures Exec(Init(ONE), acts) == Some(s)
    ensures s == s0.(clock := s.clock, registered := false, reaped := true, disk := Disk(false, map[]))
  {
    var s2;
    acts, s2 := Forgets(acts0, s0);
    s := s2.(reaped := true, disk := Disk(false, map[]));
    RemoveStep(s2);
    acts := Do(acts, s2, RemoveForgotten, s);
  }

  /** A held announce wakes up, finds no file, and goes through. */
  lemma GoesThrough(acts0: seq<Action>, s0: Sys, n: Name, since: nat) returns (acts: seq<Action>, s: Sys)
    requires Exec(Init(ONE), acts0) == Some(s0) && Owes(s0, n, Asleep(since)) && since < s0.job.signals
    requires s0.job.state.Completed? && !s0.job.failing && s0.job.cancelState.None? && s0.disk.files == map[]
    ensures Exec(Init(ONE), acts) == Some(s)
    ensures s == s0.(gates := s.gates) && 0 in s.gates && s.gates[0] == Gate([n], {n}, 1, Forwarded, false, false)
  {
    var g := s0.gates[0];
    var s1 := s0.(gates := s0.gates[0 := g.(pc := Checking)]);
    acts := DoGate(acts0, s0, WakeUp, s1);
    assert GateCheck(s1.job, n, false, false) == Skip;
    var s2 := s1.(gates := s1.gates[0 := g.(pc := Checking, i := 1)]);
    acts := DoGate(acts, s1, CheckName, s2);
    var s3 := s2.(gates := s2.gates[0 := g.(pc := Passed, i := 1)]);
    acts := DoGate(acts, s2, PassThrough, s3);
    s := s3.(gates := s3.gates[0 := g.(pc := Forwarded, i := 1)]);
    acts := DoGate(acts, s3, Forward, s);
  }

  /**
   * Once the job dir is reaped the promise ends: a chunk whose report came too late is never
   * uploaded, the announce that waits for it is held past COMPLETED, and when it next wakes the
   * reaped dir makes the chunk look like a foreign name.
   */
  lemma ForwardedAfterReaping(n: Name) returns (acts: seq<Action>)
    ensures Exec(Init(ONE), acts).Some?
    ensures
      var s := Exec(Init(ONE), acts).value;
      && s.reaped && 0 in s.gates && s.gates[0].pc.Forwarded?
      && n in s.gates[0].must && n in s.done && n !in s.server.landed
  {
    var s: Sys;
    acts, s := ToReported(n);
    acts, s := Posts(acts, s, n);
    acts, s := ToVerdict(acts, s);
    acts, s := DropsReport(acts, s, n);
    acts, s := ToCompleted(acts, s);
    acts, s := Reaps(acts, s);
    acts, s := GoesThrough(acts, s, n, 2);
  }

  // ---- a chunk all the way ----

  /** The queued chunk goes to the worker, from there to masterd, and its ACK is recorded. */
  lemma Uploads(acts0: seq<Action>, s0: Sys, n: Name) returns (acts: seq<Action>, s: Sys)
    requires Exec(Init(ONE), acts0) == Some(s0)
    requires s0.uploads == WORKER && s0.queue.buf == [n] && s0.disk.files == map[n := LocalFile(true, [1])]
    requires s0.server.live && s0.server.dirPresent && s0.server.handlers == map[]
    ensures Exec(Init(ONE), acts) == Some(s)
    ensures s == s0.(job := s.job, uploads := s.uploads, queue := s.queue, disk := s.disk, server := s.server)
    ensures s.job == s0.job.(pending := s0.job.pending - 1, acked := s0.job.acked + {n}, signals := s0.job.signals + 1)
    ensures n !in s.disk.files && s.server.files == s0.server.files[n := [1]]
  {
    var s1 := s0.(uploads := s0.uploads[0 := Opening(n, 0)], queue := s0.queue.(buf := s0.queue.buf[1..]));
    acts := Do(acts0, s0, UploadA(0, TakeName), s1);
    s := PutSucceeds(s1, 0, n, 0);
    Joined(Init(ONE), acts, s1, PutRun(0, n, 1), s);
    acts := acts + PutRun(0, n, 1);
  }

  /** The held announce wakes up, finds its chunk ACKed, and goes through. */
  lemma IsForwarded(acts0: seq<Action>, s0: Sys, n: Name) returns (acts: seq<Action>, s: Sys)
    requires Exec(Init(ONE), acts0) == Some(s0) && n in s0.job.acked && s0.job.signals > 2
    requires 0 in s0.gates && s0.gates[0] == Gate([n], {n}, 0, Asleep(2), false, false)
    ensures Exec(Init(ONE), acts) == Some(s)
    ensures s == s0.(gates := s.gates) && 0 in s.gates && s.gates[0] == Gate([n], {n}, 1, Forwarded, false, false)
  {
    var g := s0.gates[0];
    var s1 := s0.(gates := s0.gates[0 := g.(pc := Checking)]);
    acts := DoGate(acts0, s0, WakeUp, s1);
    assert GateCheck(s1.job, n, false, n in s1.disk.files) == Skip;
    var s2 := s1.(gates := s1.gates[0 := g.(pc := Checking, i := 1)]);
    acts := DoGate(acts, s1, CheckName, s2);
    acts, s := Lets(acts, s2, n);
  }

  /** The names are all passed: the announce goes out. */
  lemma Lets(acts0: seq<Action>, s0: Sys, n: Name) returns (acts: seq<Action>, s: Sys)
    requires Exec(Init(ONE), acts0) == Some(s0)
    requires 0 in s0.gates && s0.gates[0] == Gate([n], {n}, 1, Checking, false, false)
    ensures Exec(Init(ONE), acts) == Some(s)
    ensures s == s0.(gates := s.gates) && 0 in s.gates && s.gates[0] == Gate([n], {n}, 1, Forwarded, false, false)
  {
    var s1 := s0.(gates := s0.gates[0 := s0.gates[0].(pc := Passed)]);
    acts := DoGate(acts0, s0, PassThrough, s1);
    s := s1.(gates := s1.gates[0 := s1.gates[0].(pc := Forwarded)]);
    acts := DoGate(acts, s1, Forward, s);
  }

  /**
   * A chunk all the way: an announce of it is held, it is uploaded and ACKed, the announce is let
   * through, and the job ends COMPLETED with the chunk in the session dir and no local copy left.
   */
  lemma DeliveredAndCompleted(n: Name) returns (acts: seq<Action>)
    ensures Exec(Init(ONE), acts).Some?
    ensures
      var s := Exec(Init(ONE), acts).value;
      && s.job.state.Completed? && n in s.job.acked && s.failed == {} && n !in s.disk.files
      && s.done == s.server.files == map[n := [1]]
      && 0 in s.gates && s.gates[0].names == [n] && s.gates[0].pc.Forwarded?
  {
    var s: Sys;
    acts, s := ToReported(n);
    acts, s := Posts(acts, s, n);
    var s' := Accepts(s, n);
    acts := Do(acts, s, WatchA(EnqueueIt), s');
    acts, s := Uploads(acts, s', n);
    acts, s := IsForwarded(acts, s, n);
    acts, s := ToVerdict(acts, s);
    acts, s := ToCompleted(acts, s);
  }
}
