/**
 * The fields of a worker job that its mutex guards, and what each critical section of
 * internal/workerd/job.go and internal/workerd/pusher.go does to them.
 *
 * The condition variable is its generation: `signals` counts the broadcasts, and a waiter that
 * went to sleep at generation g may run again once `signals` exceeds g.
 */
module JobSections {
  import opened Prelude
  import opened Protocol

  type Name = string

  datatype Job = Job(
    state: JobState,
    failing: bool,
    cancelState: Option<JobState>,
    acked: set<Name>,
    pending: int,
    intakeClosed: bool,
    queueClosed: bool,
    exited: bool,
    clients: int,
    clientGone: nat,
    terminalAt: nat,
    signals: nat)

  /** The upload queue: a bounded channel. `fault` records a send after close or a second close. */
  datatype Queue = Queue(made: bool, buf: seq<Name>, closed: bool, fault: bool)

  const NEW_JOB := Job(Pending, false, None, {}, 0, false, false, false, 0, 0, 0, 0)
  const NO_QUEUE := Queue(false, [], false, false)
  const DRAIN_TIMEOUT: nat := 30
  const REAP_AGE: nat := 300

  function Broadcast(j: Job): Job {
    j.(signals := j.signals + 1)
  }

  // ---- job.go ----

  function SetState(j: Job, s: JobState, now: nat): Job {
    if IsTerminal(j.state) then j
    else Broadcast(j.(
      state := s,
      clientGone := if s.Running? && j.clients == 0 then now else j.clientGone))
  }

  /** The locked part of finalize; the second result tells whether this call closes the queue. */
  function Finalize(j: Job, queueMade: bool, s: JobState, now: nat): (Job, bool) {
    if IsTerminal(j.state) then (j, false)
    else
      var closing := queueMade && !j.queueClosed;
      (Broadcast(j.(state := s, terminalAt := now, intakeClosed := true,
                    queueClosed := j.queueClosed || closing)), closing)
  }

  function AbortFail(j: Job): Job {
    if j.failing || IsTerminal(j.state) then j else Broadcast(j.(failing := true))
  }

  function RequestCancel(j: Job, target: JobState): Job {
    if j.cancelState.Some? || IsTerminal(j.state) then j
    else Broadcast(j.(cancelState := Some(target)))
  }

  /** abortState: how to end a job that was aborted before it ran. */
  function AbortState(j: Job): Option<JobState> {
    if j.cancelState.Some? then j.cancelState
    else if j.failing then Some(Failed)
    else None
  }

  function TerminalFor(j: Job, failed: bool): JobState {
    if j.cancelState.Some? then j.cancelState.value
    else if failed then Failed
    else Completed
  }

  function Verdict(j: Job, drainErr: bool, code: int): JobState {
    if j.cancelState.Some? then j.cancelState.value
    else if j.failing || drainErr || code != 0 then Failed
    else Completed
  }

  function ClientIn(j: Job): Job {
    j.(clients := j.clients + 1)
  }

  function ClientOut(j: Job, now: nat): Job {
    j.(clients := j.clients - 1, clientGone := if j.clients - 1 == 0 then now else j.clientGone)
  }

  /** One tick of the lifeline monitor: stop watching, or find the lifeline lost. */
  predicate MonitorStops(j: Job) {
    IsTerminal(j.state) || j.cancelState.Some?
  }

  predicate LifelineLost(j: Job, now: nat) {
    j.state.Running? && j.clients == 0 && now - j.clientGone >= PEER_TIMEOUT
  }

  predicate GateBroken(j: Job) {
    j.failing || j.cancelState.Some? || (IsTerminal(j.state) && !j.state.Completed?)
  }

  /** What one pass of the inner loop of gateWait decides about one name. */
  datatype GateVerdict = Skip | Refuse | Hold

  function GateCheck(j: Job, name: Name, ctxDone: bool, present: bool): GateVerdict {
    if name in j.acked then Skip
    else if GateBroken(j) then Refuse
    else if ctxDone then Refuse
    else if !present then Skip
    else Hold
  }

  // ---- pusher.go ----

  /** The locked part of enqueue: new job, new queue, and whether the queue overflowed. */
  function Enqueue(j: Job, q: Queue, name: Name, cap: nat): (Job, Queue, bool) {
    if j.intakeClosed || j.failing || IsTerminal(j.state) || name in j.acked then (j, q, false)
    else if q.made && q.closed then (j, q.(fault := true), false)
    else if !q.made || |q.buf| >= cap then (j, q, true)
    else (j.(pending := j.pending + 1), q.(buf := q.buf + [name]), false)
  }

  function CloseQueue(q: Queue): Queue {
    if q.closed || !q.made then q.(fault := true) else q.(closed := true)
  }

  /** uploadWorker recording the outcome of one push. */
  function Resolve(j: Job, name: Name, ok: bool): Job {
    Broadcast(j.(pending := j.pending - 1, acked := if ok then j.acked + {name} else j.acked))
  }

  function CloseIntake(j: Job): Job {
    j.(intakeClosed := true)
  }

  /** The loop condition of drainUploads. */
  predicate DrainHolds(j: Job, now: nat, deadline: nat) {
    j.pending > 0 && !j.failing && now < deadline
  }

  predicate DrainFails(j: Job) {
    j.failing || j.pending > 0
  }

  /** Two jobs agree on what the upload pipeline has recorded. */
  ghost predicate SameUploads(j: Job, j': Job) {
    j'.acked == j.acked && j'.pending == j.pending
  }

  lemma OnlyPipelineSections(j: Job, s: JobState, queueMade: bool, now: nat)
    ensures SameUploads(j, AbortFail(j)) && SameUploads(j, RequestCancel(j, s)) && SameUploads(j, SetState(j, s, now))
    ensures SameUploads(j, Finalize(j, queueMade, s, now).0)
  {
  }

  /** Terminal states are absorbing: no critical section leaves one. */
  lemma TerminalAbsorbs(j: Job, q: Queue, s: JobState, name: Name, ok: bool, now: nat, cap: nat)
    requires IsTerminal(j.state)
    ensures SetState(j, s, now) == j
    ensures Finalize(j, q.made, s, now) == (j, false)
    ensures AbortFail(j) == j && RequestCancel(j, s) == j
    ensures Enqueue(j, q, name, cap) == (j, q, false)
    ensures Resolve(j, name, ok).state == ClientIn(j).state == ClientOut(j, now).state == j.state
    ensures CloseIntake(j).state == Broadcast(j).state == j.(exited := true).state == j.state
  {
  }
}
