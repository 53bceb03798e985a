/** Wire-level types of internal/protocol/protocol.go that the worker model needs. */
module Protocol {

  /** A worker-side job lifecycle state. */
  datatype JobState =
    | Pending | Preparing | Running | Draining
    | Completed | Failed | Cancelled | Lost

  predicate IsTerminal(s: JobState) {
    s.Completed? || s.Failed? || s.Cancelled? || s.Lost?
  }

  /** One line of a job's events stream; heartbeats never pass through the hub. */
  datatype Event =
    | StateEvent(state: JobState)
    | StderrEvent(line: string)
    | ExitEvent(code: int)

  /** PeerTimeout: how long a RUNNING job survives without an events client. */
  const PEER_TIMEOUT: nat := 10
}
