/**
 * The two loops that sleep on a job's condition variable (gateWait in internal/workerd/job.go and
 * drainUploads in internal/workerd/pusher.go), as functions of what happens while they sleep.
 */
module JobLoops {
  import opened Protocol
  import opened JobSections

  /** What one pass of the gate's inner loop finds, and what the others make of the job while it sleeps. */
  datatype Turn = Turn(ctxDone: bool, present: bool, next: Job)

  /** How far a gate has come: through, refused, or still in its loop. */
  datatype GateEnd = Passes | Refuses | Waits

  datatype GateResult = GateResult(end: GateEnd, job: Job)

  /** gateWait, from the first name not yet passed. */
  function GateRun(j: Job, names: seq<Name>, turns: seq<Turn>): GateResult
    decreases |names| + |turns|
  {
    if names == [] then GateResult(Passes, j)
    else if names[0] in j.acked then GateRun(j, names[1..], turns)
    else if GateBroken(j) then GateResult(Refuses, j)
    else if turns == [] then GateResult(Waits, j)
    else
      match GateCheck(j, names[0], turns[0].ctxDone, turns[0].present)
      case Skip => GateRun(j, names[1..], turns[1..])
      case Refuse => GateResult(Refuses, j)
      case Hold => GateRun(turns[0].next, names, turns[1..])
  }

  /** The others only ever add ACKs. */
  ghost predicate AcksGrow(j: Job, turns: seq<Turn>)
    decreases |turns|
  {
    turns != [] ==> j.acked <= turns[0].next.acked && AcksGrow(turns[0].next, turns[1..])
  }

  /** No name is foreign and the client stays: the announce is about chunks that are in the out dir. */
  predicate OwnChunks(turns: seq<Turn>) {
    forall k :: 0 <= k < |turns| ==> turns[k].present && !turns[k].ctxDone
  }

  predicate AllAcked(names: seq<Name>, j: Job) {
    forall k :: 0 <= k < |names| ==> names[k] in j.acked
  }

  lemma {:induction false} AcksStay(j: Job, names: seq<Name>, turns: seq<Turn>)
    requires AcksGrow(j, turns) && OwnChunks(turns)
    ensures j.acked <= GateRun(j, names, turns).job.acked
    decreases |names| + |turns|
  {
    if names != [] {
      if names[0] in j.acked {
        AcksStay(j, names[1..], turns);
      } else if !GateBroken(j) && turns != [] {
        AcksStay(turns[0].next, names, turns[1..]);
      }
    }
  }

  /** A failure or a cancel is on record, or the job has ended other than COMPLETED. */
  predicate InTrouble(j: Job) {
    j.failing || j.cancelState.Some? || j.state in {Failed, Cancelled, Lost}
  }

  /**
   * For an announce about the job's own chunks, the state in which the loop stops decides how: it is
   * through exactly when every name is ACKed, refused exactly when one is not and the job is broken,
   * and waits exactly when one is not and the job is sound.
   */
  lemma {:induction false} GateDecides(j: Job, names: seq<Name>, turns: seq<Turn>)
    requires AcksGrow(j, turns) && OwnChunks(turns)
    ensures
      var r := GateRun(j, names, turns);
      && (r.end.Passes? <==> AllAcked(names, r.job))
      && (r.end.Refuses? <==> !AllAcked(names, r.job) && InTrouble(r.job))
      && (r.end.Waits? <==> !AllAcked(names, r.job) && !InTrouble(r.job))
    decreases |names| + |turns|
  {
    if names != [] {
      if names[0] in j.acked {
        GateDecides(j, names[1..], turns);
        AcksStay(j, names[1..], turns);
        var r := GateRun(j, names[1..], turns);
        assert AllAcked(names[1..], r.job) ==> AllAcked(names, r.job);
        assert AllAcked(names, r.job) ==> AllAcked(names[1..], r.job);
      } else if !GateBroken(j) && turns != [] {
        GateDecides(turns[0].next, names, turns[1..]);
      }
    }
  }

  /** Without that: an announce is let through only over names that are ACKed or not in the out dir. */
  lemma {:induction false} GatePassesOver(j: Job, names: seq<Name>, turns: seq<Turn>, k: nat)
    requires AcksGrow(j, turns) && GateRun(j, names, turns).end.Passes? && k < |names|
    ensures names[k] in GateRun(j, names, turns).job.acked || exists m :: 0 <= m < |turns| && !turns[m].present
    decreases |names| + |turns|
  {
    if names[0] in j.acked {
      if k > 0 {
        GatePassesOver(j, names[1..], turns, k - 1);
      } else {
        PassesKeeps(j, names[1..], turns);
      }
    } else if turns[0].present {
      GatePassesOver(turns[0].next, names, turns[1..], k);
      if m :| 0 <= m < |turns[1..]| && !turns[1..][m].present {
        assert !turns[m + 1].present;
      }
    }
  }

  lemma {:induction false} PassesKeeps(j: Job, names: seq<Name>, turns: seq<Turn>)
    requires AcksGrow(j, turns)
    ensures j.acked <= GateRun(j, names, turns).job.acked || exists m :: 0 <= m < |turns| && !turns[m].present
    decreases |names| + |turns|
  {
    if names != [] {
      if names[0] in j.acked {
        PassesKeeps(j, names[1..], turns);
      } else if !GateBroken(j) && turns != [] && turns[0].present && !turns[0].ctxDone {
        PassesKeeps(turns[0].next, names, turns[1..]);
        if m :| 0 <= m < |turns[1..]| && !turns[1..][m].present {
          assert !turns[m + 1].present;
        }
      }
    }
  }

  // ---- the drain ----

  /** A wakeup of the drain: the job as the others left it, and the time. */
  datatype Wake = Wake(next: Job, now: nat)

  datatype DrainEnd = Drained | Fails | StillWaits

  /** The job and the time at which the loop tests its condition for the k-th time. */
  function DrainView(j: Job, now: nat, wakes: seq<Wake>, k: nat): (Job, nat)
    requires k <= |wakes|
  {
    if k == 0 then (CloseIntake(j), now) else (wakes[k - 1].next, wakes[k - 1].now)
  }
}
