/**
 * The job object as the Go program has it: fields updated in place, one method per critical
 * section. Each method is proved against the function of JobSections that specifies it.
 */
module JobMonitor {
  import opened Prelude
  import opened Protocol
  import L = JobLoops
  import S = JobSections

  class Job {
    var state: JobState
    var failing: bool
    var cancelState: Option<JobState>
    var acked: set<S.Name>
    var pending: int
    var intakeClosed: bool
    var queueClosed: bool
    var exited: bool
    var clients: int
    var clientGone: nat
    var terminalAt: nat
    var cond: nat

    var queueMade: bool
    var queue: seq<S.Name>
    var queueChanClosed: bool
    ghost var queueFault: bool

    ghost function View(): S.Job
      reads this
    {
      S.Job(state, failing, cancelState, acked, pending, intakeClosed, queueClosed, exited,
            clients, clientGone, terminalAt, cond)
    }

    ghost function Q(): S.Queue
      reads this
    {
      S.Queue(queueMade, queue, queueChanClosed, queueFault)
    }

    constructor ()
      ensures View() == S.NEW_JOB && Q() == S.NO_QUEUE
    {
      state, failing, cancelState := Pending, false, None;
      acked, pending, intakeClosed, queueClosed, exited := {}, 0, false, false, false;
      clients, clientGone, terminalAt, cond := 0, 0, 0, 0;
      queueMade, queue, queueChanClosed, queueFault := false, [], false, false;
    }

    method Broadcast()
      modifies this`cond
      ensures View() == S.Broadcast(old(View()))
    {
      cond := cond + 1;
    }

    method SetState(s: JobState, now: nat)
      modifies this
      ensures View() == S.SetState(old(View()), s, now) && Q() == old(Q())
    {
      if IsTerminal(state) {
        return;
      }
      state := s;
      if s == Running && clients == 0 {
        clientGone := now;
      }
      Broadcast();
    }

    method Finalize(s: JobState, now: nat) returns (closeQueue: bool)
      modifies this
      ensures (View(), closeQueue) == S.Finalize(old(View()), old(queueMade), s, now) && Q() == old(Q())
    {
      if IsTerminal(state) {
        return false;
      }
      state := s;
      terminalAt := now;
      intakeClosed := true;
      closeQueue := queueMade && !queueClosed;
      if closeQueue {
        queueClosed := true;
      }
      Broadcast();
    }

    method AbortFail()
      modifies this
      ensures View() == S.AbortFail(old(View())) && Q() == old(Q())
    {
      if failing || IsTerminal(state) {
        return;
      }
      failing := true;
      Broadcast();
    }

    method RequestCancel(target: JobState)
      modifies this
      ensures View() == S.RequestCancel(old(View()), target) && Q() == old(Q())
    {
      if cancelState != None || IsTerminal(state) {
        return;
      }
      cancelState := Some(target);
      Broadcast();
    }

    method Verdict(drainErr: bool, code: int) returns (final: JobState)
      ensures final == S.Verdict(View(), drainErr, code)
    {
      final := Completed;
      if cancelState.Some? {
        final := cancelState.value;
      } else if failing || drainErr || code != 0 {
        final := Failed;
      }
    }

    method ClientIn()
      modifies this
      ensures View() == S.ClientIn(old(View())) && Q() == old(Q())
    {
      clients := clients + 1;
    }

    method ClientOut(now: nat)
      modifies this
      ensures View() == S.ClientOut(old(View()), now) && Q() == old(Q())
    {
      clients := clients - 1;
      if clients == 0 {
        clientGone := now;
      }
    }

    /** cond.Wait: the lock is released, and `j` is what the others have made of the fields meanwhile. */
    method Sleep(j: S.Job)
      modifies this
      ensures View() == j && Q() == old(Q())
    {
      SleepFlags(j);
      SleepCounts(j);
    }

    method SleepFlags(j: S.Job)
      modifies this`state, this`failing, this`cancelState, this`intakeClosed, this`queueClosed, this`exited
      ensures state == j.state && failing == j.failing && cancelState == j.cancelState
      ensures intakeClosed == j.intakeClosed && queueClosed == j.queueClosed && exited == j.exited
    {
      state, failing, cancelState := j.state, j.failing, j.cancelState;
      intakeClosed, queueClosed, exited := j.intakeClosed, j.queueClosed, j.exited;
    }

    method SleepCounts(j: S.Job)
      modifies this`acked, this`pending, this`clients, this`clientGone, this`terminalAt, this`cond
      ensures acked == j.acked && pending == j.pending && clients == j.clients
      ensures clientGone == j.clientGone && terminalAt == j.terminalAt && cond == j.signals
    {
      acked, pending, clients := j.acked, j.pending, j.clients;
      clientGone, terminalAt, cond := j.clientGone, j.terminalAt, j.signals;
    }

    /**
     * gateWait: the loop over the names and the loop around the wait. `turns` is what the out dir and
     * the client's context look like at each pass, and what happens in each sleep.
     */
    method GateWait(names: seq<S.Name>, turns: seq<L.Turn>) returns (end: L.GateEnd)
      modifies this
      ensures L.GateResult(end, View()) == L.GateRun(old(View()), names, turns)
    {
      ghost var goal := L.GateRun(View(), names, turns);
      var k := 0;
      var i := 0;
      while i < |names|
        invariant i <= |names| && k <= |turns|
        invariant goal == L.GateRun(View(), names[i..], turns[k..])
        decreases |names| - i, |turns| - k
      {
        var name := names[i];
        assert names[i..][1..] == names[i + 1..];
        if name in acked {
          i := i + 1;
        } else {
          if failing || cancelState.Some? || (IsTerminal(state) && state != Completed) {
            return L.Refuses;
          }
          if k == |turns| {
            return L.Waits;
          }
          var t := turns[k];
          assert turns[k..][1..] == turns[k + 1..];
          k := k + 1;
          if t.ctxDone {
            return L.Refuses;
          }
          if !t.present {
            i := i + 1;
          } else {
            Sleep(t.next);
          }
        }
      }
      end := L.Passes;
    }

    method Enqueue(name: S.Name, cap: nat) returns (overflow: bool)
      modifies this
      ensures (View(), Q(), overflow) == S.Enqueue(old(View()), old(Q()), name, cap)
    {
      if intakeClosed || failing || IsTerminal(state) || name in acked {
        return false;
      }
      overflow := false;
      if queueMade && queueChanClosed {
        queueFault := true;
      } else if queueMade && |queue| < cap {
        queue := queue + [name];
        pending := pending + 1;
      } else {
        overflow := true;
      }
    }

    method Resolve(name: S.Name, ok: bool)
      modifies this
      ensures View() == S.Resolve(old(View()), name, ok) && Q() == old(Q())
    {
      pending := pending - 1;
      if ok {
        acked := acked + {name};
      }
      Broadcast();
    }

    /**
     * drainUploads: closes intake and waits for the uploads, a failure or the deadline. It goes on
     * exactly as long as the loop's condition holds, and succeeds exactly when it stops with nothing
     * pending in a job that is not failing.
     */
    method DrainUploads(now: nat, deadline: nat, wakes: seq<L.Wake>) returns (end: L.DrainEnd, k: nat)
      modifies this
      ensures k <= |wakes| && View() == L.DrainView(old(View()), now, wakes, k).0
      ensures forall i :: 0 <= i < k ==>
                var (j, t) := L.DrainView(old(View()), now, wakes, i); S.DrainHolds(j, t, deadline)
      ensures end.StillWaits? <==> S.DrainHolds(View(), L.DrainView(old(View()), now, wakes, k).1, deadline)
      ensures end.StillWaits? ==> k == |wakes|
      ensures !end.StillWaits? ==> (end.Drained? <==> !failing && pending <= 0)
    {
      ghost var start := View();
      intakeClosed := true;
      var time := now;
      k := 0;
      while pending > 0 && !failing && time < deadline
        invariant k <= |wakes| && (View(), time) == L.DrainView(start, now, wakes, k)
        invariant forall i :: 0 <= i < k ==>
          var (j, t) := L.DrainView(start, now, wakes, i); S.DrainHolds(j, t, deadline)
        decreases |wakes| - k
      {
        if k == |wakes| {
          return L.StillWaits, k;
        }
        time := wakes[k].now;
        Sleep(wakes[k].next);
        k := k + 1;
      }
      end := if failing || pending > 0 then L.Fails else L.Drained;
    }
  }
}
