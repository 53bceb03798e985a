/** What the callers of a fetch learn from its result, over every run of the worker. */
module ProvisionCallers {
  import opened Prelude
  import opened Provision
  import opened ProvisionProof

  // ---- whose result a caller is told ----

  /** The run has its result. */
  predicate Settled(pc: Pc) {
    pc.Finished? || pc.Unlisted? || pc.Closed?
  }

  lemma NextHolds(s: Sys, a: Action, sum: Bytes -> string, c: nat, r: nat)
    requires Next(s, a, sum).Some? && !a.Crash?
    ensures var t := Next(s, a, sum).value;
            && (c in s.callers ==> c in t.callers && t.callers[c].run == s.callers[c].run)
            && (r in s.runs ==> r in t.runs)
            && (r in s.runs && Settled(s.runs[r]) ==>
                  Settled(t.runs[r]) && t.runs[r].m == s.runs[r].m && t.runs[r].ok == s.runs[r].ok)
  {
  }

  /** Until a crash a caller stays with its run, and a run with its result. */
  lemma {:induction false} ExecHolds(s: Sys, run: seq<Action>, sum: Bytes -> string, c: nat, r: nat)
    requires Exec(s, run, sum).Some? && Crash !in run
    ensures var t := Exec(s, run, sum).value;
            && (c in s.callers ==> c in t.callers && t.callers[c].run == s.callers[c].run)
            && (r in s.runs ==> r in t.runs)
            && (r in s.runs && Settled(s.runs[r]) ==>
                  Settled(t.runs[r]) && t.runs[r].m == s.runs[r].m && t.runs[r].ok == s.runs[r].ok)
    decreases |run|
  {
    if run != [] {
      ExecHolds(s, run[..|run| - 1], sum, c, r);
      NextHolds(Exec(s, run[..|run| - 1], sum).value, run[|run| - 1], sum, c, r);
    }
  }

  /** The run that a call is tied to: the listed fetch, or a new one. */
  function RunOf(s: Sys, id: nat): nat {
    if s.flight.Some? then s.flight.value else id
  }

  /**
   * A caller that arrives while a fetch is listed starts none and waits for that fetch, one that
   * arrives while none is listed for its own; unless it gives up, it is told the result which that
   * fetch came to.
   */
  lemma JoinersShare(s: Sys, c: nat, id: nat, post: seq<Action>, sum: Bytes -> string)
    requires Reachable(s, sum) && Next(s, Call(c, id), sum).Some? && Crash !in post
    requires Exec(Next(s, Call(c, id), sum).value, post, sum).Some?
    ensures s.flight.Some? ==> Next(s, Call(c, id), sum).value.runs == s.runs
    ensures var t := Exec(Next(s, Call(c, id), sum).value, post, sum).value;
            && c in t.callers && t.callers[c].run == RunOf(s, id) && RunOf(s, id) in t.runs
            && (t.callers[c].Returned? && t.callers[c].result.Some? ==>
                  t.runs[RunOf(s, id)].Closed? && t.callers[c].result == Some(t.runs[RunOf(s, id)].ok))
  {
    ReachableKeeps(s, sum);
    var u := Next(s, Call(c, id), sum).value;
    NextKeeps(s, Call(c, id), sum);
    ExecKeeps(u, post, sum);
    ExecHolds(u, post, sum, c, RunOf(s, id));
    var t := Exec(u, post, sum).value;
    if t.callers[c].Returned? && t.callers[c].result.Some? {
      assert Answered(t, c);
    }
  }

  /** The result, once there, is what every caller of that fetch is told, whenever it asks. */
  lemma ResultStays(s: Sys, r: nat, c: nat, post: seq<Action>, sum: Bytes -> string)
    requires Reachable(s, sum) && Crash !in post && Exec(s, post, sum).Some?
    requires r in s.runs && s.runs[r].Finished?
    ensures var t := Exec(s, post, sum).value;
            c in t.callers && t.callers[c].run == r && t.callers[c].Returned? && t.callers[c].result.Some? ==>
              t.callers[c].result == Some(s.runs[r].ok)
  {
    ReachableKeeps(s, sum);
    ExecKeeps(s, post, sum);
    ExecHolds(s, post, sum, c, r);
    var t := Exec(s, post, sum).value;
    if c in t.callers && t.callers[c].run == r && t.callers[c].Returned? && t.callers[c].result.Some? {
      assert Answered(t, c);
    }
  }

  // ---- what a success means ----

  /** A run that succeeded has every name of its manifest in the final dir. */
  ghost predicate Kept(pc: Pc, disk: Disk, served: seq<Manifest>) {
    Settled(pc) && pc.ok ==> pc.m in served && disk.final.Some? && HasNames(disk.final.value, pc.m)
  }

  ghost predicate AllKept(s: Sys) {
    Unambiguous(s.served) ==> forall r :: r in s.runs ==> Kept(s.runs[r], s.disk, s.served)
  }

  /** No step of a fetch takes a manifest's names out of the final dir. */
  lemma StepHasNames(pc: Pc, disk: Disk, a: Answer, base: Option<Manifest>, b: Manifest, served: seq<Manifest>,
                     sum: Bytes -> string)
    requires Unambiguous(served) && DiskOk(disk, base, served, sum) && Progress(pc, disk, served, sum)
    requires FetchStep(pc, disk, a, sum).Some?
    requires b in served && disk.final.Some? && HasNames(disk.final.value, b)
    ensures var disk' := FetchStep(pc, disk, a, sum).value.1;
            disk'.final.Some? && HasNames(disk'.final.value, b)
  {
    if pc.Writing? && pc.warm && a.Wrote? {
      var d := disk.final.value;
      TmpWritten(d, pc.m, pc.i, d[Tmp(pc.m[pc.i].name)] + a.more, served, sum);
    } else if pc.Opening? && pc.warm {
      TmpWritten(disk.final.value, pc.m, pc.i, [], served, sum);
    } else if pc.Dropping? && pc.warm {
      TmpDropped(disk.final.value, pc.m, pc.i, served, sum);
    } else if pc.Placing? && pc.warm {
      FilePlaced(disk.final.value, pc.m, pc.i, served, sum);
    }
  }

  lemma StepSucceeds(pc: Pc, disk: Disk, a: Answer, base: Option<Manifest>, served: seq<Manifest>, sum: Bytes -> string)
    requires Unambiguous(served) && DiskOk(disk, base, served, sum) && Progress(pc, disk, served, sum)
    requires !pc.Asking? && FetchStep(pc, disk, a, sum).Some?
    ensures var (pc', disk') := FetchStep(pc, disk, a, sum).value; Kept(pc', disk', served)
  {
    if pc.Filling? {
      FillingKeeps(pc, disk, a, base, served, sum);
    } else if pc.Renaming? {
      RenamingKeeps(pc, disk, a, base, served, sum);
    } else {
      OthersFail(pc, disk, a, sum);
    }
  }

  /** Only the file loop and the final rename end a fetch with success. */
  lemma OthersFail(pc: Pc, disk: Disk, a: Answer, sum: Bytes -> string)
    requires !pc.Filling? && !pc.Renaming? && FetchStep(pc, disk, a, sum).Some?
    ensures var pc' := FetchStep(pc, disk, a, sum).value.0; Settled(pc') ==> !pc'.ok
  {
  }

  lemma FetchAllKept(s: Sys, r: nat, a: Answer, sum: Bytes -> string)
    requires Inv(s, sum) && AllKept(s) && Next(s, Fetch(r, a), sum).Some?
    ensures AllKept(Next(s, Fetch(r, a), sum).value)
  {
    var t := Next(s, Fetch(r, a), sum).value;
    if Unambiguous(t.served) {
      if s.runs[r].Asking? {
        if a.m.Some? {
          ServedGrows(s.served, a.m.value, sum);
        }
      } else {
        FetchOthersKept(s, r, a, sum);
      }
    }
  }

  lemma FetchOthersKept(s: Sys, r: nat, a: Answer, sum: Bytes -> string)
    requires Inv(s, sum) && AllKept(s) && Next(s, Fetch(r, a), sum).Some? && !s.runs[r].Asking?
    requires Unambiguous(s.served)
    ensures AllKept(Next(s, Fetch(r, a), sum).value)
  {
    var t := Next(s, Fetch(r, a), sum).value;
    var pc := s.runs[r];
    StepSucceeds(pc, s.disk, a, s.base, s.served, sum);
    assert t.served == s.served;
    forall q | q in t.runs
      ensures Kept(t.runs[q], t.disk, t.served)
    {
      if q != r && Settled(s.runs[q]) && s.runs[q].ok {
        StepHasNames(pc, s.disk, a, s.base, s.runs[q].m, s.served, sum);
      }
    }
  }

  lemma NextAllKept(s: Sys, a: Action, sum: Bytes -> string)
    requires Inv(s, sum) && AllKept(s) && Next(s, a, sum).Some?
    ensures AllKept(Next(s, a, sum).value)
  {
    if a.Fetch? {
      FetchAllKept(s, a.run, a.answer, sum);
    }
  }

  lemma {:induction false} RunAllKept(run: seq<Action>, sum: Bytes -> string)
    requires Exec(Init(), run, sum).Some?
    ensures AllKept(Exec(Init(), run, sum).value)
    decreases |run|
  {
    if run != [] {
      RunAllKept(run[..|run| - 1], sum);
      RunKeeps(run[..|run| - 1], sum);
      NextAllKept(Exec(Init(), run[..|run| - 1], sum).value, run[|run| - 1], sum);
    }
  }

  /** Some manifest received so far lists the name with another size. */
  ghost predicate Resized(served: seq<Manifest>, e: Entry) {
    exists o :: Listed(served, o) && o.name == e.name && o.size != e.size
  }

  /** The file is there, checked, and with its size unless the name has been listed with another one. */
  ghost predicate Present(s: Sys, e: Entry, sum: Bytes -> string) {
    && s.disk.final.Some? && e.name in s.disk.final.value
    && Verified(s.served, e.name, s.disk.final.value[e.name], sum)
    && (|s.disk.final.value[e.name]| == e.size || Resized(s.served, e))
  }

  lemma KeptIsPresent(s: Sys, m: Manifest, e: Entry, sum: Bytes -> string)
    requires Inv(s, sum) && Unambiguous(s.served) && m in s.served && e in m
    requires s.disk.final.Some? && HasNames(s.disk.final.value, m)
    ensures Present(s, e, sum)
  {
    var j :| 0 <= j < |m| && m[j] == e;
    assert Listed(s.served, e);
    assert !IsTmp(s.served, e.name);
    var o :| Listed(s.served, o) && o.name == e.name && |s.disk.final.value[e.name]| == o.size
      && EqualFold(sum(s.disk.final.value[e.name]), o.sha);
  }

  /**
   * A caller that is told of success finds every file of that fetch's manifest: not only when the
   * fetch ends, but whenever it looks, whatever later fetches do.
   */
  lemma SuccessIsComplete(s: Sys, sum: Bytes -> string, c: nat)
    requires Reachable(s, sum) && Unambiguous(s.served)
    requires c in s.callers && s.callers[c].Returned? && s.callers[c].result == Some(true)
    ensures s.callers[c].run in s.runs && s.runs[s.callers[c].run].Closed?
    ensures forall e :: e in s.runs[s.callers[c].run].m ==> Present(s, e, sum)
  {
    ReachableKeeps(s, sum);
    var run :| Exec(Init(), run, sum) == Some(s);
    RunAllKept(run, sum);
    assert Answered(s, c);
    var pc := s.runs[s.callers[c].run];
    assert Kept(pc, s.disk, s.served);
    forall e | e in pc.m
      ensures Present(s, e, sum)
    {
      KeptIsPresent(s, pc.m, e, sum);
    }
  }
}
