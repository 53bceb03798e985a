/** What provisioning keeps at every step, and what its callers learn. */
module ProvisionProof {
  import opened Prelude
  import opened Provision

  // ---- the shared fetch ----

  /** The listed run is active, and no other is; answers come from closed runs. */
  ghost predicate FlightInv(s: Sys) {
    && (s.flight.Some? ==> s.flight.value in s.runs && Active(s.runs[s.flight.value]))
    && (forall r :: r in s.runs && Active(s.runs[r]) ==> s.flight == Some(r))
    && (forall c :: c in s.callers ==> s.callers[c].run in s.runs)
    && (forall c :: c in s.callers && s.callers[c].Returned? && s.callers[c].result.Some? ==>
          Answered(s, c))
  }

  /** The caller was told the recorded result of the run it waited for. */
  predicate Answered(s: Sys, c: nat)
    requires c in s.callers && s.callers[c].Returned? && s.callers[c].result.Some?
  {
    s.callers[c].run in s.runs && s.runs[s.callers[c].run].Closed?
    && s.runs[s.callers[c].run].ok == s.callers[c].result.value
  }

  lemma FlightKeeps(s: Sys, a: Action, sum: Bytes -> string)
    requires FlightInv(s) && Next(s, a, sum).Some?
    ensures FlightInv(Next(s, a, sum).value)
  {
    match a {
      case Call(c, id) =>
      case GiveUp(c) =>
      case Receive(c) =>
      case Fetch(r, answer) => FetchRuns(s, r, answer, sum);
      case Unlist(r) => EndFlight(s, a, sum);
      case CloseDone(r) => EndFlight(s, a, sum);
      case Crash =>
    }
  }

  lemma EndFlight(s: Sys, a: Action, sum: Bytes -> string)
    requires FlightInv(s) && Next(s, a, sum).Some? && (a.Unlist? || a.CloseDone?)
    ensures FlightInv(Next(s, a, sum).value)
  {
    var t := Next(s, a, sum).value;
    assert t.runs == s.runs[a.run := t.runs[a.run]] && !Active(t.runs[a.run]);
  }

  lemma FetchRuns(s: Sys, r: nat, answer: Answer, sum: Bytes -> string)
    requires FlightInv(s) && Next(s, Fetch(r, answer), sum).Some?
    ensures FlightInv(Next(s, Fetch(r, answer), sum).value)
  {
    var t := Next(s, Fetch(r, answer), sum).value;
    assert Active(s.runs[r]) && Active(t.runs[r]);
    assert t.runs == s.runs[r := t.runs[r]];
  }

  // ---- files ----

  ghost predicate Listed(served: seq<Manifest>, e: Entry) {
    exists m :: m in served && e in m
  }

  ghost predicate IsTmp(served: seq<Manifest>, n: string) {
    exists e :: Listed(served, e) && n == Tmp(e.name)
  }

  ghost predicate Verified(served: seq<Manifest>, n: string, content: Bytes, sum: Bytes -> string) {
    exists e :: Listed(served, e) && e.name == n && |content| == e.size && EqualFold(sum(content), e.sha)
  }

  /** Names within a manifest differ, and no name is another one's tmp name. */
  ghost predicate Unambiguous(served: seq<Manifest>) {
    && (forall m :: m in served ==> DistinctNames(m))
    && (forall e :: Listed(served, e) ==> !IsTmp(served, e.name))
  }

  ghost predicate DistinctNames(m: Manifest) {
    forall i, j :: 0 <= i < j < |m| ==> m[i].name != m[j].name
  }

  /** Every file is some manifest's file, checked against its size and hash, or a tmp file. */
  ghost predicate DirOk(d: Dir, served: seq<Manifest>, sum: Bytes -> string) {
    forall n :: n in d ==> IsTmp(served, n) || Verified(served, n, d[n], sum)
  }

  /** The first i files of the manifest are there, with their sizes. */
  ghost predicate Have(d: Dir, m: Manifest, i: nat) {
    i <= |m| && forall j :: 0 <= j < i ==> m[j].name in d && |d[m[j].name]| == m[j].size
  }

  ghost predicate HasNames(d: Dir, m: Manifest) {
    forall i :: 0 <= i < |m| ==> m[i].name in d
  }

  ghost predicate DiskOk(disk: Disk, base: Option<Manifest>, served: seq<Manifest>, sum: Bytes -> string) {
    && (disk.final.Some? ==> DirOk(disk.final.value, served, sum))
    && (disk.partial.Some? ==> DirOk(disk.partial.value, served, sum))
    && (disk.final.Some? ==> base.Some? && base.value in served && HasNames(disk.final.value, base.value))
  }

  /** What a fetch has achieved when it stands at `pc`. */
  ghost predicate Progress(pc: Pc, disk: Disk, served: seq<Manifest>, sum: Bytes -> string) {
    match pc
    case Asking => true
    case Looking(m) => m in served
    case Cleaning(m) => m in served && disk.final.None?
    case Making(m) => m in served && disk.final.None? && disk.partial.None?
    case Filling(m, i, warm) => m in served && Into(disk, warm) && Have(Dest(disk, warm).value, m, i)
    case Opening(m, i, warm) => m in served && i < |m| && Into(disk, warm) && Have(Dest(disk, warm).value, m, i)
    case Writing(m, i, warm) =>
      && m in served && i < |m| && Into(disk, warm) && Have(Dest(disk, warm).value, m, i)
      && Tmp(m[i].name) in Dest(disk, warm).value
    case Dropping(m, i, warm) => m in served && i < |m| && Into(disk, warm) && Have(Dest(disk, warm).value, m, i)
    case Placing(m, i, warm) =>
      && m in served && i < |m| && Into(disk, warm) && Have(Dest(disk, warm).value, m, i)
      && Tmp(m[i].name) in Dest(disk, warm).value
      && Matches(m[i], Dest(disk, warm).value[Tmp(m[i].name)], sum)
    case Renaming(m) => m in served && Into(disk, false) && Have(disk.partial.value, m, |m|)
    case Finished(m, ok) => ok ==> disk.final.Some? && Have(disk.final.value, m, |m|)
    case Unlisted(_, _) => true
    case Closed(_, _) => true
  }

  /** A cold fetch fills the partial dir and there is no final one; a warm one tops up the final dir. */
  ghost predicate Into(disk: Disk, warm: bool) {
    if warm then disk.final.Some? else disk.partial.Some? && disk.final.None?
  }

  lemma TmpIsTmp(served: seq<Manifest>, m: Manifest, i: nat)
    requires m in served && i < |m|
    ensures IsTmp(served, Tmp(m[i].name)) && Listed(served, m[i])
  {
    assert Listed(served, m[i]);
  }

  /** Writing a tmp file disturbs no finished one. */
  lemma TmpWritten(d: Dir, m: Manifest, i: nat, x: Bytes, served: seq<Manifest>, sum: Bytes -> string)
    requires Unambiguous(served) && m in served && i < |m|
    ensures DirOk(d, served, sum) ==> DirOk(d[Tmp(m[i].name) := x], served, sum)
    ensures forall b: Manifest, k :: b in served && Have(d, b, k) ==> Have(d[Tmp(m[i].name) := x], b, k)
    ensures forall b: Manifest :: b in served && HasNames(d, b) ==> HasNames(d[Tmp(m[i].name) := x], b)
  {
    TmpIsTmp(served, m, i);
    NamesAreNotTmp(served, m, i);
  }

  lemma NamesAreNotTmp(served: seq<Manifest>, m: Manifest, i: nat)
    requires Unambiguous(served) && m in served && i < |m|
    ensures forall b: Manifest, j :: b in served && 0 <= j < |b| ==> b[j].name != Tmp(m[i].name)
  {
    TmpIsTmp(served, m, i);
    forall b: Manifest, j | b in served && 0 <= j < |b|
      ensures b[j].name != Tmp(m[i].name)
    {
      TmpIsTmp(served, b, j);
    }
  }

  lemma TmpDropped(d: Dir, m: Manifest, i: nat, served: seq<Manifest>, sum: Bytes -> string)
    requires Unambiguous(served) && m in served && i < |m|
    ensures DirOk(d, served, sum) ==> DirOk(d - {Tmp(m[i].name)}, served, sum)
    ensures forall b: Manifest :: b in served && HasNames(d, b) ==> HasNames(d - {Tmp(m[i].name)}, b)
  {
    NamesAreNotTmp(served, m, i);
  }

  /** Renaming a checked tmp file onto its name adds that file and loses no other. */
  lemma FilePlaced(d: Dir, m: Manifest, i: nat, served: seq<Manifest>, sum: Bytes -> string)
    requires Unambiguous(served) && m in served && i < |m|
    requires Tmp(m[i].name) in d && Matches(m[i], d[Tmp(m[i].name)], sum)
    ensures DirOk(d, served, sum) ==> DirOk(Placed(d, m[i].name), served, sum)
    ensures Have(d, m, i) ==> Have(Placed(d, m[i].name), m, i + 1)
    ensures forall b: Manifest :: b in served && HasNames(d, b) ==> HasNames(Placed(d, m[i].name), b)
  {
    TmpIsTmp(served, m, i);
    NamesAreNotTmp(served, m, i);
    var p := Placed(d, m[i].name);
    assert DistinctNames(m);
    if DirOk(d, served, sum) {
      assert Verified(served, m[i].name, p[m[i].name], sum);
      forall n | n in p
        ensures IsTmp(served, n) || Verified(served, n, p[n], sum)
      {
        if n != m[i].name {
          assert n in d && p[n] == d[n];
        }
      }
    }
    if Have(d, m, i) {
      forall j | 0 <= j < i + 1
        ensures m[j].name in p && |p[m[j].name]| == m[j].size
      {
        if j < i {
          assert m[j].name != m[i].name && m[j].name != Tmp(m[i].name);
        }
      }
    }
  }

  /** A new manifest changes nothing for the files that are there. */
  lemma ServedGrows(served: seq<Manifest>, m: Manifest, sum: Bytes -> string)
    ensures forall d: Dir :: DirOk(d, served, sum) ==> DirOk(d, served + [m], sum)
    ensures Unambiguous(served + [m]) ==> Unambiguous(served)
  {
    var more := served + [m];
    forall e | Listed(served, e)
      ensures Listed(more, e)
    {
      var b :| b in served && e in b;
      assert b in more;
    }
    forall n | IsTmp(served, n)
      ensures IsTmp(more, n)
    {
      var e :| Listed(served, e) && n == Tmp(e.name);
      assert Listed(more, e);
    }
    forall d: Dir | DirOk(d, served, sum)
      ensures DirOk(d, more, sum)
    {
      forall n | n in d
        ensures IsTmp(more, n) || Verified(more, n, d[n], sum)
      {
        if !IsTmp(served, n) {
          var e :| Listed(served, e) && e.name == n && |d[n]| == e.size && EqualFold(sum(d[n]), e.sha);
          assert Listed(more, e);
        }
      }
    }
  }

  // ---- one operation of the fetch ----

  lemma OpeningKeeps(pc: Pc, disk: Disk, a: Answer, base: Option<Manifest>, served: seq<Manifest>, sum: Bytes -> string)
    requires Unambiguous(served) && DiskOk(disk, base, served, sum) && Progress(pc, disk, served, sum)
    requires pc.Opening? && FetchStep(pc, disk, a, sum).Some?
    ensures var (pc', disk') := FetchStep(pc, disk, a, sum).value;
            DiskOk(disk', base, served, sum) && Progress(pc', disk', served, sum)
  {
    TmpWritten(Dest(disk, pc.warm).value, pc.m, pc.i, [], served, sum);
  }

  lemma WritingKeeps(pc: Pc, disk: Disk, a: Answer, base: Option<Manifest>, served: seq<Manifest>, sum: Bytes -> string)
    requires Unambiguous(served) && DiskOk(disk, base, served, sum) && Progress(pc, disk, served, sum)
    requires pc.Writing? && FetchStep(pc, disk, a, sum).Some?
    ensures var (pc', disk') := FetchStep(pc, disk, a, sum).value;
            DiskOk(disk', base, served, sum) && Progress(pc', disk', served, sum)
  {
    if a.Wrote? {
      var d := Dest(disk, pc.warm).value;
      TmpWritten(d, pc.m, pc.i, d[Tmp(pc.m[pc.i].name)] + a.more, served, sum);
    }
  }

  lemma DroppingKeeps(pc: Pc, disk: Disk, a: Answer, base: Option<Manifest>, served: seq<Manifest>, sum: Bytes -> string)
    requires Unambiguous(served) && DiskOk(disk, base, served, sum) && Progress(pc, disk, served, sum)
    requires pc.Dropping? && FetchStep(pc, disk, a, sum).Some?
    ensures var (pc', disk') := FetchStep(pc, disk, a, sum).value;
            DiskOk(disk', base, served, sum) && Progress(pc', disk', served, sum)
  {
    TmpDropped(Dest(disk, pc.warm).value, pc.m, pc.i, served, sum);
  }

  lemma PlacingKeeps(pc: Pc, disk: Disk, a: Answer, base: Option<Manifest>, served: seq<Manifest>, sum: Bytes -> string)
    requires Unambiguous(served) && DiskOk(disk, base, served, sum) && Progress(pc, disk, served, sum)
    requires pc.Placing? && FetchStep(pc, disk, a, sum).Some?
    ensures var (pc', disk') := FetchStep(pc, disk, a, sum).value;
            DiskOk(disk', base, served, sum) && Progress(pc', disk', served, sum)
  {
    FilePlaced(Dest(disk, pc.warm).value, pc.m, pc.i, served, sum);
  }

  lemma FillingKeeps(pc: Pc, disk: Disk, a: Answer, base: Option<Manifest>, served: seq<Manifest>, sum: Bytes -> string)
    requires DiskOk(disk, base, served, sum) && Progress(pc, disk, served, sum)
    requires pc.Filling? && FetchStep(pc, disk, a, sum).Some?
    ensures var (pc', disk') := FetchStep(pc, disk, a, sum).value;
            DiskOk(disk', base, served, sum) && Progress(pc', disk', served, sum)
  {
    if pc.warm && pc.i < |pc.m| && NextEntry(pc.m, pc.i, pc.warm, disk, a.ok).Filling? {
      assert Have(disk.final.value, pc.m, pc.i + 1);
    }
  }

  /** Before the first file: nothing is in the final dir that was not there. */
  lemma StartKeeps(pc: Pc, disk: Disk, a: Answer, base: Option<Manifest>, served: seq<Manifest>, sum: Bytes -> string)
    requires DiskOk(disk, base, served, sum) && Progress(pc, disk, served, sum)
    requires (pc.Looking? || pc.Cleaning? || pc.Making?) && FetchStep(pc, disk, a, sum).Some?
    ensures var (pc', disk') := FetchStep(pc, disk, a, sum).value;
            DiskOk(disk', base, served, sum) && Progress(pc', disk', served, sum)
  {
  }

  /** Renaming the full partial dir makes the manifest the base of the final one. */
  lemma RenamingKeeps(pc: Pc, disk: Disk, a: Answer, base: Option<Manifest>, served: seq<Manifest>, sum: Bytes -> string)
    requires DiskOk(disk, base, served, sum) && Progress(pc, disk, served, sum)
    requires pc.Renaming? && FetchStep(pc, disk, a, sum).Some?
    ensures var (pc', disk') := FetchStep(pc, disk, a, sum).value;
            DiskOk(disk', if a.ok then Some(pc.m) else base, served, sum) && Progress(pc', disk', served, sum)
  {
  }

  // ---- all steps ----

  /** Holds at every step as long as the manifests are unambiguous. */
  ghost predicate FileInv(s: Sys, sum: Bytes -> string) {
    Unambiguous(s.served) ==>
      && DiskOk(s.disk, s.base, s.served, sum)
      && forall r :: r in s.runs && Active(s.runs[r]) ==> Progress(s.runs[r], s.disk, s.served, sum)
  }

  ghost predicate Inv(s: Sys, sum: Bytes -> string) {
    FlightInv(s) && FileInv(s, sum)
  }

  lemma AskedKeeps(s: Sys, r: nat, a: Answer, sum: Bytes -> string)
    requires Inv(s, sum) && r in s.runs && s.runs[r].Asking? && Next(s, Fetch(r, a), sum).Some?
    ensures FileInv(Next(s, Fetch(r, a), sum).value, sum)
  {
    var t := Next(s, Fetch(r, a), sum).value;
    if Unambiguous(t.served) && a.m.Some? {
      ServedGrows(s.served, a.m.value, sum);
      OnlyOneRuns(s, t, r);
    } else if Unambiguous(t.served) {
      OnlyOneRuns(s, t, r);
    }
  }

  /** Two runs are never active at once, so a step of one meets no progress of another. */
  lemma OnlyOneRuns(s: Sys, t: Sys, r: nat)
    requires FlightInv(s) && r in s.runs && Active(s.runs[r]) && r in t.runs && t.runs == s.runs[r := t.runs[r]]
    ensures forall q :: q in t.runs && Active(t.runs[q]) ==> q == r
  {
  }

  lemma FetchKeeps(s: Sys, r: nat, a: Answer, sum: Bytes -> string)
    requires Inv(s, sum) && Next(s, Fetch(r, a), sum).Some?
    ensures FileInv(Next(s, Fetch(r, a), sum).value, sum)
  {
    var t := Next(s, Fetch(r, a), sum).value;
    if s.runs[r].Asking? {
      AskedKeeps(s, r, a, sum);
    } else {
      assert !t.runs[r].Looking?;
      if Unambiguous(t.served) {
        var pc := s.runs[r];
        StepKeeps(pc, s.disk, a, s.base, s.served, sum);
        OnlyOneRuns(s, t, r);
      }
    }
  }

  lemma StepKeeps(pc: Pc, disk: Disk, a: Answer, base: Option<Manifest>, served: seq<Manifest>, sum: Bytes -> string)
    requires Unambiguous(served) && DiskOk(disk, base, served, sum) && Progress(pc, disk, served, sum)
    requires !pc.Asking? && FetchStep(pc, disk, a, sum).Some?
    ensures var (pc', disk') := FetchStep(pc, disk, a, sum).value;
            DiskOk(disk', if pc.Renaming? && a.Done? && a.ok then Some(pc.m) else base, served, sum)
            && Progress(pc', disk', served, sum)
  {
    match pc {
      case Looking(_) => StartKeeps(pc, disk, a, base, served, sum);
      case Cleaning(_) => StartKeeps(pc, disk, a, base, served, sum);
      case Making(_) => StartKeeps(pc, disk, a, base, served, sum);
      case Filling(_, _, _) => FillingKeeps(pc, disk, a, base, served, sum);
      case Opening(_, _, _) => OpeningKeeps(pc, disk, a, base, served, sum);
      case Writing(_, _, _) => WritingKeeps(pc, disk, a, base, served, sum);
      case Dropping(_, _, _) => DroppingKeeps(pc, disk, a, base, served, sum);
      case Placing(_, _, _) => PlacingKeeps(pc, disk, a, base, served, sum);
      case Renaming(_) => RenamingKeeps(pc, disk, a, base, served, sum);
    }
  }

  lemma NextKeeps(s: Sys, a: Action, sum: Bytes -> string)
    requires Inv(s, sum) && Next(s, a, sum).Some?
    ensures Inv(Next(s, a, sum).value, sum)
  {
    FlightKeeps(s, a, sum);
    match a {
      case Call(c, id) =>
      case GiveUp(c) =>
      case Receive(c) =>
      case Fetch(r, answer) => FetchKeeps(s, r, answer, sum);
      case Unlist(r) =>
      case CloseDone(r) =>
      case Crash =>
    }
  }

  lemma {:induction false} ExecKeeps(s: Sys, run: seq<Action>, sum: Bytes -> string)
    requires Inv(s, sum) && Exec(s, run, sum).Some?
    ensures Inv(Exec(s, run, sum).value, sum)
    decreases |run|
  {
    if run != [] {
      ExecKeeps(s, run[..|run| - 1], sum);
      NextKeeps(Exec(s, run[..|run| - 1], sum).value, run[|run| - 1], sum);
    }
  }

  lemma RunKeeps(run: seq<Action>, sum: Bytes -> string)
    requires Exec(Init(), run, sum).Some?
    ensures Inv(Exec(Init(), run, sum).value, sum)
  {
    ExecKeeps(Init(), run, sum);
  }

  lemma ReachableKeeps(s: Sys, sum: Bytes -> string)
    requires Reachable(s, sum)
    ensures Inv(s, sum)
  {
    var run :| Exec(Init(), run, sum) == Some(s);
    RunKeeps(run, sum);
  }

  // ---- the promises ----

  /** At most one fetch of a build runs at any time. */
  lemma OneFetch(s: Sys, sum: Bytes -> string, q: nat, r: nat)
    requires Reachable(s, sum)
    requires q in s.runs && Active(s.runs[q]) && r in s.runs && Active(s.runs[r])
    ensures q == r
  {
    ReachableKeeps(s, sum);
  }

  /**
   * The final dir, whenever it exists, even in the middle of a top-up, after a failed fetch or after
   * a crash, holds every file of the manifest it was assembled from; and whatever is in it under a
   * name that is no tmp name has the size and hash of some manifest line of that name.
   */
  lemma FinalIsWhole(s: Sys, sum: Bytes -> string)
    requires Reachable(s, sum) && Unambiguous(s.served) && s.disk.final.Some?
    ensures s.base.Some? && s.base.value in s.served && HasNames(s.disk.final.value, s.base.value)
    ensures forall n :: n in s.disk.final.value && !IsTmp(s.served, n) ==> Verified(s.served, n, s.disk.final.value[n], sum)
  {
    ReachableKeeps(s, sum);
  }
}
