/**
 * What the names of a manifest have to be for a cold fetch to be complete: the exact condition, and a
 * fetch that succeeds with a file missing.
 */
module ProvisionNames {
  import opened Prelude
  import opened Text
  import opened Paths
  import opened Provision
  import opened ProvisionProof

  /** The dir after the first k files have been fetched and put in place. */
  function Assembled(m: Manifest, bodies: seq<Bytes>, k: nat): Dir
    requires k <= |m| && k <= |bodies|
  {
    if k == 0 then map[]
    else Placed(Assembled(m, bodies, k - 1)[Tmp(m[k - 1].name) := bodies[k - 1]], m[k - 1].name)
  }

  /** Fetching entry `e` writes or removes the name `n`. */
  predicate Touches(e: Entry, n: string) {
    e.name == n || Tmp(e.name) == n
  }

  lemma TmpDiffers(n: string)
    ensures Tmp(n) != n
  {
    assert |Tmp(n)| == |n| + |".fetching"|;
  }

  /** The last entry that touches a name decides what is under it. */
  ghost predicate LastIs(m: Manifest, k: nat, n: string, j: nat)
    requires k <= |m|
  {
    j < k && Touches(m[j], n) && forall i :: j < i < k ==> !Touches(m[i], n)
  }

  lemma {:induction false} AssembledAt(m: Manifest, bodies: seq<Bytes>, k: nat, n: string, j: nat)
    requires k <= |m| && k <= |bodies| && LastIs(m, k, n, j)
    ensures n in Assembled(m, bodies, k) <==> m[j].name == n
    ensures m[j].name == n ==> Assembled(m, bodies, k)[n] == bodies[j]
    decreases k
  {
    TmpDiffers(m[k - 1].name);
    if j < k - 1 {
      AssembledAt(m, bodies, k - 1, n, j);
    }
  }

  lemma {:induction false} LastExists(m: Manifest, k: nat, n: string, i: nat) returns (j: nat)
    requires i < k <= |m| && Touches(m[i], n)
    ensures i <= j && LastIs(m, k, n, j)
    decreases k
  {
    if Touches(m[k - 1], n) {
      j := k - 1;
    } else {
      j := LastExists(m, k - 1, n, i);
    }
  }

  /** Entry i is the last word on its name, or is followed by one of the same name and size. */
  ghost predicate Survives(m: Manifest, i: nat)
    requires i < |m|
  {
    exists j: nat :: LastIs(m, |m|, m[i].name, j) && m[j].name == m[i].name && m[j].size == m[i].size
  }

  /** No entry is overwritten by a later one of another size, or by the tmp file of a later one. */
  ghost predicate Lasting(m: Manifest) {
    forall i :: 0 <= i < |m| ==> Survives(m, i)
  }

  /** The assembled dir has every entry with its size exactly when every entry lasts. */
  lemma AssembledComplete(m: Manifest, bodies: seq<Bytes>)
    requires |bodies| == |m| && forall i :: 0 <= i < |m| ==> |bodies[i]| == m[i].size
    ensures Have(Assembled(m, bodies, |m|), m, |m|) <==> Lasting(m)
  {
    var d := Assembled(m, bodies, |m|);
    forall i | 0 <= i < |m|
      ensures Survives(m, i) <==> m[i].name in d && |d[m[i].name]| == m[i].size
    {
      var j := LastExists(m, |m|, m[i].name, i);
      AssembledAt(m, bodies, |m|, m[i].name, j);
      LastUnique(m, m[i].name, j);
    }
  }

  lemma LastUnique(m: Manifest, n: string, j: nat)
    requires LastIs(m, |m|, n, j)
    ensures forall i: nat :: LastIs(m, |m|, n, i) ==> i == j
  {
    forall i: nat | LastIs(m, |m|, n, i)
      ensures i == j
    {
    }
  }

  // ---- the step system assembles it ----

  predicate Fits(m: Manifest, bodies: seq<Bytes>, i: nat) {
    i <= |m| && |bodies| == i && forall j :: 0 <= j < i ==> |bodies[j]| == m[j].size
  }

  /** What is in the partial dir of a cold fetch, tmp file aside. */
  ghost predicate Filled(disk: Disk, m: Manifest, i: nat) {
    exists bodies :: Fits(m, bodies, i) && disk.partial == Some(Assembled(m, bodies, i))
  }

  ghost predicate FilledAround(disk: Disk, m: Manifest, i: nat, placing: bool) {
    && i < |m|
    && exists bodies, x :: Around(disk, m, i, placing, bodies, x)
  }

  ghost predicate Around(disk: Disk, m: Manifest, i: nat, placing: bool, bodies: seq<Bytes>, x: Bytes)
    requires i < |m|
  {
    && Fits(m, bodies, i) && (placing ==> |x| == m[i].size)
    && disk.partial == Some(Assembled(m, bodies, i)[Tmp(m[i].name) := x])
  }

  ghost predicate ColdInv(pc: Pc, disk: Disk) {
    match pc
    case Making(m) => disk.partial.None?
    case Filling(m, i, warm) => !warm ==> Filled(disk, m, i)
    case Opening(m, i, warm) => !warm ==> i < |m| && Filled(disk, m, i)
    case Writing(m, i, warm) => !warm ==> FilledAround(disk, m, i, false)
    case Placing(m, i, warm) => !warm ==> FilledAround(disk, m, i, true)
    case Renaming(m) => Filled(disk, m, |m|)
    case _ => true
  }

  lemma FilledStart(disk: Disk, m: Manifest)
    requires disk.partial == Some(map[])
    ensures Filled(disk, m, 0)
  {
    assert Fits(m, [], 0) && Assembled(m, [], 0) == map[];
  }

  lemma FilledWrite(disk: Disk, m: Manifest, i: nat, x: Bytes, disk': Disk)
    requires i < |m| && disk.partial.Some? && disk'.partial == Some(disk.partial.value[Tmp(m[i].name) := x])
    requires Filled(disk, m, i) || FilledAround(disk, m, i, false)
    ensures FilledAround(disk', m, i, false)
  {
    if Filled(disk, m, i) {
      var bodies :| Fits(m, bodies, i) && disk.partial == Some(Assembled(m, bodies, i));
      assert Around(disk', m, i, false, bodies, x);
    } else {
      var bodies, y :| Around(disk, m, i, false, bodies, y);
      assert Assembled(m, bodies, i)[Tmp(m[i].name) := y][Tmp(m[i].name) := x] == Assembled(m, bodies, i)[Tmp(m[i].name) := x];
      assert Around(disk', m, i, false, bodies, x);
    }
  }

  lemma {:induction false} AssembledPrefix(m: Manifest, bodies: seq<Bytes>, more: seq<Bytes>, k: nat)
    requires k <= |m| && k <= |bodies| && bodies <= more
    ensures Assembled(m, more, k) == Assembled(m, bodies, k)
    decreases k
  {
    if k > 0 {
      AssembledPrefix(m, bodies, more, k - 1);
    }
  }

  lemma FilledPlace(disk: Disk, m: Manifest, i: nat, disk': Disk)
    requires FilledAround(disk, m, i, true) && Tmp(m[i].name) in disk.partial.value
    requires disk'.partial == Some(Placed(disk.partial.value, m[i].name))
    ensures Filled(disk', m, i + 1)
  {
    var bodies, x :| Around(disk, m, i, true, bodies, x);
    var more := bodies + [x];
    AssembledPrefix(m, bodies, more, i);
    assert Fits(m, more, i + 1);
    assert disk'.partial == Some(Assembled(m, more, i + 1));
  }

  /** The checked file is as long as its entry says. */
  lemma FilledCheck(disk: Disk, m: Manifest, i: nat)
    requires FilledAround(disk, m, i, false)
    requires disk.partial.Some? && Tmp(m[i].name) in disk.partial.value && |disk.partial.value[Tmp(m[i].name)]| == m[i].size
    ensures FilledAround(disk, m, i, true)
  {
    var bodies, x :| Around(disk, m, i, false, bodies, x);
    assert Around(disk, m, i, true, bodies, x);
  }

  lemma ColdKeeps(pc: Pc, disk: Disk, a: Answer, sum: Bytes -> string)
    requires ColdInv(pc, disk) && FetchStep(pc, disk, a, sum).Some?
    ensures var (pc', disk') := FetchStep(pc, disk, a, sum).value; ColdInv(pc', disk')
  {
    var (pc', disk') := FetchStep(pc, disk, a, sum).value;
    match pc {
      case Making(m) => ColdMade(pc, disk, a, sum);
      case Opening(m, i, warm) =>
        if !warm && pc'.Writing? {
          FilledWrite(disk, m, i, [], disk');
        }
      case Writing(m, i, warm) =>
        if !warm {
          ColdWrites(pc, disk, a, sum);
        }
      case Placing(m, i, warm) =>
        if !warm && pc'.Filling? {
          FilledPlace(disk, m, i, disk');
        }
      case Filling(_, _, _) =>
      case Asking =>
      case Looking(_) =>
      case Cleaning(_) =>
      case Dropping(_, _, _) =>
      case Renaming(_) =>
    }
  }

  lemma ColdMade(pc: Pc, disk: Disk, a: Answer, sum: Bytes -> string)
    requires pc.Making? && ColdInv(pc, disk) && FetchStep(pc, disk, a, sum).Some?
    ensures var (pc', disk') := FetchStep(pc, disk, a, sum).value; ColdInv(pc', disk')
  {
    var (pc', disk') := FetchStep(pc, disk, a, sum).value;
    if pc'.Filling? {
      FilledStart(disk', pc.m);
    }
  }

  lemma ColdWrites(pc: Pc, disk: Disk, a: Answer, sum: Bytes -> string)
    requires pc.Writing? && !pc.warm && ColdInv(pc, disk) && FetchStep(pc, disk, a, sum).Some?
    ensures var (pc', disk') := FetchStep(pc, disk, a, sum).value; ColdInv(pc', disk')
  {
    var (pc', disk') := FetchStep(pc, disk, a, sum).value;
    if a.Wrote? {
      FilledWrite(disk, pc.m, pc.i, disk.partial.value[Tmp(pc.m[pc.i].name)] + a.more, disk');
    } else if pc'.Placing? {
      FilledCheck(disk, pc.m, pc.i);
    }
  }

  ghost predicate RunsCold(s: Sys) {
    forall r :: r in s.runs && Active(s.runs[r]) ==> ColdInv(s.runs[r], s.disk)
  }

  lemma ColdNext(s: Sys, a: Action, sum: Bytes -> string)
    requires FlightInv(s) && RunsCold(s) && Next(s, a, sum).Some?
    ensures RunsCold(Next(s, a, sum).value)
  {
    if a.Fetch? {
      ColdFetch(s, a.run, a.answer, sum);
    }
  }

  lemma ColdFetch(s: Sys, r: nat, answer: Answer, sum: Bytes -> string)
    requires FlightInv(s) && RunsCold(s) && Next(s, Fetch(r, answer), sum).Some?
    ensures RunsCold(Next(s, Fetch(r, answer), sum).value)
  {
    var t := Next(s, Fetch(r, answer), sum).value;
    ColdKeeps(s.runs[r], s.disk, answer, sum);
    OnlyOneRuns(s, t, r);
  }

  lemma {:induction false} RunCold(run: seq<Action>, sum: Bytes -> string)
    requires Exec(Init(), run, sum).Some?
    ensures RunsCold(Exec(Init(), run, sum).value)
    decreases |run|
  {
    if run != [] {
      RunCold(run[..|run| - 1], sum);
      RunKeeps(run[..|run| - 1], sum);
      ColdNext(Exec(Init(), run[..|run| - 1], sum).value, run[|run| - 1], sum);
    }
  }

  /**
   * A cold fetch that has assembled its dir leaves every manifest entry present with its size if and
   * only if every entry lasts: whatever its names are, and with no assumption on other manifests.
   */
  lemma ColdComplete(s: Sys, r: nat, t: Sys, sum: Bytes -> string)
    requires Reachable(s, sum) && r in s.runs && s.runs[r].Renaming? && Next(s, Fetch(r, Done(true)), sum) == Some(t)
    ensures t.runs[r] == Finished(s.runs[r].m, true) && t.disk.final.Some?
    ensures Have(t.disk.final.value, s.runs[r].m, |s.runs[r].m|) <==> Lasting(s.runs[r].m)
  {
    var run :| Exec(Init(), run, sum) == Some(s);
    RunCold(run, sum);
    var m := s.runs[r].m;
    assert ColdInv(s.runs[r], s.disk);
    var bodies :| Fits(m, bodies, |m|) && s.disk.partial == Some(Assembled(m, bodies, |m|));
    AssembledComplete(m, bodies);
  }

  // ---- a fetch that succeeds with a file missing ----

  lemma PlainIsSafe(n: string)
    requires Plain(n)
    ensures SafeRelPath(n) && SafeRelPath(Tmp(n))
  {
    CleanPlain(n);
    CleanPlain(Tmp(n));
    NotUpwards(n);
    NotUpwards(Tmp(n));
  }

  lemma NotUpwards(n: string)
    requires '/' !in n
    ensures !("../" <= n)
  {
    assert "../"[2] == '/';
  }

  lemma CleanPlain(n: string)
    requires Plain(n)
    ensures Clean(n) == n && Tmp(n)[0] == n[0] && Plain(Tmp(n))
  {
    assert Split(n, '/') == [n];
    assert [n][..0] == [];
    assert Kept([n], false) == [n];
    assert |Tmp(n)| > 9;
  }

  /** The first caller's fetch at `pc`. */
  function At(pc: Pc, disk: Disk, m: Manifest): Sys {
    Sys(Some(0), map[0 := pc], map[0 := Waiting(0)], disk, [m], None)
  }

  lemma Goes(run: seq<Action>, pc: Pc, disk: Disk, m: Manifest, a: Answer, to: Pc, disk': Disk, sum: Bytes -> string)
    returns (run': seq<Action>)
    requires Exec(Init(), run, sum) == Some(At(pc, disk, m)) && !pc.Renaming? && !to.Looking?
    requires FetchStep(pc, disk, a, sum) == Some((to, disk'))
    ensures Exec(Init(), run', sum) == Some(At(to, disk', m))
  {
    run' := run + [Fetch(0, a)];
    assert run'[..|run'| - 1] == run;
    assert Next(At(pc, disk, m), Fetch(0, a), sum).value.runs == map[0 := to];
  }

  function Cold(d: Dir): Disk {
    Disk(None, Some(d))
  }

  lemma WriteFile(run: seq<Action>, m: Manifest, i: nat, d: Dir, x: Bytes, sum: Bytes -> string)
    returns (run': seq<Action>)
    requires i < |m| && SafeRelPath(m[i].name)
    requires Exec(Init(), run, sum) == Some(At(Filling(m, i, false), Cold(d), m))
    ensures Exec(Init(), run', sum) == Some(At(Writing(m, i, false), Cold(d[Tmp(m[i].name) := x]), m))
  {
    var t := Tmp(m[i].name);
    var none: Bytes := [];
    run' := Goes(run, Filling(m, i, false), Cold(d), m, Done(true), Opening(m, i, false), Cold(d), sum);
    run' := Goes(run', Opening(m, i, false), Cold(d), m, Done(true), Writing(m, i, false), Cold(d[t := none]), sum);
    assert none + x == x;
    assert d[t := none][t := x] == d[t := x];
    run' := Goes(run', Writing(m, i, false), Cold(d[t := none]), m, Wrote(x), Writing(m, i, false), Cold(d[t := x]), sum);
  }

  lemma CopyFile(run: seq<Action>, m: Manifest, i: nat, d: Dir, x: Bytes, sum: Bytes -> string)
    returns (run': seq<Action>)
    requires i < |m| && SafeRelPath(m[i].name) && Matches(m[i], x, sum)
    requires Exec(Init(), run, sum) == Some(At(Filling(m, i, false), Cold(d), m))
    ensures Exec(Init(), run', sum)
         == Some(At(Filling(m, i + 1, false), Cold(Placed(d[Tmp(m[i].name) := x], m[i].name)), m))
  {
    var t := Tmp(m[i].name);
    run' := WriteFile(run, m, i, d, x, sum);
    run' := Goes(run', Writing(m, i, false), Cold(d[t := x]), m, Done(true), Placing(m, i, false), Cold(d[t := x]), sum);
    run' := Goes(run', Placing(m, i, false), Cold(d[t := x]), m, Done(true), Filling(m, i + 1, false),
                 Cold(Placed(d[t := x], m[i].name)), sum);
  }

  lemma Starts(m: Manifest, sum: Bytes -> string) returns (run: seq<Action>)
    ensures Exec(Init(), run, sum) == Some(At(Filling(m, 0, false), Cold(map[]), m))
  {
    var calls := [Call(0, 0)];
    assert calls[..0] == [];
    var asked := Sys(Some(0), map[0 := Asking], map[0 := Waiting(0)], Disk(None, None), [], None);
    assert Exec(Init(), calls, sum) == Some(asked);
    run := calls + [Fetch(0, Got(Some(m)))];
    assert run[..1] == calls;
    var looking := At(Looking(m), Disk(None, None), m);
    assert asked.runs[0 := Looking(m)] == looking.runs && asked.served + [m] == looking.served;
    assert Next(asked, Fetch(0, Got(Some(m))), sum) == Some(looking);
    run := Goes(run, Looking(m), Disk(None, None), m, Seen, Cleaning(m), Disk(None, None), sum);
    run := Goes(run, Cleaning(m), Disk(None, None), m, Left(None), Making(m), Disk(None, None), sum);
    run := Goes(run, Making(m), Disk(None, None), m, Done(true), Filling(m, 0, false), Cold(map[]), sum);
  }

  /** The file loop places every delivered file. */
  lemma {:induction false} Fills(m: Manifest, bodies: seq<Bytes>, k: nat, sum: Bytes -> string) returns (run: seq<Action>)
    requires k <= |m| && Delivered(m, bodies, sum)
    ensures Exec(Init(), run, sum) == Some(At(Filling(m, k, false), Cold(Assembled(m, bodies, k)), m))
    decreases k
  {
    if k == 0 {
      run := Starts(m, sum);
    } else {
      run := Fills(m, bodies, k - 1, sum);
      run := CopyFile(run, m, k - 1, Assembled(m, bodies, k - 1), bodies[k - 1], sum);
    }
  }

  predicate Delivered(m: Manifest, bodies: seq<Bytes>, sum: Bytes -> string) {
    |bodies| == |m| && forall i :: 0 <= i < |m| ==> SafeRelPath(m[i].name) && Matches(m[i], bodies[i], sum)
  }

  /**
   * Every manifest of safe names can be fetched: where all its files are delivered as listed, a cold
   * fetch puts them in place, and its caller is told of success.
   */
  lemma ColdDelivers(m: Manifest, bodies: seq<Bytes>, sum: Bytes -> string) returns (run: seq<Action>, s: Sys)
    requires Delivered(m, bodies, sum)
    ensures Exec(Init(), run, sum) == Some(s)
    ensures s.callers == map[0 := Returned(0, Some(true))] && s.flight.None?
    ensures s.runs == map[0 := Closed(m, true)] && s.disk == Disk(Some(Assembled(m, bodies, |m|)), None)
  {
    var d := Assembled(m, bodies, |m|);
    run := Fills(m, bodies, |m|, sum);
    run := Goes(run, Filling(m, |m|, false), Cold(d), m, Done(true), Renaming(m), Cold(d), sum);
    run, s := Told(run, m, d, sum);
  }

  /** From the last rename to the caller. */
  lemma Told(run: seq<Action>, m: Manifest, d: Dir, sum: Bytes -> string) returns (run': seq<Action>, s: Sys)
    requires Exec(Init(), run, sum) == Some(At(Renaming(m), Cold(d), m))
    ensures Exec(Init(), run', sum) == Some(s) && s.flight.None?
    ensures s.callers == map[0 := Returned(0, Some(true))]
    ensures s.runs == map[0 := Closed(m, true)] && s.disk == Disk(Some(d), None)
  {
    var renamed := Sys(Some(0), map[0 := Finished(m, true)], map[0 := Waiting(0)], Disk(Some(d), None), [m], Some(m));
    var unlisted := renamed.(flight := None, runs := map[0 := Unlisted(m, true)]);
    var closed := unlisted.(runs := map[0 := Closed(m, true)]);
    s := closed.(callers := map[0 := Returned(0, Some(true))]);
    assert Next(At(Renaming(m), Cold(d), m), Fetch(0, Done(true)), sum).value.runs == renamed.runs;
    run' := StepTo(run, At(Renaming(m), Cold(d), m), Fetch(0, Done(true)), renamed, sum);
    assert renamed.runs[0 := Unlisted(m, true)] == unlisted.runs;
    run' := StepTo(run', renamed, Unlist(0), unlisted, sum);
    assert unlisted.runs[0 := Closed(m, true)] == closed.runs;
    run' := StepTo(run', unlisted, CloseDone(0), closed, sum);
    assert closed.callers[0 := Returned(0, Some(true))] == s.callers;
    run' := StepTo(run', closed, Receive(0), s, sum);
  }

  lemma StepTo(run: seq<Action>, s: Sys, a: Action, s': Sys, sum: Bytes -> string) returns (run': seq<Action>)
    requires Exec(Init(), run, sum) == Some(s) && Next(s, a, sum) == Some(s')
    ensures Exec(Init(), run', sum) == Some(s')
  {
    run' := run + [a];
    assert run'[..|run'| - 1] == run;
  }

  /** A manifest that lists a file under the tmp name of the next one. */
  function Clash(n: string, x: Bytes, y: Bytes, sum: Bytes -> string): Manifest {
    [Entry(Tmp(n), |x|, sum(x)), Entry(n, |y|, sum(y))]
  }

  /** Its fetch succeeds, and the first file is not there. */
  lemma ClashLoses(n: string, x: Bytes, y: Bytes, sum: Bytes -> string) returns (run: seq<Action>, s: Sys)
    requires Plain(n)
    ensures Exec(Init(), run, sum) == Some(s)
    ensures s.callers == map[0 := Returned(0, Some(true))]
    ensures s.runs == map[0 := Closed(Clash(n, x, y, sum), true)]
    ensures s.disk.final == Some(map[n := y]) && Clash(n, x, y, sum)[0].name !in s.disk.final.value
  {
    var m := Clash(n, x, y, sum);
    PlainIsSafe(n);
    run, s := ColdDelivers(m, [x, y], sum);
    TmpDiffers(n);
    TmpDiffers(Tmp(n));
    assert Assembled(m, [x, y], 1) == Placed(map[][Tmp(Tmp(n)) := x], Tmp(n)) == map[Tmp(n) := x];
    assert Placed(map[Tmp(n) := x][Tmp(n) := y], n) == map[n := y];
  }
}
