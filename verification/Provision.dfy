/**
 * Provisioning the codec cache of one build (internal/workerd/provision.go), as a step system: the
 * callers, the shared fetch they wait for, and every file operation of that fetch. The worker may
 * crash at any step.
 */
module Provision {
  import opened Prelude
  import opened Paths

  type Bytes = seq<bv8>

  /** One line of the manifest. */
  datatype Entry = Entry(name: string, size: nat, sha: string)

  type Manifest = seq<Entry>

  type Dir = map<string, Bytes>

  /** `<build>` and `<build>.partial`. */
  datatype Disk = Disk(final: Option<Dir>, partial: Option<Dir>)

  /** Where a fetch stands. `warm` says that it tops up the final dir instead of filling the partial one. */
  datatype Pc =
    | Asking
    | Looking(m: Manifest)
    | Cleaning(m: Manifest)
    | Making(m: Manifest)
    | Filling(m: Manifest, i: nat, warm: bool)
    | Opening(m: Manifest, i: nat, warm: bool)
    | Writing(m: Manifest, i: nat, warm: bool)
    | Dropping(m: Manifest, i: nat, warm: bool)
    | Placing(m: Manifest, i: nat, warm: bool)
    | Renaming(m: Manifest)
    | Finished(m: Manifest, ok: bool)
    | Unlisted(m: Manifest, ok: bool)
    | Closed(m: Manifest, ok: bool)

  /** What the world answers to the operation that a fetch is at. */
  datatype Answer =
    | Got(m: Option<Manifest>)
    | Seen
    | Left(rest: Option<Dir>)
    | Done(ok: bool)
    | Wrote(more: Bytes)

  predicate Active(pc: Pc) {
    !pc.Unlisted? && !pc.Closed?
  }

  function Tmp(name: string): string {
    name + ".fetching"
  }

  /** safeRelPath */
  predicate SafeRelPath(p: string) {
    p != "" && p[0] != '/' && Clean(p) == p && p != ".." && !("../" <= p)
  }

  function Lower(c: char): char {
    if 'A' <= c <= 'Z' then c - 'A' + 'a' else c
  }

  /** strings.EqualFold on hex digits. */
  predicate EqualFold(a: string, b: string) {
    |a| == |b| && forall i :: 0 <= i < |a| ==> Lower(a[i]) == Lower(b[i])
  }

  /** Two sums are the same but for the case of their letters. */
  lemma EqualFoldMeans(a: string, b: string)
    ensures EqualFold(a, b) <==> |a| == |b| && forall i :: 0 <= i < |a| ==>
              a[i] == b[i] || (LetterCase(a[i]) && b[i] as int == a[i] as int + 32) || (LetterCase(b[i]) && a[i] as int == b[i] as int + 32)
  {
    if |a| == |b| {
      forall i | 0 <= i < |a|
        ensures Lower(a[i]) == Lower(b[i]) <==>
                  a[i] == b[i] || (LetterCase(a[i]) && b[i] as int == a[i] as int + 32)
                  || (LetterCase(b[i]) && a[i] as int == b[i] as int + 32)
      {
        SameLower(a[i], b[i]);
      }
    }
  }

  predicate LetterCase(c: char) {
    'A' <= c <= 'Z'
  }

  lemma SameLower(x: char, y: char)
    ensures Lower(x) == Lower(y) <==>
              x == y || (LetterCase(x) && y as int == x as int + 32) || (LetterCase(y) && x as int == y as int + 32)
  {
  }

  predicate Matches(e: Entry, content: Bytes, sum: Bytes -> string) {
    |content| == e.size && EqualFold(sum(content), e.sha)
  }

  /** The dir that a fetch writes into. */
  function Dest(disk: Disk, warm: bool): Option<Dir> {
    if warm then disk.final else disk.partial
  }

  function SetDest(disk: Disk, warm: bool, d: Dir): Disk {
    if warm then disk.(final := Some(d)) else disk.(partial := Some(d))
  }

  /** One operation of fetchCodecs, syncCodecs or fetchCodecFile. */
  function FetchStep(pc: Pc, disk: Disk, a: Answer, sum: Bytes -> string): Option<(Pc, Disk)> {
    match pc
    case Asking =>
      if !a.Got? then None
      else if a.m.Some? then Some((Looking(a.m.value), disk))
      else Some((Finished([], false), disk))
    case Looking(m) =>
      if !a.Seen? then None
      else Some((if disk.final.Some? then Filling(m, 0, true) else Cleaning(m), disk))
    case Cleaning(m) =>
      if !a.Left? then None
      else if a.rest.None? then Some((Making(m), disk.(partial := None)))
      else if disk.partial.None? || !SubDir(a.rest.value, disk.partial.value) then None
      else Some((Finished(m, false), disk.(partial := a.rest)))
    case Making(m) =>
      if !a.Done? then None
      else if a.ok then
        Some((Filling(m, 0, false), if disk.partial.Some? then disk else disk.(partial := Some(map[]))))
      else Some((Finished(m, false), disk))
    case Filling(m, i, warm) =>
      if !a.Done? then None else Some((NextEntry(m, i, warm, disk, a.ok), disk))
    case Opening(m, i, warm) =>
      if !a.Done? || i >= |m| then None
      else if !a.ok || Dest(disk, warm).None? then Some((Finished(m, false), disk))
      else Some((Writing(m, i, warm), SetDest(disk, warm, Dest(disk, warm).value[Tmp(m[i].name) := []])))
    case Writing(m, i, warm) =>
      if i >= |m| || Dest(disk, warm).None? || Tmp(m[i].name) !in Dest(disk, warm).value then None
      else
        var d := Dest(disk, warm).value;
        var content := d[Tmp(m[i].name)];
        if a.Wrote? then Some((pc, SetDest(disk, warm, d[Tmp(m[i].name) := content + a.more])))
        else if !a.Done? then None
        else if a.ok && Matches(m[i], content, sum) then Some((Placing(m, i, warm), disk))
        else Some((Dropping(m, i, warm), disk))
    case Dropping(m, i, warm) =>
      if !a.Done? || i >= |m| then None
      else if a.ok && Dest(disk, warm).Some? then
        Some((Finished(m, false), SetDest(disk, warm, Dest(disk, warm).value - {Tmp(m[i].name)})))
      else Some((Finished(m, false), disk))
    case Placing(m, i, warm) =>
      if !a.Done? || i >= |m| then None
      else if !a.ok || Dest(disk, warm).None? || Tmp(m[i].name) !in Dest(disk, warm).value then
        Some((Finished(m, false), disk))
      else
        Some((Filling(m, i + 1, warm), SetDest(disk, warm, Placed(Dest(disk, warm).value, m[i].name))))
    case Renaming(m) =>
      if !a.Done? then None
      else if a.ok then
        if disk.final.Some? && disk.final.value != map[] then None
        else Some((Finished(m, true), Disk(disk.partial, None)))
      else if disk.final.Some? then Some((Finished(m, true), disk.(partial := None)))
      else Some((Finished(m, false), disk))
    case Finished(_, _) => None
    case Unlisted(_, _) => None
    case Closed(_, _) => None
  }

  /** What a failed os.RemoveAll may leave. */
  predicate SubDir(a: Dir, b: Dir) {
    forall n :: n in a ==> n in b && a[n] == b[n]
  }

  /** The file loop: refuse an unsafe name, skip a file that is there with its size, or fetch it. */
  function NextEntry(m: Manifest, i: nat, warm: bool, disk: Disk, statOk: bool): Pc {
    if i >= |m| then (if warm then Finished(m, true) else Renaming(m))
    else if !SafeRelPath(m[i].name) then Finished(m, false)
    else if warm && statOk && disk.final.Some? && m[i].name in disk.final.value && |disk.final.value[m[i].name]| == m[i].size
    then Filling(m, i + 1, warm)
    else Opening(m, i, warm)
  }

  /** os.Rename of the tmp file onto its name. */
  function Placed(d: Dir, name: string): Dir
    requires Tmp(name) in d
  {
    (d - {Tmp(name)})[name := d[Tmp(name)]]
  }

  // ---- callers and runs ----

  datatype Caller = Waiting(run: nat) | Returned(run: nat, result: Option<bool>)

  /**
   * `flight` is the run listed in d.prov; `served` are all manifests received so far, and `base` the
   * one that the final dir was assembled from.
   */
  datatype Sys = Sys(
    flight: Option<nat>,
    runs: map<nat, Pc>,
    callers: map<nat, Caller>,
    disk: Disk,
    served: seq<Manifest>,
    base: Option<Manifest>)

  datatype Action =
    | Call(caller: nat, id: nat)
    | GiveUp(caller: nat)
    | Receive(caller: nat)
    | Fetch(run: nat, answer: Answer)
    | Unlist(run: nat)
    | CloseDone(run: nat)
    | Crash

  function Init(): Sys {
    Sys(None, map[], map[], Disk(None, None), [], None)
  }

  function Next(s: Sys, a: Action, sum: Bytes -> string): Option<Sys> {
    match a
    case Call(c, id) =>
      if c in s.callers || id in s.runs then None
      else if s.flight.Some? then Some(s.(callers := s.callers[c := Waiting(s.flight.value)]))
      else Some(s.(flight := Some(id), runs := s.runs[id := Asking], callers := s.callers[c := Waiting(id)]))
    case GiveUp(c) =>
      if c !in s.callers || !s.callers[c].Waiting? then None
      else Some(s.(callers := s.callers[c := Returned(s.callers[c].run, None)]))
    case Receive(c) =>
      if c !in s.callers || !s.callers[c].Waiting? || s.callers[c].run !in s.runs then None
      else
        var pc := s.runs[s.callers[c].run];
        if !pc.Closed? then None
        else Some(s.(callers := s.callers[c := Returned(s.callers[c].run, Some(pc.ok))]))
    case Fetch(r, answer) =>
      if r !in s.runs then None
      else
        var step := FetchStep(s.runs[r], s.disk, answer, sum);
        if step.None? then None
        else
          var (pc, disk) := step.value;
          Some(s.(
            runs := s.runs[r := pc],
            disk := disk,
            served := if pc.Looking? then s.served + [pc.m] else s.served,
            base := if s.runs[r].Renaming? && answer.ok then Some(s.runs[r].m) else s.base))
    case Unlist(r) =>
      if r !in s.runs || !s.runs[r].Finished? then None
      else Some(s.(flight := None, runs := s.runs[r := Unlisted(s.runs[r].m, s.runs[r].ok)]))
    case CloseDone(r) =>
      if r !in s.runs || !s.runs[r].Unlisted? then None
      else Some(s.(runs := s.runs[r := Closed(s.runs[r].m, s.runs[r].ok)]))
    case Crash =>
      Some(s.(flight := None, runs := map[], callers := map[]))
  }

  function Exec(s: Sys, run: seq<Action>, sum: Bytes -> string): Option<Sys>
    decreases |run|
  {
    if run == [] then Some(s)
    else
      var before := Exec(s, run[..|run| - 1], sum);
      if before.None? then None else Next(before.value, run[|run| - 1], sum)
  }

  ghost predicate Reachable(s: Sys, sum: Bytes -> string) {
    exists run :: Exec(Init(), run, sum) == Some(s)
  }
}
