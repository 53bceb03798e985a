/**
 * One fetch of a codec set as the program has it (internal/workerd/provision.go): loops over the
 * manifest that change the two directories in place. What the network and the file system answer is
 * given per file.
 */
module CodecFetch {
  import opened Prelude
  import opened Provision

  /**
   * What fetching one file meets: no 200 answer, or a body, which may break off, and a
   * rename and a removal of the tmp file, each of which may fail.
   */
  datatype Reply = NoAnswer | Answer(body: Bytes, whole: bool, renamed: bool, removed: bool)

  /** The directory after fetching one file into it, and whether that succeeded. */
  function AfterFetch(d: Dir, e: Entry, reply: Reply, sum: Bytes -> string): (Dir, bool) {
    if reply.NoAnswer? then (d, false)
    else
      var w := d[Tmp(e.name) := reply.body];
      if !reply.whole || !Matches(e, reply.body, sum) then (if reply.removed then w - {Tmp(e.name)} else w, false)
      else if !reply.renamed then (w, false)
      else (Placed(w, e.name), true)
  }

  predicate Has(d: Dir, e: Entry) {
    e.name in d && |d[e.name]| == e.size
  }

  /** One entry of the file loop; a top-up (`warm`) skips a file that is there with its size. */
  function AfterEntry(d: Dir, e: Entry, reply: Reply, warm: bool, sum: Bytes -> string): (Dir, bool) {
    if warm && Has(d, e) then (d, true) else AfterFetch(d, e, reply, sum)
  }

  /** The file loop over the first k entries. */
  function AfterLoop(d: Dir, m: Manifest, replies: seq<Reply>, k: nat, warm: bool, sum: Bytes -> string): (Dir, bool)
    requires k <= |m| && |replies| == |m|
  {
    if k == 0 then (d, true)
    else
      var (now, ok) := AfterLoop(d, m, replies, k - 1, warm, sum);
      GoesOn(now, ok, m[k - 1], replies[k - 1], warm, sum)
  }

  function GoesOn(now: Dir, ok: bool, e: Entry, reply: Reply, warm: bool, sum: Bytes -> string): (Dir, bool) {
    if !ok || !SafeRelPath(e.name) then (now, false) else AfterEntry(now, e, reply, warm, sum)
  }

  /** A whole fetch, and whether it succeeded. */
  function AfterAll(disk: Disk, manifest: Option<Manifest>, replies: seq<Reply>, cleaned: bool, made: bool, renamed: bool,
                    sum: Bytes -> string): (Disk, bool)
    requires manifest.Some? ==> |replies| == |manifest.value|
  {
    if manifest.None? then (disk, false)
    else
      var m := manifest.value;
      if disk.final.Some? then
        var (d, ok) := AfterLoop(disk.final.value, m, replies, |m|, true, sum);
        (disk.(final := Some(d)), ok)
      else if !cleaned then (disk, false)
      else if !made then (disk.(partial := None), false)
      else
        var (d, ok) := AfterLoop(map[], m, replies, |m|, false, sum);
        if ok && renamed then (Disk(Some(d), None), true) else (disk.(partial := Some(d)), false)
  }

  lemma {:induction false} FailureStays(d: Dir, m: Manifest, replies: seq<Reply>, i: nat, k: nat, warm: bool,
                                        sum: Bytes -> string)
    requires i <= k <= |m| && |replies| == |m| && !AfterLoop(d, m, replies, i, warm, sum).1
    ensures AfterLoop(d, m, replies, k, warm, sum) == AfterLoop(d, m, replies, i, warm, sum)
    decreases k
  {
    if i < k {
      FailureStays(d, m, replies, i, k - 1, warm, sum);
    }
  }

  class CodecDirs {
    const sum: Bytes -> string
    var disk: Disk

    constructor (sum: Bytes -> string)
      ensures disk == Disk(None, None) && this.sum == sum
    {
      this.sum, disk := sum, Disk(None, None);
    }

    /** fetchCodecFile: tmp file, size and hash check, rename. */
    method FetchCodecFile(e: Entry, warm: bool, reply: Reply) returns (ok: bool)
      requires Dest(disk, warm).Some?
      modifies this`disk
      ensures disk == SetDest(old(disk), warm, AfterFetch(Dest(old(disk), warm).value, e, reply, sum).0)
      ensures ok == AfterFetch(Dest(old(disk), warm).value, e, reply, sum).1
    {
      if reply.NoAnswer? {
        return false;
      }
      var d := Dest(disk, warm).value[Tmp(e.name) := reply.body];
      disk := SetDest(disk, warm, d);
      if !reply.whole || !Matches(e, reply.body, sum) {
        if reply.removed {
          disk := SetDest(disk, warm, d - {Tmp(e.name)});
        }
        return false;
      }
      if !reply.renamed {
        return false;
      }
      disk := SetDest(disk, warm, Placed(d, e.name));
      ok := true;
    }

    /** syncCodecs: tops up the final dir. */
    method SyncCodecs(m: Manifest, replies: seq<Reply>) returns (ok: bool)
      requires |replies| == |m| && disk.final.Some?
      modifies this`disk
      ensures disk == old(disk).(final := Some(AfterLoop(old(disk).final.value, m, replies, |m|, true, sum).0))
      ensures ok == AfterLoop(old(disk).final.value, m, replies, |m|, true, sum).1
    {
      ghost var d := disk.final.value;
      for i := 0 to |m|
        invariant disk.final.Some? && disk == old(disk).(final := disk.final)
        invariant AfterLoop(d, m, replies, i, true, sum) == (disk.final.value, true)
      {
        var e := m[i];
        if !SafeRelPath(e.name) {
          FailureStays(d, m, replies, i + 1, |m|, true, sum);
          return false;
        }
        if !(e.name in disk.final.value && |disk.final.value[e.name]| == e.size) {
          ok := FetchCodecFile(e, true, replies[i]);
          if !ok {
            FailureStays(d, m, replies, i + 1, |m|, true, sum);
            return false;
          }
        }
      }
      ok := true;
    }

    /** The loop that fills the partial dir. */
    method FillPartial(m: Manifest, replies: seq<Reply>) returns (ok: bool)
      requires |replies| == |m| && disk.partial.Some?
      modifies this`disk
      ensures disk == old(disk).(partial := Some(AfterLoop(old(disk).partial.value, m, replies, |m|, false, sum).0))
      ensures ok == AfterLoop(old(disk).partial.value, m, replies, |m|, false, sum).1
    {
      ghost var d := disk.partial.value;
      for i := 0 to |m|
        invariant disk.partial.Some? && disk == old(disk).(partial := disk.partial)
        invariant AfterLoop(d, m, replies, i, false, sum) == (disk.partial.value, true)
      {
        if !SafeRelPath(m[i].name) {
          FailureStays(d, m, replies, i + 1, |m|, false, sum);
          return false;
        }
        ok := FetchCodecFile(m[i], false, replies[i]);
        if !ok {
          FailureStays(d, m, replies, i + 1, |m|, false, sum);
          return false;
        }
      }
      ok := true;
    }

    /** fetchCodecs: a warm cache is topped up, a cold one filled aside and renamed. */
    method FetchCodecs(manifest: Option<Manifest>, replies: seq<Reply>, cleaned: bool, made: bool, renamed: bool)
      returns (ok: bool)
      requires manifest.Some? ==> |replies| == |manifest.value|
      modifies this`disk
      ensures (disk, ok) == AfterAll(old(disk), manifest, replies, cleaned, made, renamed, sum)
    {
      if manifest.None? {
        return false;
      }
      var m := manifest.value;
      if disk.final.Some? {
        ok := SyncCodecs(m, replies);
        return;
      }
      if !cleaned {
        return false;
      }
      disk := disk.(partial := None);
      if !made {
        return false;
      }
      disk := disk.(partial := Some(map[]));
      ok := FillPartial(m, replies);
      if !ok || !renamed {
        return false;
      }
      disk := Disk(disk.partial, None);
      ok := true;
    }
  }
}

/** What such a fetch achieves and what it leaves alone, with and without clashes of names. */
module CodecFetchProof {
  import opened Prelude
  import opened Paths
  import opened Provision
  import opened ProvisionProof
  import opened ProvisionNames
  import opened CodecFetch

  /** Outside `names` the two directories are the same. */
  ghost predicate SameBut(a: Dir, b: Dir, names: set<string>) {
    forall n :: n !in names ==> (n in a <==> n in b) && (n in a ==> a[n] == b[n])
  }

  /**
   * One file: it is there, whole and checked, exactly when it was answered in full, matches its entry
   * and could be renamed; and but for the tmp name, and its own name on success, every name is as it
   * was.
   */
  lemma FetchOne(d: Dir, e: Entry, reply: Reply, sum: Bytes -> string)
    ensures
      var (d', ok) := AfterFetch(d, e, reply, sum);
      && (ok <==> reply.Answer? && reply.whole && |reply.body| == e.size && EqualFold(sum(reply.body), e.sha) && reply.renamed)
      && (ok ==> e.name in d' && d'[e.name] == reply.body && Tmp(e.name) !in d')
      && SameBut(d, d', if ok then {e.name, Tmp(e.name)} else {Tmp(e.name)})
  {
    TmpDiffers(e.name);
  }

  /** What every entry of the loop keeps holds at its end. */
  lemma {:induction false} LoopKeeps(d: Dir, m: Manifest, replies: seq<Reply>, k: nat, warm: bool, sum: Bytes -> string,
                                     P: (Dir, bool, nat) -> bool)
    requires k <= |m| && |replies| == |m| && P(d, true, 0)
    requires forall now: Dir, ok: bool, i: nat :: i < k && P(now, ok, i) ==>
               Goes(P, GoesOn(now, ok, m[i], replies[i], warm, sum), i + 1)
    ensures Goes(P, AfterLoop(d, m, replies, k, warm, sum), k)
    decreases k
  {
    if k > 0 {
      LoopKeeps(d, m, replies, k - 1, warm, sum, P);
      var (now, ok) := AfterLoop(d, m, replies, k - 1, warm, sum);
      assert P(now, ok, k - 1);
    }
  }

  ghost predicate Goes(P: (Dir, bool, nat) -> bool, r: (Dir, bool), i: nat) {
    P(r.0, r.1, i)
  }

  // ---- without an assumption on names ----

  /** What a fetch of `m` may write or remove. */
  function NamesOf(m: Manifest): set<string> {
    (set i | 0 <= i < |m| :: m[i].name) + (set i | 0 <= i < |m| :: Tmp(m[i].name))
  }

  /** Whatever the names are, a fetch leaves files of other names alone. */
  lemma {:induction false} LoopFrame(d: Dir, m: Manifest, replies: seq<Reply>, k: nat, warm: bool, sum: Bytes -> string)
    requires k <= |m| && |replies| == |m|
    ensures SameBut(d, AfterLoop(d, m, replies, k, warm, sum).0, NamesOf(m))
    decreases k
  {
    if k > 0 {
      LoopFrame(d, m, replies, k - 1, warm, sum);
      FetchOne(AfterLoop(d, m, replies, k - 1, warm, sum).0, m[k - 1], replies[k - 1], sum);
    }
  }

  /**
   * A cold fetch is all or nothing, and a warm one keeps the final dir and does not touch the partial
   * one, with no assumption on names.
   */
  lemma AllOrNothing(disk: Disk, manifest: Option<Manifest>, replies: seq<Reply>, cleaned: bool, made: bool, renamed: bool,
                     sum: Bytes -> string)
    requires manifest.Some? ==> |replies| == |manifest.value|
    ensures
      var (disk', ok) := AfterAll(disk, manifest, replies, cleaned, made, renamed, sum);
      && (ok ==> manifest.Some?)
      && (disk.final.None? ==> (disk'.final.Some? <==> ok))
      && (disk.final.Some? ==> disk'.final.Some? && disk'.partial == disk.partial)
      && (disk.final.Some? && manifest.Some? ==> SameBut(disk.final.value, disk'.final.value, NamesOf(manifest.value)))
      && (manifest.None? ==> disk' == disk)
  {
    if manifest.Some? && disk.final.Some? {
      LoopFrame(disk.final.value, manifest.value, replies, |manifest.value|, true, sum);
    }
  }

  // ---- exactly when a fetch succeeds ----

  /** The file came in full, has its size and its sum, and could be renamed. */
  predicate Delivers(e: Entry, reply: Reply, sum: Bytes -> string) {
    reply.Answer? && reply.whole && reply.renamed && |reply.body| == e.size && EqualFold(sum(reply.body), e.sha)
  }

  /** The loop gets past its i-th entry: the name is safe, and the file is there already or is delivered. */
  predicate GetsPast(d: Dir, m: Manifest, replies: seq<Reply>, i: nat, warm: bool, sum: Bytes -> string)
    requires i < |m| && |replies| == |m|
  {
    var now := AfterLoop(d, m, replies, i, warm, sum).0;
    SafeRelPath(m[i].name)
    && ((warm && m[i].name in now && |now[m[i].name]| == m[i].size) || Delivers(m[i], replies[i], sum))
  }

  predicate AllPast(d: Dir, m: Manifest, replies: seq<Reply>, k: nat, warm: bool, sum: Bytes -> string)
    requires k <= |m| && |replies| == |m|
  {
    k == 0 || (AllPast(d, m, replies, k - 1, warm, sum) && GetsPast(d, m, replies, k - 1, warm, sum))
  }

  lemma {:induction false} AllPastMeans(d: Dir, m: Manifest, replies: seq<Reply>, k: nat, warm: bool, sum: Bytes -> string)
    requires k <= |m| && |replies| == |m|
    ensures AllPast(d, m, replies, k, warm, sum) <==> forall i :: 0 <= i < k ==> GetsPast(d, m, replies, i, warm, sum)
    decreases k
  {
    if k > 0 {
      AllPastMeans(d, m, replies, k - 1, warm, sum);
    }
  }

  lemma {:induction false} PastAll(d: Dir, m: Manifest, replies: seq<Reply>, k: nat, warm: bool, sum: Bytes -> string)
    requires k <= |m| && |replies| == |m|
    ensures AfterLoop(d, m, replies, k, warm, sum).1 <==> AllPast(d, m, replies, k, warm, sum)
    decreases k
  {
    if k > 0 {
      PastAll(d, m, replies, k - 1, warm, sum);
      var (now, ok) := AfterLoop(d, m, replies, k - 1, warm, sum);
      EntryPasses(now, ok, m[k - 1], replies[k - 1], warm, sum);
    }
  }

  /**
   * The loop succeeds exactly when it gets past every entry; a top-up takes a file that is there with its
   * size as it is, whatever the network would answer.
   */
  lemma LoopSucceeds(d: Dir, m: Manifest, replies: seq<Reply>, k: nat, warm: bool, sum: Bytes -> string)
    requires k <= |m| && |replies| == |m|
    ensures AfterLoop(d, m, replies, k, warm, sum).1 <==> forall i :: 0 <= i < k ==> GetsPast(d, m, replies, i, warm, sum)
  {
    PastAll(d, m, replies, k, warm, sum);
    AllPastMeans(d, m, replies, k, warm, sum);
  }

  lemma EntryPasses(now: Dir, ok: bool, e: Entry, reply: Reply, warm: bool, sum: Bytes -> string)
    ensures GoesOn(now, ok, e, reply, warm, sum).1 <==>
              ok && SafeRelPath(e.name) && ((warm && e.name in now && |now[e.name]| == e.size) || Delivers(e, reply, sum))
  {
    FetchOne(now, e, reply, sum);
  }

  /** A warm file that is there with its size is left as it is. */
  lemma PresentStays(d: Dir, m: Manifest, replies: seq<Reply>, i: nat, sum: Bytes -> string)
    requires i < |m| && |replies| == |m|
    ensures
      var now := AfterLoop(d, m, replies, i, true, sum).0;
      m[i].name in now && |now[m[i].name]| == m[i].size ==> AfterLoop(d, m, replies, i + 1, true, sum).0 == now
  {
  }

  /**
   * A fetch succeeds exactly when it has a manifest and, with a warm cache, the top-up gets past every
   * entry; with a cold one, the partial dir could be made afresh, every entry was delivered into it and
   * it could be renamed.
   */
  lemma FetchSucceeds(disk: Disk, manifest: Option<Manifest>, replies: seq<Reply>, cleaned: bool, made: bool, renamed: bool,
                      sum: Bytes -> string)
    requires manifest.Some? ==> |replies| == |manifest.value|
    ensures
      AfterAll(disk, manifest, replies, cleaned, made, renamed, sum).1 <==>
        && manifest.Some?
        && (disk.final.Some? ==>
              forall i :: 0 <= i < |manifest.value| ==> GetsPast(disk.final.value, manifest.value, replies, i, true, sum))
        && (disk.final.None? ==>
              cleaned && made && renamed
              && forall i :: 0 <= i < |manifest.value| ==>
                   SafeRelPath(manifest.value[i].name) && Delivers(manifest.value[i], replies[i], sum))
  {
    if manifest.Some? {
      var m := manifest.value;
      if disk.final.Some? {
        LoopSucceeds(disk.final.value, m, replies, |m|, true, sum);
      } else {
        LoopSucceeds(map[], m, replies, |m|, false, sum);
        assert forall i :: 0 <= i < |m| ==>
          (GetsPast(map[], m, replies, i, false, sum) <==> SafeRelPath(m[i].name) && Delivers(m[i], replies[i], sum));
      }
    }
  }

  // ---- exactly when a top-up is complete ----

  type Sizes = map<string, nat>

  function SizesOf(d: Dir): Sizes {
    map n | n in d :: |d[n]|
  }

  /** The top-up loop on names and sizes alone. */
  function ToppedSizes(sz: Sizes, m: Manifest, k: nat): Sizes
    requires k <= |m|
  {
    if k == 0 then sz
    else
      ToppedEntry(ToppedSizes(sz, m, k - 1), m[k - 1])
  }

  function ToppedEntry(sz: Sizes, e: Entry): Sizes {
    if e.name in sz && sz[e.name] == e.size then sz else (sz - {Tmp(e.name)})[e.name := e.size]
  }

  ghost predicate AllListed(sz: Sizes, m: Manifest) {
    forall i :: 0 <= i < |m| ==> m[i].name in sz && sz[m[i].name] == m[i].size
  }

  lemma EntrySizes(d: Dir, e: Entry, reply: Reply, sum: Bytes -> string)
    requires AfterEntry(d, e, reply, true, sum).1
    ensures SizesOf(AfterEntry(d, e, reply, true, sum).0) == ToppedEntry(SizesOf(d), e)
  {
    TmpDiffers(e.name);
  }

  lemma {:induction false} LoopSizes(d: Dir, m: Manifest, replies: seq<Reply>, k: nat, sum: Bytes -> string)
    requires k <= |m| && |replies| == |m| && AfterLoop(d, m, replies, k, true, sum).1
    ensures SizesOf(AfterLoop(d, m, replies, k, true, sum).0) == ToppedSizes(SizesOf(d), m, k)
    decreases k
  {
    if k > 0 {
      LoopSizes(d, m, replies, k - 1, sum);
      EntrySizes(AfterLoop(d, m, replies, k - 1, true, sum).0, m[k - 1], replies[k - 1], sum);
    }
  }

  /**
   * A successful top-up leaves every entry present with its size if and only if the loop does so on
   * the names and sizes of the starting dir: whatever the names are, and whatever is served.
   */
  lemma WarmComplete(d: Dir, m: Manifest, replies: seq<Reply>, sum: Bytes -> string)
    requires |replies| == |m| && AfterLoop(d, m, replies, |m|, true, sum).1
    ensures Have(AfterLoop(d, m, replies, |m|, true, sum).0, m, |m|) <==> AllListed(ToppedSizes(SizesOf(d), m, |m|), m)
  {
    LoopSizes(d, m, replies, |m|, sum);
  }

  /** A name listed with two sizes is never complete, from no starting dir. */
  lemma TwoSizes(sz: Sizes, m: Manifest, i: nat, j: nat)
    requires i < j < |m| && m[i].name == m[j].name && m[i].size != m[j].size
    ensures !AllListed(ToppedSizes(sz, m, |m|), m)
  {
  }

  /** The manifest of a file and of one under its tmp name: complete or not by the starting dir alone. */
  lemma ClashDepends(n: string, x: Bytes, y: Bytes, sum: Bytes -> string)
    ensures !AllListed(ToppedSizes(map[], Clash(n, x, y, sum), 2), Clash(n, x, y, sum))
    ensures AllListed(ToppedSizes(map[n := |y|], Clash(n, x, y, sum), 2), Clash(n, x, y, sum))
  {
    var m := Clash(n, x, y, sum);
    TmpDiffers(n);
    TmpDiffers(Tmp(n));
    assert |Tmp(Tmp(n))| > |n|;
    ClashEmpty(m, n, |x|, |y|);
    ClashFull(m, n, |x|, |y|);
  }

  lemma ClashEmpty(m: Manifest, n: string, a: nat, b: nat)
    requires |m| == 2 && m[0].name == Tmp(n) && m[0].size == a && m[1].name == n && m[1].size == b && Tmp(n) != n
    ensures !AllListed(ToppedSizes(map[], m, 2), m)
  {
    var one := ToppedSizes(map[], m, 1);
    assert ToppedSizes(map[], m, 0) == map[];
    assert n !in one;
    assert Tmp(n) !in ToppedSizes(map[], m, 2);
    assert m[0].name == Tmp(n);
  }

  lemma ClashFull(m: Manifest, n: string, a: nat, b: nat)
    requires |m| == 2 && m[0].name == Tmp(n) && m[0].size == a && m[1].name == n && m[1].size == b
    requires Tmp(n) != n && Tmp(Tmp(n)) != n
    ensures AllListed(ToppedSizes(map[n := b], m, 2), m)
  {
    assert ToppedSizes(map[n := b], m, 0) == map[n := b];
    var one := ToppedSizes(map[n := b], m, 1);
    assert n in one && one[n] == b && Tmp(n) in one && one[Tmp(n)] == a;
  }

  /** From an empty final dir its top-up succeeds, and the first file is not there. */
  lemma WarmLoses(n: string, x: Bytes, y: Bytes, sum: Bytes -> string)
    requires Plain(n)
    ensures
      var replies := [Answer(x, true, true, true), Answer(y, true, true, true)];
      AfterLoop(map[], Clash(n, x, y, sum), replies, 2, true, sum) == (map[n := y], true)
  {
    var m := Clash(n, x, y, sum);
    var replies := [Answer(x, true, true, true), Answer(y, true, true, true)];
    PlainIsSafe(n);
    TmpDiffers(n);
    TmpDiffers(Tmp(n));
    assert AfterLoop(map[], m, replies, 0, true, sum) == (map[], true);
    assert Placed(map[Tmp(Tmp(n)) := x], Tmp(n)) == map[Tmp(n) := x];
    assert AfterLoop(map[], m, replies, 1, true, sum) == (map[Tmp(n) := x], true);
    assert Placed(map[Tmp(n) := x][Tmp(n) := y], n) == map[n := y];
  }

  /** A cold loop assembles what ProvisionNames says, so it is complete exactly when every entry lasts. */
  lemma {:induction false} LoopAssembles(m: Manifest, replies: seq<Reply>, k: nat, sum: Bytes -> string)
    returns (bodies: seq<Bytes>)
    requires k <= |m| && |replies| == |m| && AfterLoop(map[], m, replies, k, false, sum).1
    ensures Fits(m, bodies, k) && AfterLoop(map[], m, replies, k, false, sum).0 == Assembled(m, bodies, k)
    decreases k
  {
    if k == 0 {
      bodies := [];
    } else {
      var front := LoopAssembles(m, replies, k - 1, sum);
      FetchOne(Assembled(m, front, k - 1), m[k - 1], replies[k - 1], sum);
      bodies := front + [replies[k - 1].body];
      AssembledNext(m, front, replies[k - 1].body, k);
    }
  }

  lemma AssembledNext(m: Manifest, front: seq<Bytes>, x: Bytes, k: nat)
    requires 0 < k <= |m| && Fits(m, front, k - 1) && |x| == m[k - 1].size
    ensures Fits(m, front + [x], k)
    ensures Assembled(m, front + [x], k) == Placed(Assembled(m, front, k - 1)[Tmp(m[k - 1].name) := x], m[k - 1].name)
  {
    AssembledPrefix(m, front, front + [x], k - 1);
  }

  lemma ColdLoopComplete(m: Manifest, replies: seq<Reply>, sum: Bytes -> string)
    requires |replies| == |m| && AfterLoop(map[], m, replies, |m|, false, sum).1
    ensures Have(AfterLoop(map[], m, replies, |m|, false, sum).0, m, |m|) <==> Lasting(m)
  {
    var bodies := LoopAssembles(m, replies, |m|, sum);
    AssembledComplete(m, bodies);
  }

  // ---- with names that do not clash ----

  ghost predicate IsName(m: Manifest, n: string) {
    exists i :: 0 <= i < |m| && n == m[i].name
  }

  ghost predicate IsTmpName(m: Manifest, n: string) {
    exists i :: 0 <= i < |m| && n == Tmp(m[i].name)
  }

  /** The manifest lists the file with another size than it has. */
  ghost predicate Outdated(d: Dir, m: Manifest, n: string) {
    n in d && exists i :: 0 <= i < |m| && n == m[i].name && |d[n]| != m[i].size
  }

  /**
   * Besides tmp files no file is lost, none but outdated ones are replaced, and none but the
   * manifest's are added.
   */
  ghost predicate ToppedUp(a: Dir, b: Dir, m: Manifest) {
    && (forall n :: n in a && !IsTmpName(m, n) ==> n in b && (a[n] == b[n] || Outdated(a, m, n)))
    && (forall n :: n in b && n !in a ==> IsTmpName(m, n) || IsName(m, n))
  }

  /** The names of the entries from i on are as they were. */
  ghost predicate Untouched(a: Dir, b: Dir, m: Manifest, i: nat) {
    forall j :: i <= j < |m| ==> (m[j].name in a <==> m[j].name in b) && (m[j].name in a ==> a[m[j].name] == b[m[j].name])
  }

  lemma OneMore(a: Dir, b: Dir, b': Dir, m: Manifest, i: nat, served: seq<Manifest>)
    requires Unambiguous(served) && m in served && i < |m|
    requires ToppedUp(a, b, m) && Untouched(a, b, m, i)
    requires m[i].name in b ==> |b[m[i].name]| != m[i].size
    requires SameBut(b, b', {m[i].name, Tmp(m[i].name)}) && (m[i].name in b ==> m[i].name in b')
    ensures ToppedUp(a, b', m) && Untouched(a, b', m, i + 1)
  {
    assert IsName(m, m[i].name) && IsTmpName(m, Tmp(m[i].name));
    NextUntouched(a, b, b', m, i, served);
  }

  lemma NextUntouched(a: Dir, b: Dir, b': Dir, m: Manifest, i: nat, served: seq<Manifest>)
    requires Unambiguous(served) && m in served && i < |m| && Untouched(a, b, m, i)
    requires SameBut(b, b', {m[i].name, Tmp(m[i].name)})
    ensures Untouched(a, b', m, i + 1)
  {
    NamesAreNotTmp(served, m, i);
    assert DistinctNames(m);
  }

  lemma OneMoreFetched(d: Dir, now: Dir, m: Manifest, i: nat, reply: Reply, sum: Bytes -> string, served: seq<Manifest>)
    requires Unambiguous(served) && m in served && i < |m| && ToppedUp(d, now, m) && Untouched(d, now, m, i)
    ensures var d' := AfterEntry(now, m[i], reply, true, sum).0; ToppedUp(d, d', m) && Untouched(d, d', m, i + 1)
  {
    if !Has(now, m[i]) {
      FetchOne(now, m[i], reply, sum);
      OneMore(d, now, AfterFetch(now, m[i], reply, sum).0, m, i, served);
    }
  }

  lemma StepLosesNone(d: Dir, now: Dir, ok: bool, m: Manifest, i: nat, reply: Reply, sum: Bytes -> string,
                      served: seq<Manifest>)
    requires Unambiguous(served) && m in served && i < |m| && ToppedUp(d, now, m) && (ok ==> Untouched(d, now, m, i))
    ensures
      var (d', ok') := GoesOn(now, ok, m[i], reply, true, sum);
      ToppedUp(d, d', m) && (ok' ==> Untouched(d, d', m, i + 1))
  {
    if ok && SafeRelPath(m[i].name) {
      OneMoreFetched(d, now, m, i, reply, sum, served);
    }
  }

  /** Either way no file but tmp files is lost, only outdated ones are replaced, only the manifest's are added. */
  lemma SyncLosesNone(d: Dir, m: Manifest, replies: seq<Reply>, sum: Bytes -> string, served: seq<Manifest>)
    requires Unambiguous(served) && m in served && |replies| == |m|
    ensures ToppedUp(d, AfterLoop(d, m, replies, |m|, true, sum).0, m)
  {
    var P := (now: Dir, ok: bool, i: nat) => ToppedUp(d, now, m) && (ok ==> Untouched(d, now, m, i));
    forall now: Dir, ok: bool, i: nat | i < |m| && P(now, ok, i)
      ensures Goes(P, GoesOn(now, ok, m[i], replies[i], true, sum), i + 1)
    {
      StepLosesNone(d, now, ok, m, i, replies[i], sum, served);
    }
    assert ToppedUp(d, d, m) && Untouched(d, d, m, 0);
    assert P(d, true, 0);
    LoopKeeps(d, m, replies, |m|, true, sum, P);
  }

  /** A directory written by a fetch is as good as it was: checked files, and all names of the base. */
  ghost predicate AsGood(before: Dir, after: Dir, served: seq<Manifest>, sum: Bytes -> string) {
    && (DirOk(before, served, sum) ==> DirOk(after, served, sum))
    && (forall b: Manifest :: b in served && HasNames(before, b) ==> HasNames(after, b))
  }

  lemma WrittenOk(d: Dir, m: Manifest, i: nat, x: Bytes, served: seq<Manifest>, sum: Bytes -> string)
    requires Unambiguous(served) && m in served && i < |m|
    ensures AsGood(d, d[Tmp(m[i].name) := x], served, sum)
  {
    TmpWritten(d, m, i, x, served, sum);
  }

  lemma DroppedOk(d: Dir, m: Manifest, i: nat, x: Bytes, served: seq<Manifest>, sum: Bytes -> string)
    requires Unambiguous(served) && m in served && i < |m|
    ensures AsGood(d, d[Tmp(m[i].name) := x] - {Tmp(m[i].name)}, served, sum)
  {
    TmpWritten(d, m, i, x, served, sum);
    TmpDropped(d[Tmp(m[i].name) := x], m, i, served, sum);
  }

  lemma PlacedOk(d: Dir, m: Manifest, i: nat, x: Bytes, served: seq<Manifest>, sum: Bytes -> string)
    requires Unambiguous(served) && m in served && i < |m| && Matches(m[i], x, sum)
    ensures AsGood(d, Placed(d[Tmp(m[i].name) := x], m[i].name), served, sum)
    ensures Have(d, m, i) ==> Have(Placed(d[Tmp(m[i].name) := x], m[i].name), m, i + 1)
  {
    TmpWritten(d, m, i, x, served, sum);
    FilePlaced(d[Tmp(m[i].name) := x], m, i, served, sum);
  }

  lemma FetchAsGood(d: Dir, m: Manifest, i: nat, reply: Reply, served: seq<Manifest>, sum: Bytes -> string)
    requires Unambiguous(served) && m in served && i < |m|
    ensures
      var (d', ok) := AfterFetch(d, m[i], reply, sum);
      AsGood(d, d', served, sum) && (ok && Have(d, m, i) ==> Have(d', m, i + 1))
  {
    if reply.Answer? {
      WrittenOk(d, m, i, reply.body, served, sum);
      DroppedOk(d, m, i, reply.body, served, sum);
      if Matches(m[i], reply.body, sum) {
        PlacedOk(d, m, i, reply.body, served, sum);
      }
    }
  }

  lemma AsGoodOn(a: Dir, b: Dir, c: Dir, served: seq<Manifest>, sum: Bytes -> string)
    requires AsGood(a, b, served, sum) && AsGood(b, c, served, sum)
    ensures AsGood(a, c, served, sum)
  {
  }

  /** One entry of the loop. */
  lemma EntryAsGood(now: Dir, m: Manifest, i: nat, reply: Reply, warm: bool, served: seq<Manifest>, sum: Bytes -> string)
    requires Unambiguous(served) && m in served && i < |m| && Have(now, m, i)
    ensures
      var (d', ok) := AfterEntry(now, m[i], reply, warm, sum);
      AsGood(now, d', served, sum) && (ok ==> Have(d', m, i + 1))
  {
    FetchAsGood(now, m, i, reply, served, sum);
  }

  lemma StepAsGood(d: Dir, now: Dir, ok: bool, m: Manifest, i: nat, reply: Reply, warm: bool, served: seq<Manifest>,
                   sum: Bytes -> string)
    requires Unambiguous(served) && m in served && i < |m|
    requires AsGood(d, now, served, sum) && (ok ==> Have(now, m, i))
    ensures
      var (d', ok') := GoesOn(now, ok, m[i], reply, warm, sum);
      AsGood(d, d', served, sum) && (ok' ==> Have(d', m, i + 1))
  {
    if ok && SafeRelPath(m[i].name) {
      EntryAsGood(now, m, i, reply, warm, served, sum);
      AsGoodOn(d, now, AfterEntry(now, m[i], reply, warm, sum).0, served, sum);
    }
  }

  /** The loop keeps the directory good, and on success leaves every entry present with its size. */
  lemma LoopAsGood(d: Dir, m: Manifest, replies: seq<Reply>, warm: bool, sum: Bytes -> string, served: seq<Manifest>)
    requires Unambiguous(served) && m in served && |replies| == |m|
    ensures
      var (d', ok) := AfterLoop(d, m, replies, |m|, warm, sum);
      AsGood(d, d', served, sum) && (ok ==> Have(d', m, |m|))
  {
    var P := (now: Dir, ok: bool, i: nat) => AsGood(d, now, served, sum) && (ok ==> Have(now, m, i));
    forall now: Dir, ok: bool, i: nat | i < |m| && P(now, ok, i)
      ensures Goes(P, GoesOn(now, ok, m[i], replies[i], warm, sum), i + 1)
    {
      StepAsGood(d, now, ok, m, i, replies[i], warm, served, sum);
    }
    assert AsGood(d, d, served, sum) && Have(d, m, 0);
    assert P(d, true, 0);
    LoopKeeps(d, m, replies, |m|, warm, sum, P);
  }

  /** Where names do not clash, a fetch that succeeds is complete, and both dirs stay good either way. */
  lemma FetchComplete(disk: Disk, m: Manifest, replies: seq<Reply>, cleaned: bool, made: bool, renamed: bool,
                      sum: Bytes -> string, base: Option<Manifest>, served: seq<Manifest>)
    requires Unambiguous(served) && m in served && |replies| == |m| && DiskOk(disk, base, served, sum)
    ensures
      var (disk', ok) := AfterAll(disk, Some(m), replies, cleaned, made, renamed, sum);
      && DiskOk(disk', if ok && disk.final.None? then Some(m) else base, served, sum)
      && (ok ==> disk'.final.Some? && Have(disk'.final.value, m, |m|))
      && (disk.final.Some? ==> ToppedUp(disk.final.value, disk'.final.value, m))
  {
    if disk.final.Some? {
      LoopAsGood(disk.final.value, m, replies, true, sum, served);
      SyncLosesNone(disk.final.value, m, replies, sum, served);
    } else {
      LoopAsGood(map[], m, replies, false, sum, served);
    }
  }
}
