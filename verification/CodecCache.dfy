/** The hash memo behind the master's codec manifests (internal/masterd/files.go). */
module CodecCache {
  import opened Prelude

  type Bytes = seq<bv8>

  /** What os.Stat says about a directory entry and what reading it gives, or that it is gone or no regular file. */
  datatype Stat = Other | Regular(size: nat, mtime: int, content: Bytes)

  /** The directory as one request sees it: names in order, their stats, and which files can be read. */
  datatype Listing = Listing(dir: string, names: seq<string>, stat: map<string, Stat>, readable: set<string>)

  datatype CodecFile = CodecFile(name: string, size: nat, sha: string)

  datatype Memo = Memo(size: nat, mtime: int, sum: string)

  type Memos = map<string, Memo>

  predicate Counts(l: Listing, name: string) {
    name in l.stat && l.stat[name].Regular?
  }

  function FullName(l: Listing, name: string): string {
    l.dir + "/" + name
  }

  predicate Hit(hashes: Memos, full: string, st: Stat) {
    st.Regular? && full in hashes && hashes[full].size == st.size && hashes[full].mtime == st.mtime
  }

  function Line(name: string, st: Stat, sha: string): CodecFile
    requires st.Regular?
  {
    CodecFile(name, st.size, sha)
  }

  /** The scan of the first k names: the lines so far, or the name that could not be hashed, and the memo. */
  function Scan(l: Listing, k: nat, hashes: Memos, sum: Bytes -> string): (Result<seq<CodecFile>, string>, Memos)
    requires k <= |l.names|
  {
    if k == 0 then (Ok([]), hashes)
    else
      var (r, now) := Scan(l, k - 1, hashes, sum);
      var name := l.names[k - 1];
      if r.Err? || !Counts(l, name) then (r, now)
      else
        var st := l.stat[name];
        var full := FullName(l, name);
        if Hit(now, full, st) then (Ok(r.value + [Line(name, st, now[full].sum)]), now)
        else if name !in l.readable then (Err(name), now)
        else (Ok(r.value + [Line(name, st, sum(st.content))]), now[full := Memo(st.size, st.mtime, sum(st.content))])
  }

  class CodecCache {
    const sum: Bytes -> string
    var hashes: Memos

    constructor (sum: Bytes -> string)
      ensures hashes == map[] && this.sum == sum
    {
      this.sum, hashes := sum, map[];
    }

    /** manifest: the loop over the directory, with its early return on a file that cannot be read. */
    method Manifest(l: Listing) returns (r: Result<seq<CodecFile>, string>)
      modifies this
      ensures (r, hashes) == Scan(l, |l.names|, old(hashes), sum)
    {
      var files: seq<CodecFile> := [];
      for i := 0 to |l.names|
        invariant Scan(l, i, old(hashes), sum) == (Ok(files), hashes)
      {
        var name := l.names[i];
        if Counts(l, name) {
          var st := l.stat[name];
          var full := FullName(l, name);
          if !Hit(hashes, full, st) {
            if name !in l.readable {
              ErrStays(l, i + 1, |l.names|, old(hashes), sum);
              return Err(name);
            }
            hashes := hashes[full := Memo(st.size, st.mtime, sum(st.content))];
          }
          files := files + [Line(name, st, hashes[full].sum)];
        }
      }
      r := Ok(files);
    }
  }

  lemma {:induction false} ErrStays(l: Listing, i: nat, k: nat, hashes: Memos, sum: Bytes -> string)
    requires i <= k <= |l.names| && Scan(l, i, hashes, sum).0.Err?
    ensures Scan(l, k, hashes, sum) == Scan(l, i, hashes, sum)
    decreases k
  {
    if i < k {
      ErrStays(l, i, k - 1, hashes, sum);
    }
  }

  // ---- when the memo shows ----

  /** The manifest that hashes every regular file afresh. */
  function Fresh(l: Listing, k: nat, sum: Bytes -> string): seq<CodecFile>
    requires k <= |l.names|
  {
    if k == 0 then []
    else
      var name := l.names[k - 1];
      var front := Fresh(l, k - 1, sum);
      if Counts(l, name) then front + [Line(name, l.stat[name], sum(l.stat[name].content))] else front
  }

  /** The name is remembered under its present stamp. */
  predicate Remembered(l: Listing, hashes: Memos, name: string) {
    Counts(l, name) && Hit(hashes, FullName(l, name), l.stat[name])
  }

  /** It is, with a sum that is not the one of its present content. */
  predicate StaleHit(l: Listing, hashes: Memos, sum: Bytes -> string, name: string) {
    Remembered(l, hashes, name) && hashes[FullName(l, name)].sum != sum(l.stat[name].content)
  }

  ghost predicate AnyStale(l: Listing, k: nat, hashes: Memos, sum: Bytes -> string)
    requires k <= |l.names|
  {
    exists i :: 0 <= i < k && StaleHit(l, hashes, sum, l.names[i])
  }

  /** A regular file that is neither remembered nor readable. */
  predicate Blocks(l: Listing, hashes: Memos, name: string) {
    Counts(l, name) && !Remembered(l, hashes, name) && name !in l.readable
  }

  lemma FullNameInjective(l: Listing, a: string, b: string)
    requires FullName(l, a) == FullName(l, b)
    ensures a == b
  {
    assert FullName(l, a)[|l.dir| + 1..] == a;
    assert FullName(l, b)[|l.dir| + 1..] == b;
  }

  /** In the middle of a scan a memo is the one from before or, after a miss, the one of the present content. */
  lemma {:induction false} ScanMemo(l: Listing, k: nat, hashes: Memos, sum: Bytes -> string, name: string)
    requires k <= |l.names| && Counts(l, name)
    ensures var now := Scan(l, k, hashes, sum).1;
            var full := FullName(l, name);
            || ((full in now <==> full in hashes) && (full in now ==> now[full] == hashes[full]))
            || (!Remembered(l, hashes, name) && name in l.readable && full in now
                && now[full] == Memo(l.stat[name].size, l.stat[name].mtime, sum(l.stat[name].content)))
    decreases k
  {
    if k > 0 {
      ScanMemo(l, k - 1, hashes, sum, name);
      if FullName(l, name) == FullName(l, l.names[k - 1]) {
        FullNameInjective(l, name, l.names[k - 1]);
      }
    }
  }

  /** What one name adds: a stale line, a fresh one, or the failure. */
  lemma LineExactly(l: Listing, k: nat, hashes: Memos, sum: Bytes -> string)
    requires 0 < k <= |l.names| && Counts(l, l.names[k - 1]) && Scan(l, k - 1, hashes, sum).0.Ok?
    ensures var (r, now) := Scan(l, k - 1, hashes, sum);
            var name := l.names[k - 1];
            var after := Scan(l, k, hashes, sum).0;
            && (after.Err? <==> Blocks(l, hashes, name))
            && (after.Ok? ==>
                  && |after.value| == |r.value| + 1 && after.value[..|r.value|] == r.value
                  && (after.value[|r.value|] != Line(name, l.stat[name], sum(l.stat[name].content)) <==>
                        StaleHit(l, hashes, sum, name)))
  {
    ScanMemo(l, k - 1, hashes, sum, l.names[k - 1]);
  }

  lemma AnyStaleStep(l: Listing, k: nat, hashes: Memos, sum: Bytes -> string)
    requires 0 < k <= |l.names|
    ensures AnyStale(l, k, hashes, sum) <==> AnyStale(l, k - 1, hashes, sum) || StaleHit(l, hashes, sum, l.names[k - 1])
  {
  }

  /** Two lists of lines, each with one more line, differ if the old ones did or the new lines do. */
  lemma OneMoreLine(r: seq<CodecFile>, f: seq<CodecFile>, r': seq<CodecFile>, f': seq<CodecFile>)
    requires |r| == |f| && |r'| == |r| + 1 && |f'| == |f| + 1 && r'[..|r|] == r && f'[..|f|] == f
    ensures r' != f' <==> r != f || r'[|r|] != f'[|f|]
  {
    assert r' == r + [r'[|r|]] && f' == f + [f'[|f|]];
  }

  lemma {:induction false} StaleLines(l: Listing, k: nat, hashes: Memos, sum: Bytes -> string)
    requires k <= |l.names| && Scan(l, k, hashes, sum).0.Ok?
    ensures var files := Scan(l, k, hashes, sum).0.value;
            |files| == |Fresh(l, k, sum)| && (files != Fresh(l, k, sum) <==> AnyStale(l, k, hashes, sum))
    decreases k
  {
    if k > 0 {
      AnyStaleStep(l, k, hashes, sum);
      var before := Scan(l, k - 1, hashes, sum).0;
      if before.Ok? {
        StaleLines(l, k - 1, hashes, sum);
        if Counts(l, l.names[k - 1]) {
          LineExactly(l, k, hashes, sum);
          OneMoreLine(before.value, Fresh(l, k - 1, sum), Scan(l, k, hashes, sum).0.value, Fresh(l, k, sum));
        }
      }
    }
  }

  lemma {:induction false} BlocksExactly(l: Listing, k: nat, hashes: Memos, sum: Bytes -> string)
    requires k <= |l.names|
    ensures Scan(l, k, hashes, sum).0.Err? <==> exists i :: 0 <= i < k && Blocks(l, hashes, l.names[i])
    decreases k
  {
    if k > 0 {
      BlocksExactly(l, k - 1, hashes, sum);
      if Counts(l, l.names[k - 1]) && Scan(l, k - 1, hashes, sum).0.Ok? {
        LineExactly(l, k, hashes, sum);
      }
    }
  }

  /**
   * The manifest differs from the fresh one exactly when some remembered sum is not the sum of the
   * file's present content, and fails exactly when a regular file is neither remembered nor readable.
   */
  lemma StaleExactly(l: Listing, k: nat, hashes: Memos, sum: Bytes -> string)
    requires k <= |l.names|
    ensures var r := Scan(l, k, hashes, sum).0;
            && (r.Ok? ==> |r.value| == |Fresh(l, k, sum)|)
            && (r.Ok? ==> (r.value != Fresh(l, k, sum) <==> AnyStale(l, k, hashes, sum)))
            && (r.Err? <==> exists i :: 0 <= i < k && Blocks(l, hashes, l.names[i]))
  {
    BlocksExactly(l, k, hashes, sum);
    if Scan(l, k, hashes, sum).0.Ok? {
      StaleLines(l, k, hashes, sum);
    }
  }

  // ---- what a manifest says ----

  /** The regular files among the first k names, in their order. */
  function RegularNames(l: Listing, k: nat): seq<string>
    requires k <= |l.names|
  {
    if k == 0 then []
    else
      var name := l.names[k - 1];
      RegularNames(l, k - 1) + (if name in l.stat && l.stat[name].Regular? then [name] else [])
  }

  /** The file is on record under its path with the size and the mtime that it has now. */
  predicate OnRecord(l: Listing, hashes: Memos, name: string)
    requires name in l.stat && l.stat[name].Regular?
  {
    var full := l.dir + "/" + name;
    full in hashes && hashes[full].size == l.stat[name].size && hashes[full].mtime == l.stat[name].mtime
  }

  /** What the manifest says of one file, given what was on record before the request. */
  predicate Tells(file: CodecFile, l: Listing, hashes: Memos, sum: Bytes -> string, name: string) {
    && name in l.stat && l.stat[name].Regular?
    && file.name == name && file.size == l.stat[name].size
    && file.sha == if OnRecord(l, hashes, name) then hashes[l.dir + "/" + name].sum else sum(l.stat[name].content)
  }

  lemma OneTells(l: Listing, k: nat, hashes: Memos, sum: Bytes -> string)
    requires 0 < k <= |l.names| && Counts(l, l.names[k - 1]) && Scan(l, k, hashes, sum).0.Ok?
    ensures Scan(l, k - 1, hashes, sum).0.Ok?
    ensures
      var front, files := Scan(l, k - 1, hashes, sum).0.value, Scan(l, k, hashes, sum).0.value;
      && |files| == |front| + 1 && files[..|front|] == front
      && Tells(files[|front|], l, hashes, sum, l.names[k - 1])
  {
    ScanMemo(l, k - 1, hashes, sum, l.names[k - 1]);
  }

  lemma SkipTells(l: Listing, k: nat, hashes: Memos, sum: Bytes -> string)
    requires 0 < k <= |l.names| && !Counts(l, l.names[k - 1])
    ensures Scan(l, k, hashes, sum) == Scan(l, k - 1, hashes, sum) && RegularNames(l, k) == RegularNames(l, k - 1)
  {
    assert RegularNames(l, k - 1) + [] == RegularNames(l, k - 1);
  }

  /**
   * What a manifest says, line by line: it lists exactly the regular files of the directory in their
   * order, each with its size, and with the sum on record if that was taken under the same size and
   * mtime, else with that of its content.
   */
  lemma {:induction false} ManifestTells(l: Listing, k: nat, hashes: Memos, sum: Bytes -> string)
    requires k <= |l.names| && Scan(l, k, hashes, sum).0.Ok?
    ensures
      var files, regular := Scan(l, k, hashes, sum).0.value, RegularNames(l, k);
      |files| == |regular| && forall i :: 0 <= i < |files| ==> Tells(files[i], l, hashes, sum, regular[i])
    decreases k
  {
    if k > 0 {
      if Counts(l, l.names[k - 1]) {
        OneTells(l, k, hashes, sum);
        ManifestTells(l, k - 1, hashes, sum);
        var front, files := Scan(l, k - 1, hashes, sum).0.value, Scan(l, k, hashes, sum).0.value;
        assert forall i :: 0 <= i < |front| ==> files[i] == files[..|front|][i];
      } else {
        SkipTells(l, k, hashes, sum);
        ManifestTells(l, k - 1, hashes, sum);
      }
    }
  }

  /** The memo of one file after it was told. */
  predicate Kept(now: Memos, l: Listing, hashes: Memos, sum: Bytes -> string, name: string)
    requires name in l.stat && l.stat[name].Regular?
  {
    var full := l.dir + "/" + name;
    && full in now && now[full].size == l.stat[name].size && now[full].mtime == l.stat[name].mtime
    && now[full].sum == if OnRecord(l, hashes, name) then hashes[full].sum else sum(l.stat[name].content)
  }

  lemma KeptStays(l: Listing, k: nat, hashes: Memos, sum: Bytes -> string, name: string)
    requires 0 < k <= |l.names| && Counts(l, name) && Scan(l, k, hashes, sum).0.Ok?
    requires Kept(Scan(l, k - 1, hashes, sum).1, l, hashes, sum, name)
    ensures Kept(Scan(l, k, hashes, sum).1, l, hashes, sum, name)
  {
    ScanMemo(l, k, hashes, sum, name);
    ScanMemo(l, k - 1, hashes, sum, name);
    if FullName(l, name) == FullName(l, l.names[k - 1]) {
      FullNameInjective(l, name, l.names[k - 1]);
    }
  }

  /**
   * What a request remembers: every regular file that it told, with the stamp of now and the sum that it
   * told.
   */
  lemma {:induction false} ManifestKeeps(l: Listing, k: nat, hashes: Memos, sum: Bytes -> string, name: string)
    requires k <= |l.names| && Scan(l, k, hashes, sum).0.Ok? && name in RegularNames(l, k)
    ensures name in l.stat && l.stat[name].Regular? && Kept(Scan(l, k, hashes, sum).1, l, hashes, sum, name)
    decreases k
  {
    if name in RegularNames(l, k - 1) {
      ManifestKeeps(l, k - 1, hashes, sum, name);
      KeptStays(l, k, hashes, sum, name);
    } else {
      assert name == l.names[k - 1];
      ScanMemo(l, k - 1, hashes, sum, name);
    }
  }

  /** What is on record for other paths stays as it was. */
  lemma {:induction false} OthersKept(l: Listing, k: nat, hashes: Memos, sum: Bytes -> string, full: string)
    requires k <= |l.names| && forall i :: 0 <= i < k ==> full != l.dir + "/" + l.names[i]
    ensures full in Scan(l, k, hashes, sum).1 <==> full in hashes
    ensures full in hashes ==> Scan(l, k, hashes, sum).1[full] == hashes[full]
    decreases k
  {
    if k > 0 {
      OthersKept(l, k - 1, hashes, sum, full);
    }
  }

  /** It fails exactly when a regular file is neither on record nor readable. */
  lemma ManifestFails(l: Listing, hashes: Memos, sum: Bytes -> string)
    ensures Scan(l, |l.names|, hashes, sum).0.Err? <==>
              exists i :: 0 <= i < |l.names| && Unknown(l, hashes, l.names[i])
  {
    BlocksExactly(l, |l.names|, hashes, sum);
    forall i | 0 <= i < |l.names|
      ensures Blocks(l, hashes, l.names[i]) <==> Unknown(l, hashes, l.names[i])
    {
    }
  }

  predicate Unknown(l: Listing, hashes: Memos, name: string) {
    name in l.stat && l.stat[name].Regular? && !OnRecord(l, hashes, name) && name !in l.readable
  }

  // ---- over a sequence of requests ----

  /** The memo after the requests, from an empty one. */
  function After(ls: seq<Listing>, sum: Bytes -> string): Memos {
    if ls == [] then map[]
    else
      var l := ls[|ls| - 1];
      Scan(l, |l.names|, After(ls[..|ls| - 1], sum), sum).1
  }

  /** The listing shows that file under that stamp, with a content of that sum. */
  predicate Shows(l: Listing, name: string, full: string, memo: Memo, sum: Bytes -> string) {
    && Counts(l, name) && FullName(l, name) == full
    && memo == Memo(l.stat[name].size, l.stat[name].mtime, sum(l.stat[name].content))
  }

  ghost predicate Seen(ls: seq<Listing>, full: string, memo: Memo, sum: Bytes -> string) {
    exists j, name :: 0 <= j < |ls| && Shows(ls[j], name, full, memo, sum)
  }

  lemma {:induction false} ScanLearns(l: Listing, k: nat, hashes: Memos, sum: Bytes -> string, full: string)
    requires k <= |l.names| && full in Scan(l, k, hashes, sum).1
    ensures var memo := Scan(l, k, hashes, sum).1[full];
            (full in hashes && hashes[full] == memo) || exists name :: Shows(l, name, full, memo, sum)
    decreases k
  {
    if k > 0 {
      if full in Scan(l, k - 1, hashes, sum).1 {
        ScanLearns(l, k - 1, hashes, sum, full);
      }
      var memo := Scan(l, k, hashes, sum).1[full];
      if full !in Scan(l, k - 1, hashes, sum).1 || memo != Scan(l, k - 1, hashes, sum).1[full] {
        assert Shows(l, l.names[k - 1], full, memo, sum);
      }
    }
  }

  /** Every remembered sum is that of a content which some earlier request saw under the remembered stamp. */
  lemma {:induction false} AllSeen(ls: seq<Listing>, sum: Bytes -> string, full: string)
    requires full in After(ls, sum)
    ensures Seen(ls, full, After(ls, sum)[full], sum)
    decreases |ls|
  {
    if ls != [] {
      var l := ls[|ls| - 1];
      var before := After(ls[..|ls| - 1], sum);
      ScanLearns(l, |l.names|, before, sum, full);
      var memo := After(ls, sum)[full];
      if full in before && before[full] == memo {
        AllSeen(ls[..|ls| - 1], sum, full);
        var j, name :| 0 <= j < |ls| - 1 && Shows(ls[j], name, full, memo, sum);
        assert Shows(ls[j], name, full, memo, sum);
      } else {
        var name :| Shows(l, name, full, memo, sum);
        assert Shows(ls[|ls| - 1], name, full, memo, sum);
      }
    }
  }

  /** The file had the same path, size and mtime in both listings, and its contents have different sums. */
  predicate SameStamp(l1: Listing, n1: string, l2: Listing, n2: string, sum: Bytes -> string) {
    && Counts(l1, n1) && Counts(l2, n2) && FullName(l1, n1) == FullName(l2, n2)
    && l1.stat[n1].size == l2.stat[n2].size && l1.stat[n1].mtime == l2.stat[n2].mtime
    && sum(l1.stat[n1].content) != sum(l2.stat[n2].content)
  }

  ghost predicate Rewritten(ls: seq<Listing>, l: Listing, name: string, sum: Bytes -> string) {
    exists j, n :: 0 <= j < |ls| && SameStamp(ls[j], n, l, name, sum)
  }

  lemma StaleWasSeen(ls: seq<Listing>, l: Listing, hashes: Memos, name: string, sum: Bytes -> string)
    requires hashes == After(ls, sum) && StaleHit(l, hashes, sum, name)
    ensures Rewritten(ls, l, name, sum)
  {
    var full := FullName(l, name);
    AllSeen(ls, sum, full);
    var j, n :| 0 <= j < |ls| && Shows(ls[j], n, full, hashes[full], sum);
    assert SameStamp(ls[j], n, l, name, sum);
  }

  /**
   * So over any sequence of requests a manifest that differs from the fresh one means that a file
   * has been rewritten under the same size and mtime since an earlier request.
   */
  lemma StaleNeedsSameStamp(ls: seq<Listing>, l: Listing, sum: Bytes -> string)
    requires var r := Scan(l, |l.names|, After(ls, sum), sum).0; r.Ok? && r.value != Fresh(l, |l.names|, sum)
    ensures exists i :: 0 <= i < |l.names| && Rewritten(ls, l, l.names[i], sum)
  {
    var hashes := After(ls, sum);
    StaleExactly(l, |l.names|, hashes, sum);
    var i :| 0 <= i < |l.names| && StaleHit(l, hashes, sum, l.names[i]);
    StaleWasSeen(ls, l, hashes, l.names[i], sum);
  }
}
