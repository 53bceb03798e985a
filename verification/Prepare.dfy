/** The argv and media map of a job, resolved on the worker (internal/workerd/job.go, prepare). */
module Prepare {
  import opened Prelude
  import opened Text
  import opened Decimal
  import opened Paths
  import opened Placeholders
  import opened Substitute
  import opened RewriteSpec
  import opened RewriteShape

  /** A media reference as it is sent: the mode is any text. */
  datatype MediaRef = MediaRef(url: string, mode: string)

  const STREAM_MODE: string := "stream"
  const SPOOL_MODE: string := "spool"

  datatype PrepareError =
    | ShortArgv
    | BadKey(key: string)
    | SpoolFailed(key: string)
    | UnknownMode(key: string)
    | Unresolved(token: nat)

  /** The local value of a key, or why there is none: `spooled` has the files that could be fetched. */
  function ValueOf(k: string, media: map<string, MediaRef>, spooled: map<string, string>): Result<string, PrepareError>
    requires k in media
  {
    if Atoi(k).None? || Atoi(k).value < 0 then Err(BadKey(k))
    else if media[k].mode == STREAM_MODE then Ok(media[k].url)
    else if media[k].mode != SPOOL_MODE then Err(UnknownMode(k))
    else if k in spooled then Ok(spooled[k])
    else Err(SpoolFailed(k))
  }

  /**
   * What one key of the media map comes to. It has a value if it is a number from 0 on and its reference is
   * streamed, by its URL, or spooled, by its local copy. If not, the first of these is what is wrong: the key
   * is no such number, the mode is neither "stream" nor "spool", there is no local copy.
   */
  lemma KeyDecides(k: string, media: map<string, MediaRef>, spooled: map<string, string>)
    requires k in media
    ensures
      var r, mode := ValueOf(k, media, spooled), media[k].mode;
      var index := Atoi(k).Some? && Atoi(k).value >= 0;
      && (r.Ok? <==> index && (mode == "stream" || (mode == "spool" && k in spooled)))
      && (r.Ok? ==> r.value == if mode == "stream" then media[k].url else spooled[k])
      && (r == Err(BadKey(k)) <==> !index)
      && (r == Err(UnknownMode(k)) <==> index && mode !in {"stream", "spool"})
      && (r == Err(SpoolFailed(k)) <==> index && mode == "spool" && k !in spooled)
  {
    assert "stream" != "spool" by {
      assert |"stream"| == 6 && |"spool"| == 5;
    }
  }

  /** Every key has a value. */
  predicate AllHave(keys: seq<string>, media: map<string, MediaRef>, spooled: map<string, string>) {
    forall i :: 0 <= i < |keys| ==> keys[i] in media && ValueOf(keys[i], media, spooled).Ok?
  }

  /** One assignment after the other. */
  function Assigned(marks: seq<string>, vals: seq<string>): map<string, string>
    requires |marks| == |vals|
    decreases |marks|
  {
    if marks == [] then map[]
    else Assigned(marks[..|marks| - 1], vals[..|vals| - 1])[marks[|marks| - 1] := vals[|vals| - 1]]
  }

  function Mark(k: string): string
    requires Atoi(k).Some? && Atoi(k).value >= 0
  {
    MediaPlaceholder(Atoi(k).value)
  }

  function Marks(keys: seq<string>, media: map<string, MediaRef>, spooled: map<string, string>): (r: seq<string>)
    requires AllHave(keys, media, spooled)
    ensures |r| == |keys| && forall i :: 0 <= i < |keys| ==> r[i] == Mark(keys[i])
  {
    seq(|keys|, i requires 0 <= i < |keys| => Mark(keys[i]))
  }

  function Locals(keys: seq<string>, media: map<string, MediaRef>, spooled: map<string, string>): (r: seq<string>)
    requires AllHave(keys, media, spooled)
    ensures |r| == |keys| && forall i :: 0 <= i < |keys| ==> r[i] == ValueOf(keys[i], media, spooled).value
  {
    seq(|keys|, i requires 0 <= i < |keys| => ValueOf(keys[i], media, spooled).value)
  }

  function Indices(keys: seq<string>, media: map<string, MediaRef>, spooled: map<string, string>): (r: seq<nat>)
    requires AllHave(keys, media, spooled)
    ensures |r| == |keys| && forall i :: 0 <= i < |keys| ==> r[i] == Atoi(keys[i]).value
  {
    seq(|keys|, i requires 0 <= i < |keys| => Atoi(keys[i]).value)
  }

  /** The values by placeholder; of two keys with one index the later one counts. */
  function Values(keys: seq<string>, media: map<string, MediaRef>, spooled: map<string, string>): map<string, string>
    requires AllHave(keys, media, spooled)
  {
    Assigned(Marks(keys, media, spooled), Locals(keys, media, spooled))
  }

  /** The error of the first key without a value. */
  ghost predicate FirstError(keys: seq<string>, media: map<string, MediaRef>, spooled: map<string, string>, e: PrepareError) {
    exists i :: 0 <= i < |keys| && keys[i] in media && ValueOf(keys[i], media, spooled) == Err(e)
      && AllHave(keys[..i], media, spooled)
  }

  lemma AllHaveMore(front: seq<string>, k: string, media: map<string, MediaRef>, spooled: map<string, string>)
    requires AllHave(front, media, spooled) && k in media && ValueOf(k, media, spooled).Ok?
    ensures AllHave(front + [k], media, spooled)
  {
  }

  lemma OneMoreKey(front: seq<string>, k: string, media: map<string, MediaRef>, spooled: map<string, string>)
    requires AllHave(front, media, spooled) && AllHave(front + [k], media, spooled)
    requires Atoi(k).Some? && Atoi(k).value >= 0 && k in media && ValueOf(k, media, spooled).Ok?
    ensures Values(front + [k], media, spooled)
         == Values(front, media, spooled)[Mark(k) := ValueOf(k, media, spooled).value]
  {
    var marks, vals := Marks(front + [k], media, spooled), Locals(front + [k], media, spooled);
    assert marks == Marks(front, media, spooled) + [Mark(k)];
    assert vals == Locals(front, media, spooled) + [ValueOf(k, media, spooled).value];
    AssignedMore(Marks(front, media, spooled), Locals(front, media, spooled), Mark(k), ValueOf(k, media, spooled).value);
  }

  lemma AssignedMore(marks: seq<string>, vals: seq<string>, ph: string, v: string)
    requires |marks| == |vals|
    ensures Assigned(marks + [ph], vals + [v]) == Assigned(marks, vals)[ph := v]
  {
    assert (marks + [ph])[..|marks|] == marks && (vals + [v])[..|vals|] == vals;
  }

  lemma NextKey(keys: seq<string>, i: nat, media: map<string, MediaRef>, spooled: map<string, string>)
    requires i < |keys| && keys[i] in media && AllHave(keys[..i], media, spooled) && ValueOf(keys[i], media, spooled).Ok?
    ensures Atoi(keys[i]).Some? && Atoi(keys[i]).value >= 0 && AllHave(keys[..i + 1], media, spooled)
    ensures Values(keys[..i + 1], media, spooled)
         == Values(keys[..i], media, spooled)[Mark(keys[i]) := ValueOf(keys[i], media, spooled).value]
  {
    AllHaveMore(keys[..i], keys[i], media, spooled);
    OneMoreKey(keys[..i], keys[i], media, spooled);
    assert keys[..i + 1] == keys[..i] + [keys[i]];
  }

  lemma NoneAfterError(keys: seq<string>, i: nat, media: map<string, MediaRef>, spooled: map<string, string>, e: PrepareError)
    requires i < |keys| && keys[i] in media && AllHave(keys[..i], media, spooled) && ValueOf(keys[i], media, spooled) == Err(e)
    ensures FirstError(keys, media, spooled, e) && !AllHave(keys, media, spooled)
  {
  }

  /** One pass of the loop: the key, then the mode. */
  method MediaValue(k: string, media: map<string, MediaRef>, spooled: map<string, string>)
    returns (r: Result<string, PrepareError>)
    requires k in media
    ensures r == ValueOf(k, media, spooled)
  {
    var idx := Atoi(k);
    if idx.None? || idx.value < 0 {
      return Err(BadKey(k));
    }
    var ref := media[k];
    if ref.mode == SPOOL_MODE {
      if k !in spooled {
        return Err(SpoolFailed(k));
      }
      return Ok(spooled[k]);
    }
    if ref.mode != STREAM_MODE {
      return Err(UnknownMode(k));
    }
    r := Ok(ref.url);
  }

  /** The loop over the sorted keys. */
  method MediaValues(keys: seq<string>, media: map<string, MediaRef>, spooled: map<string, string>)
    returns (r: Result<map<string, string>, PrepareError>)
    requires forall i :: 0 <= i < |keys| ==> keys[i] in media
    ensures r.Ok? <==> AllHave(keys, media, spooled)
    ensures r.Ok? ==> r.value == Values(keys, media, spooled)
    ensures r.Err? ==> FirstError(keys, media, spooled, r.error)
  {
    var values: map<string, string> := map[];
    for i := 0 to |keys|
      invariant AllHave(keys[..i], media, spooled)
      invariant values == Values(keys[..i], media, spooled)
    {
      var value := MediaValue(keys[i], media, spooled);
      if value.Err? {
        NoneAfterError(keys, i, media, spooled, value.error);
        return Err(value.error);
      }
      NextKey(keys, i, media, spooled);
      values := values[MediaPlaceholder(Atoi(keys[i]).value) := value.value];
    }
    assert keys[..|keys|] == keys;
    r := Ok(values);
  }

  lemma {:induction false} AssignedOnly(marks: seq<string>, vals: seq<string>)
    requires |marks| == |vals|
    ensures forall ph :: ph in Assigned(marks, vals) ==> ph in marks
    decreases |marks|
  {
    if marks != [] {
      AssignedOnly(marks[..|marks| - 1], vals[..|vals| - 1]);
    }
  }

  lemma ValuesKeyed(keys: seq<string>, media: map<string, MediaRef>, spooled: map<string, string>)
    requires AllHave(keys, media, spooled)
    ensures forall ph :: ph in Values(keys, media, spooled) ==> ph != ""
  {
    AssignedOnly(Marks(keys, media, spooled), Locals(keys, media, spooled));
  }

  /** What `prepare` makes of a request: the argv to run, or the first thing that stops the job. */
  ghost predicate Prepared(argv: seq<string>, keys: seq<string>, media: map<string, MediaRef>, spooled: map<string, string>,
                           outDir: string, proxyBase: string, plexDir: string, r: Result<seq<string>, PrepareError>)
  {
    if |argv| < 2 then r == Err(ShortArgv)
    else if !AllHave(keys, media, spooled) then r.Err? && FirstError(keys, media, spooled, r.error)
    else
      var values := Values(keys, media, spooled);
      match r
      case Ok(out) =>
        |out| == |argv| && forall i :: 0 <= i < |argv| ==> Resolved(argv[i], out[i], outDir, proxyBase, plexDir, values)
      case Err(e) =>
        e.Unresolved? && e.token < |argv| && Refused(argv[e.token], outDir, proxyBase, plexDir, values)
  }

  ghost predicate Resolved(tok: string, out: string, outDir: string, proxyBase: string, plexDir: string,
                           values: map<string, string>)
  {
    Substituted(tok, out, outDir, proxyBase, plexDir, values) && !Contains(out, MEDIA_PREFIX)
  }

  ghost predicate Refused(tok: string, outDir: string, proxyBase: string, plexDir: string, values: map<string, string>) {
    exists out :: Substituted(tok, out, outDir, proxyBase, plexDir, values) && Contains(out, MEDIA_PREFIX)
  }

  /** prepare, up to the environment: the media loop, then substitution. */
  method PrepareArgv(argv: seq<string>, keys: seq<string>, media: map<string, MediaRef>, spooled: map<string, string>,
                     outDir: string, proxyBase: string, plexDir: string)
    returns (r: Result<seq<string>, PrepareError>)
    requires forall i :: 0 <= i < |keys| ==> keys[i] in media
    ensures Prepared(argv, keys, media, spooled, outDir, proxyBase, plexDir, r)
  {
    if |argv| < 2 {
      return Err(ShortArgv);
    }
    var values := MediaValues(keys, media, spooled);
    if values.Err? {
      return Err(values.error);
    }
    ValuesKeyed(keys, media, spooled);
    var out := SubstituteArgv(argv, outDir, proxyBase, plexDir, values.value);
    match out
    case Ok(tokens) => r := Ok(tokens);
    case Err(i) =>
      assert Refused(argv[i], outDir, proxyBase, plexDir, values.value);
      r := Err(Unresolved(i));
  }

  // ---- the request that the shim sends ----

  function ModeText(m: Mode): string {
    if m.Stream? then STREAM_MODE else SPOOL_MODE
  }

  /** The media map for a table, and its keys in any order. */
  ghost predicate ShimMedia(keys: seq<string>, media: map<string, MediaRef>, table: seq<Media>) {
    && (forall i :: 0 <= i < |keys| ==> exists k :: 0 <= k < |table| && keys[i] == Dec(k))
    && (forall k :: 0 <= k < |table| ==>
          Dec(k) in keys && Dec(k) in media && media[Dec(k)].mode == ModeText(table[k].mode))
  }

  /** Every spool reference could be fetched. */
  ghost predicate Fetched(spooled: map<string, string>, table: seq<Media>) {
    forall k :: 0 <= k < |table| && table[k].mode.Spool? ==> Dec(k) in spooled
  }

  /** The local value of the reference with index k. */
  function Where(k: nat, media: map<string, MediaRef>, spooled: map<string, string>, table: seq<Media>): string
    requires k < |table| && Dec(k) in media && (table[k].mode.Spool? ==> Dec(k) in spooled)
  {
    if table[k].mode.Stream? then media[Dec(k)].url else spooled[Dec(k)]
  }

  /** What the worker substitutes for index k is the value of the reference the shim listed as k. */
  ghost predicate Holds(values: map<string, string>, media: map<string, MediaRef>, spooled: map<string, string>,
                        table: seq<Media>)
    requires Fetched(spooled, table) && forall k :: 0 <= k < |table| ==> Dec(k) in media
  {
    && values.Keys == MediaSet(|table|)
    && forall k :: 0 <= k < |table| ==>
         MediaPlaceholder(k) in values && values[MediaPlaceholder(k)] == Where(k, media, spooled, table)
  }

  /** Assignments by index: every index has its own value, and there is nothing else. */
  lemma {:induction false} AssignedByIndex(marks: seq<string>, vals: seq<string>, idx: seq<nat>, wheres: seq<string>, k: nat)
    requires |marks| == |vals| == |idx|
    requires forall i :: 0 <= i < |idx| ==> idx[i] < |wheres| && marks[i] == MediaPlaceholder(idx[i]) && vals[i] == wheres[idx[i]]
    ensures MediaPlaceholder(k) in Assigned(marks, vals) <==> k in idx
    ensures k in idx ==> k < |wheres| && Assigned(marks, vals)[MediaPlaceholder(k)] == wheres[k]
    decreases |marks|
  {
    if marks != [] {
      var n := |marks| - 1;
      AssignedByIndex(marks[..n], vals[..n], idx[..n], wheres, k);
      assert idx == idx[..n] + [idx[n]];
      if MediaPlaceholder(k) == marks[n] {
        MediaInjective(k, idx[n]);
      }
    }
  }

  lemma ShimKey(keys: seq<string>, media: map<string, MediaRef>, spooled: map<string, string>, table: seq<Media>, i: nat)
    requires ShimMedia(keys, media, table) && |table| <= MAX_INT64 && i < |keys|
    ensures Atoi(keys[i]).Some? && 0 <= Atoi(keys[i]).value < |table| && keys[i] == Dec(Atoi(keys[i]).value)
    ensures keys[i] in media
    ensures var k := Atoi(keys[i]).value;
            ValueOf(keys[i], media, spooled) == if table[k].mode.Spool? && keys[i] !in spooled then Err(SpoolFailed(keys[i]))
                                                else Ok(Where(k, media, spooled, table))
  {
    var k :| 0 <= k < |table| && keys[i] == Dec(k);
    AtoiDec(k);
  }

  lemma ShimKeyOf(keys: seq<string>, media: map<string, MediaRef>, table: seq<Media>, k: nat) returns (i: nat)
    requires ShimMedia(keys, media, table) && k < |table| <= MAX_INT64
    ensures i < |keys| && keys[i] == Dec(k) && Atoi(keys[i]) == Some(k)
  {
    AtoiDec(k);
    i :| 0 <= i < |keys| && keys[i] == Dec(k);
  }

  /** With one assignment for each index there are exactly the placeholders of a table. */
  lemma IndexedHolds(marks: seq<string>, vals: seq<string>, idx: seq<nat>, wheres: seq<string>)
    requires |marks| == |vals| == |idx|
    requires forall i :: 0 <= i < |idx| ==> idx[i] < |wheres| && marks[i] == MediaPlaceholder(idx[i]) && vals[i] == wheres[idx[i]]
    requires forall k :: 0 <= k < |wheres| ==> k in idx
    ensures Assigned(marks, vals).Keys == MediaSet(|wheres|)
    ensures forall k :: 0 <= k < |wheres| ==>
              MediaPlaceholder(k) in Assigned(marks, vals) && Assigned(marks, vals)[MediaPlaceholder(k)] == wheres[k]
  {
    AssignedOnly(marks, vals);
    forall k | 0 <= k < |wheres|
      ensures MediaPlaceholder(k) in Assigned(marks, vals) && Assigned(marks, vals)[MediaPlaceholder(k)] == wheres[k]
    {
      AssignedByIndex(marks, vals, idx, wheres, k);
    }
  }

  /** For the media map of the shim, no key is refused and no value is lost, in any key order. */
  lemma ShimValues(keys: seq<string>, media: map<string, MediaRef>, spooled: map<string, string>, table: seq<Media>)
    requires ShimMedia(keys, media, table) && Fetched(spooled, table) && |table| <= MAX_INT64
    ensures AllHave(keys, media, spooled)
    ensures Holds(Values(keys, media, spooled), media, spooled, table)
  {
    forall i | 0 <= i < |keys|
      ensures keys[i] in media && ValueOf(keys[i], media, spooled).Ok?
    {
      ShimKey(keys, media, spooled, table, i);
    }
    var wheres := seq(|table|, k requires 0 <= k < |table| => Where(k, media, spooled, table));
    ShimIndexed(keys, media, spooled, table, wheres);
    IndexedHolds(Marks(keys, media, spooled), Locals(keys, media, spooled), Indices(keys, media, spooled), wheres);
  }

  lemma ShimIndexed(keys: seq<string>, media: map<string, MediaRef>, spooled: map<string, string>, table: seq<Media>,
                    wheres: seq<string>)
    requires ShimMedia(keys, media, table) && Fetched(spooled, table) && |table| <= MAX_INT64
    requires AllHave(keys, media, spooled)
    requires |wheres| == |table| && forall k :: 0 <= k < |table| ==> wheres[k] == Where(k, media, spooled, table)
    ensures
      var idx := Indices(keys, media, spooled);
      && (forall i :: 0 <= i < |idx| ==>
            && idx[i] < |wheres| && Marks(keys, media, spooled)[i] == MediaPlaceholder(idx[i])
            && Locals(keys, media, spooled)[i] == wheres[idx[i]])
      && (forall k :: 0 <= k < |wheres| ==> k in idx)
  {
    var idx := Indices(keys, media, spooled);
    forall i | 0 <= i < |idx|
      ensures idx[i] < |wheres| && Marks(keys, media, spooled)[i] == MediaPlaceholder(idx[i])
      ensures Locals(keys, media, spooled)[i] == wheres[idx[i]]
    {
      ShimKey(keys, media, spooled, table, i);
    }
    forall k | 0 <= k < |wheres|
      ensures k in idx
    {
      var i := ShimKeyOf(keys, media, table, k);
      assert idx[i] == k;
    }
  }

  // ---- the spooled file ----

  /** filepath.Ext: from the last '.' of the last element. */
  function Ext(p: string): (e: string)
    ensures |e| <= |p| && p[|p| - |e|..] == e
    decreases |p|
  {
    if p == "" || p[|p| - 1] == '/' then ""
    else if p[|p| - 1] == '.' then "."
    else
      var e := Ext(p[..|p| - 1]);
      if e == "" then "" else e + [p[|p| - 1]]
  }

  lemma ExtOne(p: string, c: char)
    requires c != '.' && c != '/'
    ensures Ext(p + [c]) == if Ext(p) == "" then "" else Ext(p) + [c]
  {
    assert (p + [c])[..|p|] == p;
  }

  lemma {:induction false} ExtGrows(p: string, tail: string)
    requires '.' !in tail && '/' !in tail
    ensures Ext(p + tail) == if Ext(p) == "" then "" else Ext(p) + tail
    decreases |tail|
  {
    if tail == "" {
      assert p + tail == p && Ext(p) + tail == Ext(p);
    } else {
      ExtOne(p, tail[0]);
      ExtGrows(p + [tail[0]], tail[1..]);
      Rejoin(p, tail);
      Rejoin(Ext(p), tail);
    }
  }

  lemma Rejoin(p: string, tail: string)
    requires tail != ""
    ensures p + [tail[0]] + tail[1..] == p + tail
  {
  }

  /** The extension is what stands behind the last '.' of the last element, with the dot; or nothing. */
  lemma ExtMeans(front: string, tail: string)
    requires '.' !in tail && '/' !in tail
    ensures Ext(front + "." + tail) == "." + tail
    ensures front == "" || front[|front| - 1] == '/' ==> Ext(front + tail) == ""
  {
    ExtGrows(front + ".", tail);
    ExtGrows(front, tail);
  }

  /** Where a reference is spooled to: only the extension of its path is kept. */
  function SpoolFile(spoolDir: string, k: nat, path: string): string {
    JoinPath(spoolDir, "m" + Dec(k) + Ext(path))
  }

  /** The spooled file lies in the spool dir, named by its index and with the extension of its path. */
  lemma SpoolFileIs(dir: seq<string>, k: nat, path: string)
    requires AllPlain(dir) && dir != [] && '/' !in Ext(path)
    ensures SpoolFile(Rooted(dir), k, path) == Rooted(dir) + "/m" + Dec(k) + Ext(path)
  {
    var name := "m" + Dec(k) + Ext(path);
    SpoolName(k, Ext(path));
    JoinRooted(dir, [name]);
    PlainIsClean(dir + [name]);
    SlashM(Rooted(dir), Dec(k), Ext(path));
  }

  lemma SpoolName(k: nat, ext: string)
    requires '/' !in ext
    ensures Plain("m" + Dec(k) + ext)
  {
    assert AllDigits(Dec(k));
    assert ("m" + Dec(k) + ext)[0] == 'm';
  }

  lemma SlashM(dir: string, digits: string, ext: string)
    ensures dir + "/" + ("m" + digits + ext) == dir + "/m" + digits + ext
  {
  }

  lemma ExtNoOpen(path: string)
    requires NoOpen(path)
    ensures NoOpen(Ext(path))
  {
    assert path[|path| - |Ext(path)|..] == Ext(path);
  }

  lemma SpoolFileNoOpen(spoolDir: string, k: nat, path: string)
    requires NoOpen(spoolDir) && NoOpen(Ext(path))
    ensures NoOpen(SpoolFile(spoolDir, k, path))
  {
    var name := "m" + Dec(k) + Ext(path);
    assert '{' !in spoolDir + "/" + name by {
      assert AllDigits(Dec(k));
    }
    CleanLacks(spoolDir + "/" + name, '{');
  }

  /** What was spooled is under the names that the worker gives. */
  ghost predicate Spooled(spooled: map<string, string>, spoolDir: string, table: seq<Media>) {
    forall key :: key in spooled ==> IsSpooled(key, spooled[key], spoolDir, table)
  }

  ghost predicate IsSpooled(key: string, file: string, spoolDir: string, table: seq<Media>) {
    exists k :: 0 <= k < |table| && key == Dec(k) && file == SpoolFile(spoolDir, k, table[k].path)
  }

  /** No path's extension has a '{'. */
  ghost predicate ExtsNoOpen(table: seq<Media>) {
    forall k :: 0 <= k < |table| ==> NoOpen(Ext(table[k].path))
  }

  lemma SpooledNoOpen(spooled: map<string, string>, spoolDir: string, table: seq<Media>)
    requires Spooled(spooled, spoolDir, table) && ExtsNoOpen(table) && NoOpen(spoolDir)
    ensures forall key :: key in spooled ==> NoOpen(spooled[key])
  {
    forall key | key in spooled
      ensures NoOpen(spooled[key])
    {
      assert IsSpooled(key, spooled[key], spoolDir, table);
      var k :| 0 <= k < |table| && key == Dec(k) && spooled[key] == SpoolFile(spoolDir, k, table[k].path);
      SpoolFileNoOpen(spoolDir, k, table[k].path);
    }
  }
}
