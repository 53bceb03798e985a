/**
 * The argv that the worker's transcoder is started with, token by token, in terms of the argv that the
 * master's media server gave: where paths, URLs and inputs point on the worker.
 */
module WorkerArgv {
  import opened Prelude
  import opened Text
  import opened Decimal
  import opened Paths
  import opened Placeholders
  import opened Filters
  import opened FilterMeaning
  import opened FilterPaths
  import opened RewriteSpec
  import opened RewriteShape
  import opened Substitute
  import opened Prepare
  import opened RoundTrip

  // ---- replaced text ----

  /** The text between the occurrences of `key`, leftmost first. */
  function Cuts(s: string, key: string): (parts: seq<string>)
    requires key != ""
    ensures parts != []
    decreases |s|
  {
    var i := Index(s, key);
    if i.None? then [s] else [s[..i.value]] + Cuts(s[i.value + |key|..], key)
  }

  function Joined(parts: seq<string>, sep: string): string {
    if parts == [] then ""
    else if |parts| == 1 then parts[0]
    else parts[0] + sep + Joined(parts[1..], sep)
  }

  lemma {:induction false} ReplaceNothing(s: string, key: string, repl: string)
    requires key != "" && !Contains(s, key)
    ensures ReplaceAll(s, key, repl) == s
    decreases |s|
  {
    if s != "" {
      ReplaceNothing(s[1..], key, repl);
    }
  }

  lemma ReplaceOne(s: string, key: string, repl: string)
    requires key != "" && s != "" && !(key <= s)
    ensures ReplaceAll(s, key, repl) == [s[0]] + ReplaceAll(s[1..], key, repl)
  {
  }

  /** Up to the first occurrence nothing changes. */
  lemma {:induction false} ReplaceAt(s: string, key: string, repl: string, k: nat)
    requires key != "" && Index(s, key) == Some(k)
    ensures ReplaceAll(s, key, repl) == s[..k] + (repl + ReplaceAll(s[k + |key|..], key, repl))
    decreases k
  {
    var rest := repl + ReplaceAll(s[k + |key|..], key, repl);
    if k == 0 {
      assert ReplaceAll(s, key, repl) == rest;
      assert s[..0] + rest == rest;
    } else {
      ReplaceOne(s, key, repl);
      ReplaceAt(s[1..], key, repl, k - 1);
      assert s[1..][k - 1 + |key|..] == s[k + |key|..];
      Assoc([s[0]], s[1..][..k - 1], rest);
      assert [s[0]] + s[1..][..k - 1] == s[..k];
    }
  }

  lemma JoinedFirst(first: string, rest: seq<string>, sep: string)
    requires rest != []
    ensures Joined([first] + rest, sep) == first + sep + Joined(rest, sep)
  {
    assert ([first] + rest)[1..] == rest;
  }

  lemma {:induction false} BeforeFirst(s: string, key: string, i: nat)
    requires key != "" && Index(s, key) == Some(i)
    ensures !Contains(s[..i], key)
    decreases i
  {
    if i > 0 {
      BeforeFirst(s[1..], key, i - 1);
      assert s[..i][1..] == s[1..][..i - 1];
      assert key <= s[..i] ==> key <= s;
    }
  }

  /** The parts joined with the key are the text again, and no part has the key. */
  lemma {:induction false} CutsMean(s: string, key: string)
    requires key != ""
    ensures Joined(Cuts(s, key), key) == s
    ensures forall part :: part in Cuts(s, key) ==> !Contains(part, key)
    decreases |s|
  {
    var i := Index(s, key);
    if i.Some? {
      var front, rest := s[..i.value], s[i.value + |key|..];
      CutsMean(rest, key);
      JoinedFirst(front, Cuts(rest, key), key);
      BeforeFirst(s, key, i.value);
      IndexMatches(s, key);
      assert s == front + key + rest;
    }
  }

  /** The text with every occurrence of the media server's URL prefix become the proxy's. */
  function WithBase(s: string, proxyBase: string): string {
    Joined(Cuts(s, PMS_URL_PREFIX), proxyBase)
  }

  // ---- a token that is no input ----

  /** `a` is a path below `dir`, and no server URL comes before the slash that follows `dir`. */
  predicate Below(a: string, dir: string) {
    dir + "/" <= a && (Contains(a, PMS_URL_PREFIX) ==> Index(a, PMS_URL_PREFIX).value > |dir|)
  }

  lemma {:induction false} MarksResolve(a: string, values: map<string, string>)
    requires NoOpen(a) && PMS in values
    ensures Resolve(ReplaceAll(a, PMS_URL_PREFIX, PMS), values) == WithBase(a, values[PMS])
    decreases |a|
  {
    FixedArePlaceholders();
    var i := Index(a, PMS_URL_PREFIX);
    if i.None? {
      ReplaceNothing(a, PMS_URL_PREFIX, PMS);
      ResolveNothing(a, values);
    } else {
      var front, rest := a[..i.value], a[i.value + |PMS_URL_PREFIX|..];
      var tail := ReplaceAll(rest, PMS_URL_PREFIX, PMS);
      ReplaceAt(a, PMS_URL_PREFIX, PMS, i.value);
      MarksResolve(rest, values);
      ResolvePlain(front, PMS + tail, values);
      ResolveFront(PMS, tail, values);
      JoinedFirst(front, Cuts(rest, PMS_URL_PREFIX), values[PMS]);
      Assoc(front, values[PMS], WithBase(rest, values[PMS]));
    }
  }

  /** Replacing occurrences behind position `k` leaves what stands before it. */
  lemma {:induction false} ReplaceAfter(a: string, k: nat, key: string, repl: string)
    requires key != "" && k <= |a| && (Contains(a, key) ==> Index(a, key).value >= k)
    ensures ReplaceAll(a, key, repl) == a[..k] + ReplaceAll(a[k..], key, repl)
    decreases k
  {
    var rest := ReplaceAll(a[k..], key, repl);
    if k == 0 {
      assert a[0..] == a && a[..0] + rest == rest;
    } else {
      ReplaceOne(a, key, repl);
      ReplaceAfter(a[1..], k - 1, key, repl);
      assert a[1..][k - 1..] == a[k..];
      Assoc([a[0]], a[1..][..k - 1], rest);
      assert [a[0]] + a[1..][..k - 1] == a[..k];
    }
  }

  /** The prefix is seen after the URLs are replaced exactly when no URL comes before its end. */
  lemma BelowMarked(a: string, dir: string)
    requires NoOpen(dir)
    ensures dir + "/" <= Marked(a) <==> Below(a, dir)
    ensures Below(a, dir) ==> Marked(a) == dir + Marked(a[|dir|..])
  {
    var k := |dir| + 1;
    if Below(a, dir) {
      ReplaceAfter(a, k, PMS_URL_PREFIX, PMS);
      assert a[..k] == dir + "/";
      ReplaceAfter(a, |dir|, PMS_URL_PREFIX, PMS);
      assert a[..|dir|] == dir;
    }
    if dir + "/" <= Marked(a) {
      PrefixBefore(a, PMS_URL_PREFIX, PMS, dir + "/");
      if Contains(a, PMS_URL_PREFIX) {
        UrlShows(a, Index(a, PMS_URL_PREFIX).value);
      }
    }
  }

  /** Where the first URL was, a '{' stands. */
  lemma UrlShows(a: string, i: nat)
    requires Index(a, PMS_URL_PREFIX) == Some(i)
    ensures i < |Marked(a)| && Marked(a)[i] == '{'
  {
    ReplaceAt(a, PMS_URL_PREFIX, PMS, i);
  }

  /** What becomes of a token that is no input and names no file in a filter string. */
  function TokenOnWorker(a: string, dirs: Dirs, outDir: string, proxyBase: string, plexDir: string): string {
    if Below(a, dirs.session) then outDir + WithBase(a[|dirs.session|..], proxyBase)
    else if Below(a, dirs.plex) then plexDir + WithBase(a[|dirs.plex|..], proxyBase)
    else WithBase(a, proxyBase)
  }

  lemma FrontResolves(t: string, rest: string, values: map<string, string>)
    requires IsPlaceholder(t) && t in values && PMS in values && NoOpen(rest)
    ensures Resolve(t + Marked(rest), values) == values[t] + WithBase(rest, values[PMS])
  {
    ResolveFront(t, Marked(rest), values);
    MarksResolve(rest, values);
  }

  lemma SwapMoves(a: string, dir: string, t: string)
    requires NoOpen(dir) && Below(a, dir)
    ensures dir + "/" <= Marked(a) && t + Marked(a)[|dir|..] == t + Marked(a[|dir|..])
  {
    BelowMarked(a, dir);
    assert Marked(a)[|dir|..] == Marked(a[|dir|..]);
  }

  lemma TokenMoves(a: string, dirs: Dirs, table: seq<Media>, outDir: string, proxyBase: string, plexDir: string,
                   media: map<string, string>)
    requires NoOpen(a) && !NamesFiles(a) && NoOpen(dirs.session) && NoOpen(dirs.plex)
    ensures Resolve(Token(a, dirs, table).text, AllValues(outDir, proxyBase, plexDir, media))
         == TokenOnWorker(a, dirs, outDir, proxyBase, plexDir)
  {
    var values := AllValues(outDir, proxyBase, plexDir, media);
    FixedArePlaceholders();
    MarkedHasNoKey(a);
    BelowMarked(a, dirs.session);
    BelowMarked(a, dirs.plex);
    if Below(a, dirs.session) {
      SwapMoves(a, dirs.session, OUTDIR);
      FrontResolves(OUTDIR, a[|dirs.session|..], values);
    } else if Below(a, dirs.plex) {
      SwapMoves(a, dirs.plex, PLEXDIR);
      FrontResolves(PLEXDIR, a[|dirs.plex|..], values);
    } else {
      MarksResolve(a, values);
    }
  }

  // ---- inputs ----

  /** Position `i` holds the value of a `-i`. */
  predicate IsInput(args: seq<string>, i: nat)
    requires i < |args|
  {
    i > 0 && args[i - 1] == "-i" && !IsInput(args, i - 1)
  }

  /** What becomes of the value of a `-i` that names no file. */
  lemma UrlMoves(v: string, dirs: Dirs, table: seq<Media>, outDir: string, proxyBase: string, plexDir: string,
                 media: map<string, string>)
    requires NoOpen(v) && (Contains(v, PMS_URL_PREFIX) || Contains(v, "://"))
    ensures Resolve(Input(v, dirs, table).text, AllValues(outDir, proxyBase, plexDir, media)) == WithBase(v, proxyBase)
  {
    var values := AllValues(outDir, proxyBase, plexDir, media);
    if Contains(v, PMS_URL_PREFIX) {
      MarksResolve(v, values);
    } else {
      ResolveNothing(v, values);
    }
  }

  /** A file input: its absolute path is in the table, spooled if it is the session dir or below it. */
  lemma FileMoves(v: string, dirs: Dirs, table: seq<Media>, final: seq<Media>, values: map<string, string>)
    requires !Contains(v, PMS_URL_PREFIX) && !Contains(v, "://")
    requires Input(v, dirs, table).table <= final && MediaSet(|final|) <= values.Keys
    ensures
      var abs := Absolute(dirs.session, v);
      var mode := if abs == dirs.session || dirs.session + "/" <= abs then Spool else Stream;
      exists k :: 0 <= k < |final| && final[k] == Media(abs, mode) && MediaPlaceholder(k) in values
        && Resolve(Input(v, dirs, table).text, values) == values[MediaPlaceholder(k)]
  {
    var m := InputOf(v, dirs);
    var t := Add(table, m);
    var k := Find(t, m);
    var ph := MediaPlaceholder(k);
    MediaIsPlaceholder(k);
    assert k < |final| && final[k] == t[k] == m;
    assert ph in MediaSet(|final|);
    ResolveFront(ph, "", values);
    assert ph + "" == ph;
    assert values[ph] + Resolve("", values) == values[ph];
  }

  // ---- the whole argv ----

  /** Positions behind one that holds no input, counted from there. */
  lemma {:induction false} InputsFrom(args: seq<string>, k: nat, i: nat)
    requires k + i < |args| && !IsInput(args, k)
    ensures IsInput(args, k + i) <==> IsInput(args[k..], i)
    decreases i
  {
    if i > 0 {
      InputsFrom(args, k, i - 1);
      assert args[k..][i - 1] == args[k + i - 1];
    }
  }

  /** What the shim does with the argument at position `i`. */
  function Sends(args: seq<string>, i: nat, dirs: Dirs, table: seq<Media>): Out
    requires i < |args|
  {
    if IsInput(args, i) then Input(args[i], dirs, table) else Token(args[i], dirs, table)
  }

  lemma SendsFrom(args: seq<string>, k: nat, i: nat, dirs: Dirs)
    requires k + i < |args| && !IsInput(args, k)
    ensures forall t :: Sends(args, k + i, dirs, t) == Sends(args[k..], i, dirs, t)
  {
    InputsFrom(args, k, i);
    assert args[k..][i] == args[k + i];
  }

  /** The flag itself passes through. */
  lemma DashI(dirs: Dirs, table: seq<Media>)
    ensures Token("-i", dirs, table) == Out("-i", table)
  {
    assert "-i"[1..] == "i" && "i"[1..] == "";
    LettersOnly("-i", PMS_URL_PREFIX);
    LettersOnly("-i", SUBTITLES);
    LettersOnly("-i", FONTSDIR);
    ReplaceNothing("-i", PMS_URL_PREFIX, PMS);
    assert !(dirs.session + "/" <= "-i") && !(dirs.plex + "/" <= "-i") by {
      assert "-i"[0] != '/' && "-i"[1] != '/';
      NoSlash(dirs.session);
      NoSlash(dirs.plex);
    }
  }

  lemma NoSlash(dir: string)
    ensures !(dir + "/" <= "-i")
  {
    assert (dir + "/")[|dir|] == '/';
  }

  lemma {:induction false} LettersOnly(s: string, key: string)
    requires |s| < |key|
    ensures !Contains(s, key)
    decreases |s|
  {
    if s != "" {
      LettersOnly(s[1..], key);
    }
  }

  /** A flag and its input. */
  lemma PairAt(args: seq<string>, dirs: Dirs, table: seq<Media>, i: nat)
    requires |args| > 1 && args[0] == "-i" && NoDup(table) && i < 2
    ensures Args(args, dirs, table).tokens[i] == Sends(args, i, dirs, table).text
    ensures Sends(args, i, dirs, table).table <= Args(args, dirs, table).table
  {
    var u := Input(args[1], dirs, table).table;
    InputGrows(args[1], dirs, table);
    ArgsGrow(args[2..], dirs, u);
    DashI(dirs, table);
    PairPositions(args);
    var o, r := Input(args[1], dirs, table), Args(args[2..], dirs, u);
    assert Args(args, dirs, table) == Outs([args[0], o.text] + r.tokens, r.table);
  }

  lemma PairPositions(args: seq<string>)
    requires |args| > 1 && args[0] == "-i"
    ensures !IsInput(args, 0) && IsInput(args, 1)
    ensures |args| > 2 ==> !IsInput(args, 2)
  {
    assert IsInput(args, 1);
  }

  lemma FirstAt(args: seq<string>, dirs: Dirs, table: seq<Media>)
    requires args != [] && !(args[0] == "-i" && |args| > 1) && NoDup(table)
    ensures Args(args, dirs, table).tokens[0] == Token(args[0], dirs, table).text
    ensures Token(args[0], dirs, table).table <= Args(args, dirs, table).table
  {
    TokenGrows(args[0], dirs, table);
    ArgsGrow(args[1..], dirs, Token(args[0], dirs, table).table);
  }

  /** Each token of the rewritten argv is made of its own argument, with a table that the final one extends. */
  lemma {:induction false} TokenAt(args: seq<string>, dirs: Dirs, table: seq<Media>, i: nat) returns (t: seq<Media>)
    requires NoDup(table) && i < |args|
    ensures NoDup(t)
    ensures Args(args, dirs, table).tokens[i] == Sends(args, i, dirs, t).text
    ensures Sends(args, i, dirs, t).table <= Args(args, dirs, table).table
    decreases |args|
  {
    t := table;
    if args[0] == "-i" && |args| > 1 {
      if i < 2 {
        PairAt(args, dirs, table, i);
      } else {
        InputGrows(args[1], dirs, table);
        PairPositions(args);
        SendsFrom(args, 2, i - 2, dirs);
        t := TokenAt(args[2..], dirs, Input(args[1], dirs, table).table, i - 2);
        AfterPair(args, dirs, table, i);
      }
    } else if i == 0 {
      FirstAt(args, dirs, table);
    } else {
      TokenGrows(args[0], dirs, table);
      SendsFrom(args, 1, i - 1, dirs);
      t := TokenAt(args[1..], dirs, Token(args[0], dirs, table).table, i - 1);
      AfterToken(args, dirs, table, i);
    }
  }

  /** What a file input with the absolute path `abs` has become. */
  ghost predicate FileOnWorker(abs: string, spool: bool, out: string, media: map<string, MediaRef>,
                               spooled: map<string, string>, spoolDir: string, table: seq<Media>)
  {
    exists k :: 0 <= k < |table| && table[k].path == abs && Dec(k) in media
      && if spool then media[Dec(k)].mode == "spool" && out == SpoolFile(spoolDir, k, abs)
         else media[Dec(k)].mode == "stream" && out == media[Dec(k)].url
  }

  lemma SpooledAt(spooled: map<string, string>, spoolDir: string, table: seq<Media>, k: nat)
    requires Spooled(spooled, spoolDir, table) && Dec(k) in spooled && k < |table|
    ensures spooled[Dec(k)] == SpoolFile(spoolDir, k, table[k].path)
  {
    assert IsSpooled(Dec(k), spooled[Dec(k)], spoolDir, table);
    var j :| 0 <= j < |table| && Dec(k) == Dec(j) && spooled[Dec(k)] == SpoolFile(spoolDir, j, table[j].path);
    DecInjective(k, j);
  }

  lemma ValueKept(values: map<string, string>, outDir: string, proxyBase: string, plexDir: string, n: nat, k: nat)
    requires values.Keys == MediaSet(n) && k < n
    ensures
      var all := AllValues(outDir, proxyBase, plexDir, values);
      && MediaSet(n) <= all.Keys && MediaPlaceholder(k) in values
      && all[MediaPlaceholder(k)] == values[MediaPlaceholder(k)]
  {
    MediaApart(n);
    assert MediaPlaceholder(k) in MediaSet(n);
  }

  // ---- end to end ----

  /** A file input arrives as the signed URL of its path, or as the worker's own copy of it. */
  lemma FileArrives(v: string, dirs: Dirs, t: seq<Media>, final: seq<Media>, keys: seq<string>, media: map<string, MediaRef>,
                    spooled: map<string, string>, spoolDir: string, outDir: string, proxyBase: string, plexDir: string,
                    values: map<string, string>, out: string)
    requires !Contains(v, PMS_URL_PREFIX) && !Contains(v, "://") && Input(v, dirs, t).table <= final
    requires ShimMedia(keys, media, final) && Fetched(spooled, final) && Holds(values, media, spooled, final)
    requires Spooled(spooled, spoolDir, final)
    requires out == Resolve(Input(v, dirs, t).text, AllValues(outDir, proxyBase, plexDir, values))
    ensures
      var abs := Absolute(dirs.session, v);
      FileOnWorker(abs, abs == dirs.session || dirs.session + "/" <= abs, out, media, spooled, spoolDir, final)
  {
    var all := AllValues(outDir, proxyBase, plexDir, values);
    var abs := Absolute(dirs.session, v);
    var mode := if abs == dirs.session || dirs.session + "/" <= abs then Spool else Stream;
    FileMoves(v, dirs, t, final, all);
    var k :| 0 <= k < |final| && final[k] == Media(abs, mode) && MediaPlaceholder(k) in all
      && Resolve(Input(v, dirs, t).text, all) == all[MediaPlaceholder(k)];
    ValueKept(values, outDir, proxyBase, plexDir, |final|, k);
    assert out == Where(k, media, spooled, final);
    WhereIs(k, mode, out, media, spooled, spoolDir, final, keys);
  }

  lemma WhereIs(k: nat, mode: Mode, out: string, media: map<string, MediaRef>, spooled: map<string, string>,
                spoolDir: string, final: seq<Media>, keys: seq<string>)
    requires ShimMedia(keys, media, final) && Fetched(spooled, final) && Spooled(spooled, spoolDir, final)
    requires k < |final| && final[k].mode == mode && out == Where(k, media, spooled, final)
    ensures FileOnWorker(final[k].path, mode.Spool?, out, media, spooled, spoolDir, final)
  {
    if mode.Spool? {
      SpooledAt(spooled, spoolDir, final, k);
    }
  }

  /** What each argument has become on the worker. */
  ghost predicate ArgOnWorker(args: seq<string>, i: nat, out: string, dirs: Dirs, spoolDir: string,
                              media: map<string, MediaRef>, spooled: map<string, string>, table: seq<Media>,
                              outDir: string, proxyBase: string, plexDir: string)
    requires i < |args|
  {
    var a := args[i];
    if IsInput(args, i) then
      if Contains(a, PMS_URL_PREFIX) || Contains(a, "://") then out == WithBase(a, proxyBase)
      else
        var abs := Absolute(dirs.session, a);
        FileOnWorker(abs, abs == dirs.session || dirs.session + "/" <= abs, out, media, spooled, spoolDir, table)
    else if Contains(a, "subtitles=") || Contains(a, "fontsdir=") then true
    else if Below(a, dirs.session) then out == outDir + WithBase(a[|dirs.session|..], proxyBase)
    else if Below(a, dirs.plex) then out == plexDir + WithBase(a[|dirs.plex|..], proxyBase)
    else out == WithBase(a, proxyBase)
  }

  lemma PreparedArg(args: seq<string>, dirs: Dirs, spoolDir: string, keys: seq<string>, media: map<string, MediaRef>,
                    spooled: map<string, string>, outDir: string, proxyBase: string, plexDir: string, out: seq<string>, i: nat)
    requires AllNoOpen(args) && NoOpen(dirs.session) && NoOpen(dirs.plex) && i < |args|
    requires Spooled(spooled, spoolDir, Args(args, dirs, []).table)
    requires PreparedRight(args, dirs, keys, media, spooled, outDir, proxyBase, plexDir, out)
    ensures |out| == |args|
    ensures ArgOnWorker(args, i, out[i], dirs, spoolDir, media, spooled, Args(args, dirs, []).table, outDir, proxyBase, plexDir)
  {
    var final := Args(args, dirs, []).table;
    var values := Values(keys, media, spooled);
    var t := TokenAt(args, dirs, [], i);
    if !IsInput(args, i) {
      if !NamesFiles(args[i]) {
        TokenMoves(args[i], dirs, t, outDir, proxyBase, plexDir, values);
      }
    } else if Contains(args[i], PMS_URL_PREFIX) || Contains(args[i], "://") {
      UrlMoves(args[i], dirs, t, outDir, proxyBase, plexDir, values);
    } else {
      FileArrives(args[i], dirs, t, final, keys, media, spooled, spoolDir, outDir, proxyBase, plexDir, values, out[i]);
    }
  }

  /**
   * Where everything is on the worker. Take a '{'-free argv, and what the worker prepares from what the
   * shim sends. Every argument outside filter strings has become this. A path below the session dir is
   * the same path below the out dir; one below the install dir, below the worker's install dir; every
   * server URL starts with the proxy's base instead. A file input below the session dir is the worker's
   * own copy, any other its signed URL. The rest is as it was.
   */
  lemma ArgvOnWorker(args: seq<string>, dirs: Dirs, spoolDir: string, keys: seq<string>, media: map<string, MediaRef>,
                     spooled: map<string, string>, outDir: string, proxyBase: string, plexDir: string,
                     r: Result<seq<string>, PrepareError>)
    requires AllNoOpen(args) && ExtsNoOpen(Args(args, dirs, []).table) && NoOpen(dirs.session) && NoOpen(dirs.plex)
    requires UrlsNoOpen(media) && Spooled(spooled, spoolDir, Args(args, dirs, []).table)
    requires NoOpen(spoolDir) && NoOpen(outDir) && NoOpen(proxyBase) && NoOpen(plexDir)
    requires ShimMedia(keys, media, Args(args, dirs, []).table) && |Args(args, dirs, []).table| <= MAX_INT64
    requires Prepared(Args(args, dirs, []).tokens, keys, media, spooled, outDir, proxyBase, plexDir, r) && r.Ok?
    ensures |r.value| == |args|
    ensures forall i :: 0 <= i < |args| ==>
              ArgOnWorker(args, i, r.value[i], dirs, spoolDir, media, spooled, Args(args, dirs, []).table,
                          outDir, proxyBase, plexDir)
  {
    SentJobPrepares(args, dirs, spoolDir, keys, media, spooled, outDir, proxyBase, plexDir, r);
    forall i | 0 <= i < |args|
      ensures ArgOnWorker(args, i, r.value[i], dirs, spoolDir, media, spooled, Args(args, dirs, []).table,
                          outDir, proxyBase, plexDir)
    {
      PreparedArg(args, dirs, spoolDir, keys, media, spooled, outDir, proxyBase, plexDir, r.value, i);
    }
  }
}
