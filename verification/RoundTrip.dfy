/**
 * Rewriting on the master (internal/shim/rewrite.go) followed by substitution on the worker
 * (internal/workerd/subst.go): what the shim sends, the worker can always resolve, and with the
 * master's own values the two steps undo each other.
 */
module RoundTrip {
  import opened Prelude
  import opened Text
  import opened Decimal
  import opened Paths
  import opened Placeholders
  import opened Filters
  import opened FilterPaths
  import opened FilterMeaning
  import opened RewriteSpec
  import opened RewriteShape
  import opened Substitute
  import opened Prepare

  lemma MediaApart(n: nat)
    ensures AllPlaceholders(MediaSet(n)) && MediaSet(n) !! FIXED
    ensures forall t :: t in MediaSet(n) ==> MEDIA_PREFIX <= t
  {
    forall t | t in MediaSet(n)
      ensures IsPlaceholder(t) && t !in FIXED && MEDIA_PREFIX <= t
    {
      var i :| 0 <= i < n && t == MediaPlaceholder(i);
      MediaIsPlaceholder(i);
      assert t[3] == 'E' && t[2] == 'M';
    }
  }

  /** Values for every index of a table, without '{'. */
  ghost predicate Covers(values: map<string, string>, table: seq<Media>) {
    values.Keys == MediaSet(|table|) && forall k :: k in values ==> NoOpen(values[k])
  }

  /**
   * Placeholders always resolve: for a '{'-free argv, the worker refuses no token of what the shim
   * makes of it, leaves no placeholder in any, and gives the same argv for every iteration order
   * over the media map.
   */
  lemma SentArgvResolves(args: seq<string>, dirs: Dirs, i: nat, out: string, values: map<string, string>,
                         outDir: string, proxyBase: string, plexDir: string)
    requires AllNoOpen(args) && i < |args|
    requires Covers(values, Args(args, dirs, []).table)
    requires NoOpen(outDir) && NoOpen(proxyBase) && NoOpen(plexDir)
    requires Substituted(Args(args, dirs, []).tokens[i], out, outDir, proxyBase, plexDir, values)
    ensures out == Resolve(Args(args, dirs, []).tokens[i], AllValues(outDir, proxyBase, plexDir, values))
    ensures NoOpen(out) && !Contains(out, MEDIA_PREFIX)
  {
    var r := Args(args, dirs, []);
    ArgsGood(args, dirs, []);
    MediaApart(|r.table|);
    SubstitutedIs(r.tokens[i], out, outDir, proxyBase, plexDir, values);
    PlainHasNoPrefix(out);
  }

  // ---- the whole way ----

  /** Signed URLs are query-escaped. */
  ghost predicate UrlsNoOpen(media: map<string, MediaRef>) {
    forall k :: k in media ==> NoOpen(media[k].url)
  }

  ghost predicate NoOpenValues(media: map<string, MediaRef>, spooled: map<string, string>) {
    && UrlsNoOpen(media)
    && (forall k :: k in spooled ==> NoOpen(spooled[k]))
  }

  lemma PreparedCovers(keys: seq<string>, media: map<string, MediaRef>, spooled: map<string, string>, table: seq<Media>)
    requires ShimMedia(keys, media, table) && Fetched(spooled, table) && |table| <= MAX_INT64
    requires NoOpenValues(media, spooled)
    ensures AllHave(keys, media, spooled) && Covers(Values(keys, media, spooled), table)
  {
    ShimValues(keys, media, spooled, table);
    var values := Values(keys, media, spooled);
    forall ph | ph in values
      ensures NoOpen(values[ph])
    {
      var k :| 0 <= k < |table| && ph == MediaPlaceholder(k);
      assert values[ph] == Where(k, media, spooled, table);
    }
  }

  /** A spool reference that could not be fetched, and only that, stops the media loop. */
  lemma MissingStops(keys: seq<string>, media: map<string, MediaRef>, spooled: map<string, string>, table: seq<Media>)
    requires ShimMedia(keys, media, table) && |table| <= MAX_INT64 && AllHave(keys, media, spooled)
    ensures Fetched(spooled, table)
  {
    forall k | 0 <= k < |table| && table[k].mode.Spool?
      ensures Dec(k) in spooled
    {
      var i := ShimKeyOf(keys, media, table, k);
      ShimKey(keys, media, spooled, table, i);
    }
  }

  lemma OnlyMissing(keys: seq<string>, media: map<string, MediaRef>, spooled: map<string, string>, table: seq<Media>,
                    e: PrepareError)
    requires ShimMedia(keys, media, table) && |table| <= MAX_INT64 && FirstError(keys, media, spooled, e)
    ensures e.SpoolFailed?
  {
    var i :| 0 <= i < |keys| && keys[i] in media && ValueOf(keys[i], media, spooled) == Err(e)
      && AllHave(keys[..i], media, spooled);
    ShimKey(keys, media, spooled, table, i);
  }

  lemma NeverRefused(args: seq<string>, dirs: Dirs, values: map<string, string>, outDir: string, proxyBase: string,
                     plexDir: string, i: nat)
    requires AllNoOpen(args) && i < |args| && Covers(values, Args(args, dirs, []).table)
    requires NoOpen(outDir) && NoOpen(proxyBase) && NoOpen(plexDir)
    ensures !Refused(Args(args, dirs, []).tokens[i], outDir, proxyBase, plexDir, values)
  {
    var tok := Args(args, dirs, []).tokens[i];
    forall out | Substituted(tok, out, outDir, proxyBase, plexDir, values)
      ensures !Contains(out, MEDIA_PREFIX)
    {
      SentArgvResolves(args, dirs, i, out, values, outDir, proxyBase, plexDir);
    }
  }

  /** The argv that the worker prepares: every placeholder replaced by its own value. */
  ghost predicate PreparedRight(args: seq<string>, dirs: Dirs, keys: seq<string>, media: map<string, MediaRef>,
                                spooled: map<string, string>, outDir: string, proxyBase: string, plexDir: string,
                                out: seq<string>)
  {
    var sent := Args(args, dirs, []);
    && ShimMedia(keys, media, sent.table) && Fetched(spooled, sent.table) && AllHave(keys, media, spooled)
    && Holds(Values(keys, media, spooled), media, spooled, sent.table)
    && |out| == |args|
    && forall i :: 0 <= i < |args| ==>
         && out[i] == Resolve(sent.tokens[i], AllValues(outDir, proxyBase, plexDir, Values(keys, media, spooled)))
         && NoOpen(out[i])
  }

  lemma ValuesPrepare(args: seq<string>, dirs: Dirs, keys: seq<string>, media: map<string, MediaRef>,
                      spooled: map<string, string>, outDir: string, proxyBase: string, plexDir: string,
                      r: Result<seq<string>, PrepareError>)
    requires AllNoOpen(args) && NoOpenValues(media, spooled)
    requires NoOpen(outDir) && NoOpen(proxyBase) && NoOpen(plexDir)
    requires ShimMedia(keys, media, Args(args, dirs, []).table) && |Args(args, dirs, []).table| <= MAX_INT64
    requires Prepared(Args(args, dirs, []).tokens, keys, media, spooled, outDir, proxyBase, plexDir, r)
    ensures r.Ok? <==> |args| >= 2 && Fetched(spooled, Args(args, dirs, []).table)
    ensures r.Err? ==> r.error.ShortArgv? || r.error.SpoolFailed?
    ensures r.Ok? ==> PreparedRight(args, dirs, keys, media, spooled, outDir, proxyBase, plexDir, r.value)
  {
    var sent := Args(args, dirs, []);
    if |args| >= 2 {
      if !AllHave(keys, media, spooled) {
        OnlyMissing(keys, media, spooled, sent.table, r.error);
        if Fetched(spooled, sent.table) {
          ShimValues(keys, media, spooled, sent.table);
        }
      } else {
        MissingStops(keys, media, spooled, sent.table);
        PreparedCovers(keys, media, spooled, sent.table);
        ShimValues(keys, media, spooled, sent.table);
        var values := Values(keys, media, spooled);
        if r.Err? {
          NeverRefused(args, dirs, values, outDir, proxyBase, plexDir, r.error.token);
        } else {
          forall i | 0 <= i < |args|
            ensures r.value[i] == Resolve(sent.tokens[i], AllValues(outDir, proxyBase, plexDir, values)) && NoOpen(r.value[i])
          {
            assert Resolved(sent.tokens[i], r.value[i], outDir, proxyBase, plexDir, values);
            SentArgvResolves(args, dirs, i, r.value[i], values, outDir, proxyBase, plexDir);
          }
        }
      }
    }
  }

  /**
   * From the shim's argv to the worker's, end to end: for a '{'-free argv, the worker can prepare
   * what the shim sends if and only if there are two tokens and every spool reference can be
   * fetched. It then has the argv with every placeholder replaced by its own value, whatever the
   * orders of keys and map entries. That takes that no spooled file keeps an extension with a '{'.
   */
  lemma SentJobPrepares(args: seq<string>, dirs: Dirs, spoolDir: string, keys: seq<string>, media: map<string, MediaRef>,
                        spooled: map<string, string>, outDir: string, proxyBase: string, plexDir: string,
                        r: Result<seq<string>, PrepareError>)
    requires AllNoOpen(args) && ExtsNoOpen(Args(args, dirs, []).table)
    requires UrlsNoOpen(media) && Spooled(spooled, spoolDir, Args(args, dirs, []).table)
    requires NoOpen(spoolDir) && NoOpen(outDir) && NoOpen(proxyBase) && NoOpen(plexDir)
    requires ShimMedia(keys, media, Args(args, dirs, []).table) && |Args(args, dirs, []).table| <= MAX_INT64
    requires Prepared(Args(args, dirs, []).tokens, keys, media, spooled, outDir, proxyBase, plexDir, r)
    ensures r.Ok? <==> |args| >= 2 && Fetched(spooled, Args(args, dirs, []).table)
    ensures r.Err? ==> r.error.ShortArgv? || r.error.SpoolFailed?
    ensures r.Ok? ==> PreparedRight(args, dirs, keys, media, spooled, outDir, proxyBase, plexDir, r.value)
  {
    SpooledNoOpen(spooled, spoolDir, Args(args, dirs, []).table);
    ValuesPrepare(args, dirs, keys, media, spooled, outDir, proxyBase, plexDir, r);
  }

  /** The same from the argv alone: with clean filter strings no path has a '{' at all. */
  lemma CleanArgvPrepares(args: seq<string>, dirs: Dirs, spoolDir: string, keys: seq<string>, media: map<string, MediaRef>,
                          spooled: map<string, string>, outDir: string, proxyBase: string, plexDir: string,
                          r: Result<seq<string>, PrepareError>)
    requires AllNoOpen(args) && NoOpen(dirs.session) && ArgsClean(args, dirs)
    requires UrlsNoOpen(media) && Spooled(spooled, spoolDir, Args(args, dirs, []).table)
    requires NoOpen(spoolDir) && NoOpen(outDir) && NoOpen(proxyBase) && NoOpen(plexDir)
    requires ShimMedia(keys, media, Args(args, dirs, []).table) && |Args(args, dirs, []).table| <= MAX_INT64
    requires Prepared(Args(args, dirs, []).tokens, keys, media, spooled, outDir, proxyBase, plexDir, r)
    ensures r.Ok? <==> |args| >= 2 && Fetched(spooled, Args(args, dirs, []).table)
    ensures r.Err? ==> r.error.ShortArgv? || r.error.SpoolFailed?
    ensures r.Ok? ==> PreparedRight(args, dirs, keys, media, spooled, outDir, proxyBase, plexDir, r.value)
  {
    var table := Args(args, dirs, []).table;
    ArgsAdd(args, dirs, []);
    forall k | 0 <= k < |table|
      ensures NoOpen(Ext(table[k].path))
    {
      ExtNoOpen(table[k].path);
    }
    SentJobPrepares(args, dirs, spoolDir, keys, media, spooled, outDir, proxyBase, plexDir, r);
  }

  // ---- with the master's own values ----

  /** The values that stand for themselves on the master: every reference is its own path. */
  ghost predicate OwnValues(values: map<string, string>, dirs: Dirs, table: seq<Media>) {
    && OUTDIR in values && values[OUTDIR] == dirs.session
    && PMS in values && values[PMS] == PMS_URL_PREFIX
    && PLEXDIR in values && values[PLEXDIR] == dirs.plex
    && forall m :: m in table ==> Placeholder(table, m) in values && values[Placeholder(table, m)] == m.path
  }

  lemma MarkedHasNoKey(a: string)
    requires !NamesFiles(a)
    ensures !NamesFiles(Marked(a))
  {
    NoNewKey(a, PMS_URL_PREFIX, PMS, SUBTITLES);
    NoNewKey(a, PMS_URL_PREFIX, PMS, FONTSDIR);
  }

  lemma SwapBack(a: string, i: nat, t: string, values: map<string, string>)
    requires i <= |a| && NoOpen(a[..i]) && IsPlaceholder(t) && t in values && values[t] == a[..i]
    ensures Resolve(t + a[i..], values) == Resolve(a, values)
  {
    ResolveFront(t, a[i..], values);
    ResolvePlain(a[..i], a[i..], values);
    assert a == a[..i] + a[i..];
  }

  lemma SwapResolves(a: string, dirs: Dirs, values: map<string, string>)
    requires NoOpen(dirs.session) && NoOpen(dirs.plex) && OwnValues(values, dirs, [])
    ensures Resolve(SwapDir(a, dirs), values) == Resolve(a, values)
  {
    FixedArePlaceholders();
    if dirs.session + "/" <= a {
      assert a[..|dirs.session|] == dirs.session;
      SwapBack(a, |dirs.session|, OUTDIR, values);
    } else if dirs.plex + "/" <= a {
      assert a[..|dirs.plex|] == dirs.plex;
      SwapBack(a, |dirs.plex|, PLEXDIR, values);
    }
  }

  lemma TokenBack(a: string, dirs: Dirs, table: seq<Media>, values: map<string, string>)
    requires NoOpen(a) && !NamesFiles(a)
    requires NoOpen(dirs.session) && NoOpen(dirs.plex) && OwnValues(values, dirs, [])
    ensures Token(a, dirs, table).table == table
    ensures Resolve(Token(a, dirs, table).text, values) == a
  {
    FixedArePlaceholders();
    MarkedHasNoKey(a);
    ReplaceMarks(a, PMS_URL_PREFIX, PMS, values);
    SwapResolves(ReplaceAll(a, PMS_URL_PREFIX, PMS), dirs, values);
  }

  /** What an -i value comes back as: a file's path, made absolute and clean; anything else as it was. */
  function InputBack(v: string, dirs: Dirs): string {
    if IsFileInput(v) then Absolute(dirs.session, v) else v
  }

  lemma InputRoundTrip(v: string, dirs: Dirs, table: seq<Media>, final: seq<Media>, values: map<string, string>)
    requires NoOpen(v) && NoDup(table) && Input(v, dirs, table).table <= final && OwnValues(values, dirs, final)
    ensures Resolve(Input(v, dirs, table).text, values) == InputBack(v, dirs)
  {
    FixedArePlaceholders();
    if Contains(v, PMS_URL_PREFIX) {
      ReplaceMarks(v, PMS_URL_PREFIX, PMS, values);
    } else if Contains(v, "://") {
      ResolveNothing(v, values);
    } else {
      var m := InputOf(v, dirs);
      var t := Add(table, m);
      PlaceholderStable(t, final, m);
      PlaceholderSent(final, m);
      assert m in final;
      var ph := Placeholder(final, m);
      ResolveFront(ph, "", values);
      assert ph + "" == ph && m.path + "" == m.path;
    }
  }

  /** The argv with its file inputs made absolute and clean. */
  function Normal(args: seq<string>, dirs: Dirs): (r: seq<string>)
    ensures |r| == |args|
    decreases |args|
  {
    if args == [] then []
    else if args[0] == "-i" && |args| > 1 then [args[0], InputBack(args[1], dirs)] + Normal(args[2..], dirs)
    else [args[0]] + Normal(args[1..], dirs)
  }

  /** No argument other than an input names a file inside a filter string. */
  predicate ArgsPlain(args: seq<string>)
    decreases |args|
  {
    if args == [] then true
    else if args[0] == "-i" && |args| > 1 then ArgsPlain(args[2..])
    else !NamesFiles(args[0]) && ArgsPlain(args[1..])
  }

  /** Every file input is given as an absolute, clean path. */
  predicate InputsClean(args: seq<string>)
    decreases |args|
  {
    if args == [] then true
    else if args[0] == "-i" && |args| > 1 then
      (IsFileInput(args[1]) ==> IsAbs(args[1]) && Clean(args[1]) == args[1]) && InputsClean(args[2..])
    else InputsClean(args[1..])
  }

  lemma {:induction false} NormalUnchanged(args: seq<string>, dirs: Dirs)
    requires IsAbs(dirs.session)
    ensures Normal(args, dirs) == args <==> InputsClean(args)
    decreases |args|
  {
    if args == [] {
    } else if args[0] == "-i" && |args| > 1 {
      NormalUnchanged(args[2..], dirs);
      AbsoluteKeeps(dirs.session, args[1]);
      assert args == [args[0], args[1]] + args[2..];
      assert Normal(args, dirs)[2..] == Normal(args[2..], dirs);
      assert Normal(args, dirs)[1] == InputBack(args[1], dirs);
    } else {
      NormalUnchanged(args[1..], dirs);
      assert args == [args[0]] + args[1..];
      assert Normal(args, dirs)[1..] == Normal(args[1..], dirs);
    }
  }

  /** The `-i` token and its value. */
  lemma PairBack(args: seq<string>, dirs: Dirs, table: seq<Media>, final: seq<Media>, values: map<string, string>, i: nat)
    requires AllNoOpen(args) && |args| > 1 && args[0] == "-i" && NoDup(table) && i < 2
    requires Args(args, dirs, table).table <= final && OwnValues(values, dirs, final)
    ensures Resolve(Args(args, dirs, table).tokens[i], values) == Normal(args, dirs)[i]
  {
    InputGrows(args[1], dirs, table);
    ArgsGrow(args[2..], dirs, Input(args[1], dirs, table).table);
    if i == 0 {
      ResolveNothing(args[0], values);
    } else {
      InputRoundTrip(args[1], dirs, table, final, values);
    }
  }

  lemma {:induction false} ArgsBack(args: seq<string>, dirs: Dirs, table: seq<Media>, final: seq<Media>,
                                    values: map<string, string>, i: nat)
    requires AllNoOpen(args) && ArgsPlain(args) && NoOpen(dirs.session) && NoOpen(dirs.plex) && NoDup(table)
    requires Args(args, dirs, table).table <= final && OwnValues(values, dirs, final) && i < |args|
    ensures Resolve(Args(args, dirs, table).tokens[i], values) == Normal(args, dirs)[i]
    decreases |args|
  {
    if args[0] == "-i" && |args| > 1 {
      if i < 2 {
        PairBack(args, dirs, table, final, values, i);
      } else {
        InputGrows(args[1], dirs, table);
        AfterPair(args, dirs, table, i);
        ArgsBack(args[2..], dirs, Input(args[1], dirs, table).table, final, values, i - 2);
      }
    } else {
      TokenBack(args[0], dirs, table, values);
      if i > 0 {
        AfterToken(args, dirs, table, i);
        ArgsBack(args[1..], dirs, table, final, values, i - 1);
      }
    }
  }

  lemma AfterPair(args: seq<string>, dirs: Dirs, table: seq<Media>, i: nat)
    requires |args| > 1 && args[0] == "-i" && 2 <= i < |args|
    ensures var t := Input(args[1], dirs, table).table;
            && Args(args, dirs, table).tokens[i] == Args(args[2..], dirs, t).tokens[i - 2]
            && Args(args, dirs, table).table == Args(args[2..], dirs, t).table
            && Normal(args, dirs)[i] == Normal(args[2..], dirs)[i - 2]
  {
    var o := Input(args[1], dirs, table);
    var r := Args(args[2..], dirs, o.table);
    assert Args(args, dirs, table) == Outs([args[0], o.text] + r.tokens, r.table);
    NormalPair(args, dirs, i);
  }

  lemma NormalPair(args: seq<string>, dirs: Dirs, i: nat)
    requires |args| > 1 && args[0] == "-i" && 2 <= i < |args|
    ensures Normal(args, dirs)[i] == Normal(args[2..], dirs)[i - 2]
  {
    assert Normal(args, dirs) == [args[0], InputBack(args[1], dirs)] + Normal(args[2..], dirs);
  }

  lemma AfterToken(args: seq<string>, dirs: Dirs, table: seq<Media>, i: nat)
    requires args != [] && !(args[0] == "-i" && |args| > 1) && 1 <= i < |args|
    ensures var t := Token(args[0], dirs, table).table;
            && Args(args, dirs, table).tokens[i] == Args(args[1..], dirs, t).tokens[i - 1]
            && Args(args, dirs, table).table == Args(args[1..], dirs, t).table
            && Normal(args, dirs)[i] == Normal(args[1..], dirs)[i - 1]
  {
  }

  /** The media values of the master: each index stands for the path it was handed out for. */
  ghost predicate OwnMedia(media: map<string, string>, table: seq<Media>) {
    && media.Keys == MediaSet(|table|)
    && forall i :: 0 <= i < |table| ==> MediaPlaceholder(i) in media && media[MediaPlaceholder(i)] == table[i].path
  }

  lemma OwnAll(media: map<string, string>, dirs: Dirs, table: seq<Media>)
    requires OwnMedia(media, table)
    ensures OwnValues(AllValues(dirs.session, PMS_URL_PREFIX, dirs.plex, media), dirs, table)
  {
    MediaApart(|table|);
    var values := AllValues(dirs.session, PMS_URL_PREFIX, dirs.plex, media);
    forall m | m in table
      ensures Placeholder(table, m) in values && values[Placeholder(table, m)] == m.path
    {
      assert Placeholder(table, m) in MediaSet(|table|);
    }
  }

  /** Without file references every filter string is clean. */
  lemma {:induction false} PlainIsClean(args: seq<string>, dirs: Dirs)
    requires ArgsPlain(args)
    ensures ArgsClean(args, dirs)
    decreases |args|
  {
    if args == [] {
    } else if args[0] == "-i" && |args| > 1 {
      PlainIsClean(args[2..], dirs);
    } else {
      MarkedHasNoKey(args[0]);
      assert !NamesFiles(Marked(args[0]));
      PlainIsClean(args[1..], dirs);
    }
  }

  lemma OwnCovers(media: map<string, string>, table: seq<Media>)
    requires OwnMedia(media, table) && PathsNoOpen(table)
    ensures Covers(media, table)
  {
    forall k | k in media
      ensures NoOpen(media[k])
    {
      var i :| 0 <= i < |table| && k == MediaPlaceholder(i);
    }
  }

  lemma TokenRoundTrip(args: seq<string>, dirs: Dirs, media: map<string, string>, i: nat, out: string)
    requires AllNoOpen(args) && ArgsPlain(args) && i < |args|
    requires IsAbs(dirs.session) && NoOpen(dirs.session) && NoOpen(dirs.plex)
    requires OwnMedia(media, Args(args, dirs, []).table)
    requires Substituted(Args(args, dirs, []).tokens[i], out, dirs.session, PMS_URL_PREFIX, dirs.plex, media)
    ensures out == Normal(args, dirs)[i]
  {
    var table := Args(args, dirs, []).table;
    PlainIsClean(args, dirs);
    ArgsAdd(args, dirs, []);
    OwnCovers(media, table);
    OwnAll(media, dirs, table);
    SentArgvResolves(args, dirs, i, out, media, dirs.session, PMS_URL_PREFIX, dirs.plex);
    ArgsBack(args, dirs, [], table, AllValues(dirs.session, PMS_URL_PREFIX, dirs.plex, media), i);
  }

  /**
   * Rewriting and substitution undo each other. For a '{'-free argv without file references in
   * filter strings, substituting the master's own session dir, server URL, install dir and paths
   * into what the shim sends gives the argv back, up to the spelling of its file inputs; and exactly,
   * if and only if every file input is an absolute clean path.
   */
  lemma RewriteSubstitute(args: seq<string>, dirs: Dirs, media: map<string, string>, outs: seq<string>)
    requires AllNoOpen(args) && ArgsPlain(args)
    requires IsAbs(dirs.session) && NoOpen(dirs.session) && NoOpen(dirs.plex)
    requires OwnMedia(media, Args(args, dirs, []).table)
    requires |outs| == |args|
    requires forall i :: 0 <= i < |args| ==>
               Substituted(Args(args, dirs, []).tokens[i], outs[i], dirs.session, PMS_URL_PREFIX, dirs.plex, media)
    ensures outs == Normal(args, dirs)
    ensures outs == args <==> InputsClean(args)
  {
    forall i | 0 <= i < |args|
      ensures outs[i] == Normal(args, dirs)[i]
    {
      TokenRoundTrip(args, dirs, media, i, outs[i]);
    }
    NormalUnchanged(args, dirs);
  }
}
