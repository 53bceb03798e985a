/**
 * The filter strings that the worker's transcoder is started with: the master's text with every file
 * reference become the worker's own copy of that file.
 */
module FilterOnWorker {
  import opened Prelude
  import opened Decimal
  import opened Paths
  import opened Placeholders
  import opened Filters
  import opened FilterMeaning
  import opened FilterMerge
  import opened FilterSwallow
  import opened FilterPaths
  import opened RewriteSpec
  import opened RewriteShape
  import opened Substitute
  import opened Prepare
  import opened RoundTrip
  import opened WorkerArgv

  /** The file that a reference names: its unescaped path, taken from the session dir, as a file to spool. */
  function Named(text: string, dirs: Dirs): Media {
    Media(Absolute(dirs.session, Unescape(text)), Spool)
  }

  /** Every reference is listed for spooling. */
  predicate AllListed(segs: Segs, dirs: Dirs, table: seq<Media>) {
    match segs
    case End => true
    case Lit(_, more) => AllListed(more, dirs, table)
    case Ref(text, more) => Named(text, dirs) in table && AllListed(more, dirs, table)
  }

  /** The text with the proxy's base for the server's URL, and each file's own copy for the file. */
  function Localised(segs: Segs, dirs: Dirs, table: seq<Media>, spoolDir: string, proxyBase: string): string
    requires AllListed(segs, dirs, table)
  {
    match segs
    case End => ""
    case Lit(text, more) => Resolve(text, map[PMS := proxyBase]) + Localised(more, dirs, table, spoolDir, proxyBase)
    case Ref(text, more) =>
      var m := Named(text, dirs);
      SpoolFile(spoolDir, Find(table, m), m.path) + Localised(more, dirs, table, spoolDir, proxyBase)
  }

  lemma {:induction false} ResolveAgrees(s: string, known: set<string>, v: map<string, string>, u: map<string, string>)
    requires AllPlaceholders(known) && Good(s, known) && known <= v.Keys && known <= u.Keys
    requires forall t :: t in known ==> v[t] == u[t]
    ensures Resolve(s, v) == Resolve(s, u)
    decreases |s|
  {
    if s == "" {
    } else if s[0] != '{' {
      ResolveAgrees(s[1..], known, v, u);
    } else {
      var t := PlaceholderAt(s);
      ResolveAgrees(s[|t|..], known, v, u);
    }
  }

  /** The values that the worker substitutes, as far as filter strings use them. */
  ghost predicate LocalValues(values: map<string, string>, table: seq<Media>, spoolDir: string, proxyBase: string) {
    && PMS in values && values[PMS] == proxyBase
    && forall k :: 0 <= k < |table| ==>
         MediaPlaceholder(k) in values
         && (table[k].mode.Spool? ==> values[MediaPlaceholder(k)] == SpoolFile(spoolDir, k, table[k].path))
  }

  lemma RefIsLocal(text: string, dirs: Dirs, table: seq<Media>, final: seq<Media>, values: map<string, string>,
                   spoolDir: string, proxyBase: string)
    requires table <= final && SpoolOf(text, dirs) in table && LocalValues(values, final, spoolDir, proxyBase)
    ensures Named(text, dirs) in final && Placeholder(table, SpoolOf(text, dirs)) in values
    ensures values[Placeholder(table, SpoolOf(text, dirs))]
         == SpoolFile(spoolDir, Find(final, Named(text, dirs)), Named(text, dirs).path)
  {
    var m := SpoolOf(text, dirs);
    PlaceholderStable(table, final, m);
    var k := Find(final, m);
    assert final[k] == m;
  }

  lemma {:induction false} SpelledIsLocal(segs: Segs, dirs: Dirs, table: seq<Media>, final: seq<Media>,
                                          values: map<string, string>, spoolDir: string, proxyBase: string)
    requires table <= final && RefsIn(segs, dirs, table) && LitsGood(segs, {PMS})
    requires LocalValues(values, final, spoolDir, proxyBase)
    requires forall m :: m in table ==> Placeholder(table, m) in values
    ensures AllListed(segs, dirs, final)
    ensures Spelled(segs, dirs, table, values) == Localised(segs, dirs, final, spoolDir, proxyBase)
  {
    match segs {
      case End =>
      case Lit(text, more) =>
        PmsCharacters();
        ResolveAgrees(text, {PMS}, values, map[PMS := proxyBase]);
        SpelledIsLocal(more, dirs, table, final, values, spoolDir, proxyBase);
      case Ref(text, more) =>
        RefIsLocal(text, dirs, table, final, values, spoolDir, proxyBase);
        SpelledIsLocal(more, dirs, table, final, values, spoolDir, proxyBase);
    }
  }

  // ---- no directory prefix in front of a filter ----

  lemma FilterStarts(s: string, dirs: Dirs, table: seq<Media>)
    requires s != "" && s[0] != '/'
    ensures FilterRefs(s, dirs, table).text != "" && FilterRefs(s, dirs, table).text[0] != '/'
  {
    if NamesFiles(s) {
      var o := Render(SubtitleSegs(s, SUBTITLES), dirs, table);
      FirstLit(s);
      assert o.text != "" && o.text[0] == s[0];
      SecondLit(o.text);
    }
  }

  lemma FirstLit(s: string)
    requires s != ""
    ensures SubtitleSegs(s, SUBTITLES).Lit? && SubtitleSegs(s, SUBTITLES).text != ""
    ensures SubtitleSegs(s, SUBTITLES).text[0] == s[0]
  {
  }

  lemma SecondLit(s: string)
    requires s != ""
    ensures KeySegs(s, FONTSDIR).Lit? && KeySegs(s, FONTSDIR).text != ""
    ensures KeySegs(s, FONTSDIR).text[0] == s[0]
  {
  }

  lemma MarkedStarts(a: string)
    requires a != "" && a[0] != '/'
    ensures Marked(a) != "" && Marked(a)[0] != '/'
  {
  }

  lemma NotSwapped(s: string, dirs: Dirs)
    requires s != "" && s[0] != '/' && IsAbs(dirs.session) && IsAbs(dirs.plex)
    ensures SwapDir(s, dirs) == s
  {
    assert (dirs.session + "/")[0] == '/' && (dirs.plex + "/")[0] == '/';
  }

  /** A filter string as a token: no directory is swapped, and its references are filled in. */
  lemma FilterToken(a: string, dirs: Dirs, table: seq<Media>, final: seq<Media>, values: map<string, string>,
                    spoolDir: string, proxyBase: string)
    requires NoOpen(a) && a != "" && a[0] != '/' && IsAbs(dirs.session) && IsAbs(dirs.plex)
    requires NoDup(table) && Token(a, dirs, table).table <= final && !ValueMeetsFile(Marked(a))
    requires Sent(final) <= values.Keys && LocalValues(values, final, spoolDir, proxyBase)
    ensures AllListed(Merged(Marked(a)), dirs, final)
    ensures Resolve(Token(a, dirs, table).text, values) == Localised(Merged(Marked(a)), dirs, final, spoolDir, proxyBase)
  {
    var s := Marked(a);
    var out := FilterRefs(s, dirs, table);
    FixedArePlaceholders();
    ReplaceMarks(a, PMS_URL_PREFIX, PMS, map[PMS := PMS_URL_PREFIX]);
    MarkedStarts(a);
    FilterStarts(s, dirs, table);
    NotSwapped(out.text, dirs);
    SentGrows(out.table, final);
    MergedMeans(s, dirs, table, values);
    MergedLits(s);
    SpelledIsLocal(Merged(s), dirs, out.table, final, values, spoolDir, proxyBase);
  }

  // ---- end to end ----

  lemma PreparedValues(args: seq<string>, dirs: Dirs, spoolDir: string, keys: seq<string>, media: map<string, MediaRef>,
                       spooled: map<string, string>, outDir: string, proxyBase: string, plexDir: string, out: seq<string>)
    requires Spooled(spooled, spoolDir, Args(args, dirs, []).table)
    requires PreparedRight(args, dirs, keys, media, spooled, outDir, proxyBase, plexDir, out)
    ensures
      var final := Args(args, dirs, []).table;
      var values := AllValues(outDir, proxyBase, plexDir, Values(keys, media, spooled));
      Sent(final) <= values.Keys && LocalValues(values, final, spoolDir, proxyBase)
  {
    var final := Args(args, dirs, []).table;
    var values := Values(keys, media, spooled);
    forall k | 0 <= k < |final|
      ensures var all := AllValues(outDir, proxyBase, plexDir, values);
              MediaPlaceholder(k) in all
              && (final[k].mode.Spool? ==> all[MediaPlaceholder(k)] == SpoolFile(spoolDir, k, final[k].path))
    {
      ValueKept(values, outDir, proxyBase, plexDir, |final|, k);
      if final[k].mode.Spool? {
        SpooledAt(spooled, spoolDir, final, k);
      }
    }
    MediaApart(|final|);
  }

  /**
   * Filter strings on the worker, end to end. Take a '{'-free argv, what the worker prepares from what the
   * shim sends, and an argument that is no input, does not start with '/', and in which no standalone
   * value runs into a file. On the worker its literal text is in place, with the proxy's base for the
   * server's URL, and each file reference is the worker's spooled copy of the file that it names.
   */
  lemma FilterArgOnWorker(args: seq<string>, dirs: Dirs, spoolDir: string, keys: seq<string>, media: map<string, MediaRef>,
                          spooled: map<string, string>, outDir: string, proxyBase: string, plexDir: string,
                          r: Result<seq<string>, PrepareError>, i: nat)
    requires AllNoOpen(args) && ExtsNoOpen(Args(args, dirs, []).table) && IsAbs(dirs.session) && IsAbs(dirs.plex)
    requires UrlsNoOpen(media) && Spooled(spooled, spoolDir, Args(args, dirs, []).table)
    requires NoOpen(spoolDir) && NoOpen(outDir) && NoOpen(proxyBase) && NoOpen(plexDir)
    requires ShimMedia(keys, media, Args(args, dirs, []).table) && |Args(args, dirs, []).table| <= MAX_INT64
    requires Prepared(Args(args, dirs, []).tokens, keys, media, spooled, outDir, proxyBase, plexDir, r) && r.Ok?
    requires i < |args| && !IsInput(args, i) && args[i] != "" && args[i][0] != '/' && !ValueMeetsFile(Marked(args[i]))
    ensures |r.value| == |args| && AllListed(Merged(Marked(args[i])), dirs, Args(args, dirs, []).table)
    ensures r.value[i] == Localised(Merged(Marked(args[i])), dirs, Args(args, dirs, []).table, spoolDir, proxyBase)
  {
    SentJobPrepares(args, dirs, spoolDir, keys, media, spooled, outDir, proxyBase, plexDir, r);
    PreparedFilter(args, dirs, spoolDir, keys, media, spooled, outDir, proxyBase, plexDir, r.value, i);
  }

  lemma PreparedFilter(args: seq<string>, dirs: Dirs, spoolDir: string, keys: seq<string>, media: map<string, MediaRef>,
                       spooled: map<string, string>, outDir: string, proxyBase: string, plexDir: string,
                       out: seq<string>, i: nat)
    requires AllNoOpen(args) && IsAbs(dirs.session) && IsAbs(dirs.plex)
    requires Spooled(spooled, spoolDir, Args(args, dirs, []).table)
    requires PreparedRight(args, dirs, keys, media, spooled, outDir, proxyBase, plexDir, out)
    requires i < |args| && !IsInput(args, i) && args[i] != "" && args[i][0] != '/' && !ValueMeetsFile(Marked(args[i]))
    ensures |out| == |args| && AllListed(Merged(Marked(args[i])), dirs, Args(args, dirs, []).table)
    ensures out[i] == Localised(Merged(Marked(args[i])), dirs, Args(args, dirs, []).table, spoolDir, proxyBase)
  {
    var final := Args(args, dirs, []).table;
    PreparedValues(args, dirs, spoolDir, keys, media, spooled, outDir, proxyBase, plexDir, out);
    var t := TokenWithDup(args, dirs, i);
    FilterToken(args[i], dirs, t, final, AllValues(outDir, proxyBase, plexDir, Values(keys, media, spooled)), spoolDir, proxyBase);
  }

  lemma TokenWithDup(args: seq<string>, dirs: Dirs, i: nat) returns (t: seq<Media>)
    requires i < |args| && !IsInput(args, i)
    ensures NoDup(t) && Args(args, dirs, []).tokens[i] == Token(args[i], dirs, t).text
    ensures Token(args[i], dirs, t).table <= Args(args, dirs, []).table
  {
    t := TokenAt(args, dirs, [], i);
  }
}
