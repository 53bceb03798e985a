/** Which argv make the shim spool a path with a '{' in it (internal/shim/rewrite.go). */
module FilterPaths {
  import opened Prelude
  import opened Text
  import opened Paths
  import opened Placeholders
  import opened Filters
  import opened RewriteSpec
  import opened RewriteShape
  import opened FilterMeaning
  import opened FilterMerge
  import opened FilterSwallow

  ghost predicate PathsNoOpen(table: seq<Media>) {
    forall i :: 0 <= i < |table| ==> NoOpen(table[i].path)
  }

  lemma AddPath(table: seq<Media>, m: Media)
    ensures PathsNoOpen(Add(table, m)) <==> PathsNoOpen(table) && NoOpen(m.path)
  {
    var t := Add(table, m);
    if PathsNoOpen(t) {
      assert forall i :: 0 <= i < |table| ==> t[i] == table[i];
      var k :| 0 <= k < |t| && t[k] == m;
    }
  }

  lemma {:induction false} RenderPaths(segs: Segs, dirs: Dirs, table: seq<Media>)
    ensures PathsNoOpen(Render(segs, dirs, table).table) <==> PathsNoOpen(table) && !BadRef(segs, dirs)
  {
    match segs {
      case End =>
      case Lit(_, more) => RenderPaths(more, dirs, table);
      case Ref(text, more) =>
        AddPath(table, SpoolOf(text, dirs));
        RenderPaths(more, dirs, Add(table, SpoolOf(text, dirs)));
    }
  }

  lemma {:induction false} AppendBad(a: Segs, b: Segs, dirs: Dirs)
    ensures BadRef(Append(a, b), dirs) <==> BadRef(a, dirs) || BadRef(b, dirs)
  {
    match a {
      case End =>
      case Lit(_, more) => AppendBad(more, b, dirs);
      case Ref(_, more) => AppendBad(more, b, dirs);
    }
  }

  /** Where no value runs into a file, the merged references are those of both scans. */
  lemma {:induction false} MergeBad(acc: string, segs: Segs, key: string, dirs: Dirs, table: seq<Media>)
    requires key != "" && key[|key| - 1] == '=' && key[0] == 'f' && '{' !in key
    requires Good(acc, {PMS}) && LitsGood(segs, {PMS}) && !RunsInto(acc, segs, key) && RefsIn(segs, dirs, table)
    ensures BadRef(Merge(acc, segs, key), dirs)
      <==> BadRef(segs, dirs) || BadRef(WholeSegs(acc + Printed(segs, dirs, table), key), dirs)
    decreases segs
  {
    match segs {
      case End =>
        assert acc + "" == acc;
        WholePlain(acc, key);
      case Lit(text, more) =>
        PmsCharacters();
        GoodConcat(acc, text, {PMS});
        Assoc(acc, text, Printed(more, dirs, table));
        MergeBad(acc + text, more, key, dirs, table);
      case Ref(text, more) =>
        var rest := Printed(more, dirs, table);
        Across(acc, Find(table, SpoolOf(text, dirs)), rest, key, dirs);
        GoodPlain("", {PMS});
        assert "" + rest == rest;
        MergeBad("", more, key, dirs, table);
        AppendBad(KeySegs(acc, key), Ref(text, Merge("", more, key)), dirs);
    }
  }

  /** A filter string that the shim gets right, with references whose paths are free of '{'. */
  predicate FilterClean(s: string, dirs: Dirs) {
    !ValueMeetsFile(s) && !BadRef(Merged(s), dirs)
  }

  lemma SecondIs(s: string, dirs: Dirs, table: seq<Media>)
    requires NoDup(table) && Good(s, {PMS}) && NamesFiles(s)
    ensures FilterRefs(s, dirs, table) == Render(SecondSegs(s, dirs, table), dirs, AfterFirst(s, dirs, table).table)
  {
    var mid := AfterFirst(s, dirs, table);
    ScanKeys();
    SubtitleLits(s, SUBTITLES);
    RenderGood(SubtitleSegs(s, SUBTITLES), dirs, table);
    RenderGrows(SubtitleSegs(s, SUBTITLES), dirs, table);
    WholeRender(mid.text, FONTSDIR, dirs, mid.table);
  }

  /** A bad reference of either scan is one of the merged ones, or comes from a value that runs into a file. */
  lemma EitherBad(first: Segs, key: string, dirs: Dirs, table: seq<Media>)
    requires key != "" && key[|key| - 1] == '=' && key[0] == 'f' && '{' !in key
    requires LitsGood(first, {PMS}) && RefsIn(first, dirs, table)
    ensures BadRef(first, dirs) || BadRef(WholeSegs(Printed(first, dirs, table), key), dirs)
      <==> RunsInto("", first, key) || BadRef(Merge("", first, key), dirs)
  {
    GoodPlain("", {PMS});
    assert "" + Printed(first, dirs, table) == Printed(first, dirs, table);
    if RunsInto("", first, key) {
      RunsIntoBad("", first, key, dirs, table);
    } else {
      MergeBad("", first, key, dirs, table);
    }
  }

  /** The references of the two scans are clean exactly when the string is. */
  lemma ScansBad(s: string, dirs: Dirs, table: seq<Media>)
    requires NoDup(table) && Good(s, {PMS}) && NamesFiles(s)
    ensures BadRef(SubtitleSegs(s, SUBTITLES), dirs) || BadRef(SecondSegs(s, dirs, table), dirs) <==> !FilterClean(s, dirs)
  {
    ScanKeys();
    TwoScans(s, dirs, table);
    FirstPrinted(s, dirs, table);
    EitherBad(SubtitleSegs(s, SUBTITLES), FONTSDIR, dirs, FilterRefs(s, dirs, table).table);
  }

  lemma FirstPrinted(s: string, dirs: Dirs, table: seq<Media>)
    requires NoDup(table) && Good(s, {PMS}) && NamesFiles(s)
    ensures
      var first, out := SubtitleSegs(s, SUBTITLES), FilterRefs(s, dirs, table);
      RefsIn(first, dirs, out.table) && AfterFirst(s, dirs, table).text == Printed(first, dirs, out.table)
  {
    SecondScan(s, dirs, table);
    FilterGrows(s, dirs, table);
    RenderPrints(SubtitleSegs(s, SUBTITLES), dirs, table, FilterRefs(s, dirs, table).table);
  }

  /** Rewriting a filter string adds only '{'-free paths to the table if and only if it is clean. */
  lemma FilterAdds(s: string, dirs: Dirs, table: seq<Media>)
    requires NoDup(table) && Good(s, {PMS})
    ensures PathsNoOpen(FilterRefs(s, dirs, table).table) <==> PathsNoOpen(table) && FilterClean(s, dirs)
  {
    if NamesFiles(s) {
      SecondIs(s, dirs, table);
      RenderPaths(SubtitleSegs(s, SUBTITLES), dirs, table);
      RenderPaths(SecondSegs(s, dirs, table), dirs, AfterFirst(s, dirs, table).table);
      ScansBad(s, dirs, table);
    } else {
      assert !BadRef(Lit(s, End), dirs);
    }
  }

  lemma {:induction false} BracelessRefs(segs: Segs, dirs: Dirs)
    requires LitsNoOpen(segs) && NoOpen(dirs.session)
    ensures !BadRef(segs, dirs)
  {
    match segs {
      case End =>
      case Lit(_, more) => BracelessRefs(more, dirs);
      case Ref(text, more) =>
        SpoolNoOpen(text, dirs);
        BracelessRefs(more, dirs);
    }
  }

  /** For a '{'-free string the first half of the condition is the whole of it. */
  lemma CleanExactly(s: string, dirs: Dirs)
    requires NoOpen(s) && NoOpen(dirs.session)
    ensures FilterClean(s, dirs) <==> !ValueMeetsFile(s)
  {
    MergedSource(s);
    PiecesNoOpen(Merged(s));
    BracelessRefs(Merged(s), dirs);
  }

  // ---- whole argv ----

  /** A token with the server's URL marked. */
  function Marked(a: string): string {
    ReplaceAll(a, PMS_URL_PREFIX, PMS)
  }

  /** Every token that is no input is a clean filter string. */
  predicate ArgsClean(args: seq<string>, dirs: Dirs)
    decreases |args|
  {
    if args == [] then true
    else if args[0] == "-i" && |args| > 1 then ArgsClean(args[2..], dirs)
    else FilterClean(Marked(args[0]), dirs) && ArgsClean(args[1..], dirs)
  }

  lemma MarkedGood(a: string)
    requires NoOpen(a)
    ensures Good(Marked(a), {PMS})
  {
    PmsCharacters();
    ReplaceMarks(a, PMS_URL_PREFIX, PMS, map[PMS := PMS_URL_PREFIX]);
  }

  lemma InputAdds(v: string, dirs: Dirs, table: seq<Media>)
    requires NoOpen(v) && NoOpen(dirs.session)
    ensures PathsNoOpen(Input(v, dirs, table).table) <==> PathsNoOpen(table)
  {
    if IsFileInput(v) {
      AbsoluteLacks(dirs.session, v, '{');
      AddPath(table, InputOf(v, dirs));
    }
  }

  /**
   * The shim lists only '{'-free paths for a '{'-free argv if and only if its filter strings are clean:
   * none has a value that runs into a reference, and none has a reference whose own path has a '{'
   * (from the mark that stands for the server's URL).
   */
  lemma {:induction false} ArgsAdd(args: seq<string>, dirs: Dirs, table: seq<Media>)
    requires AllNoOpen(args) && NoOpen(dirs.session) && NoDup(table)
    ensures PathsNoOpen(Args(args, dirs, table).table) <==> PathsNoOpen(table) && ArgsClean(args, dirs)
    decreases |args|
  {
    if args == [] {
    } else if args[0] == "-i" && |args| > 1 {
      InputAdds(args[1], dirs, table);
      InputGrows(args[1], dirs, table);
      ArgsAdd(args[2..], dirs, Input(args[1], dirs, table).table);
    } else {
      MarkedGood(args[0]);
      FilterAdds(Marked(args[0]), dirs, table);
      TokenGrows(args[0], dirs, table);
      ArgsAdd(args[1..], dirs, Token(args[0], dirs, table).table);
    }
  }
}
