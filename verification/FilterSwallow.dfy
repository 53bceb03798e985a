/**
 * The exact condition for one segmentation of a filter string (internal/shim/rewrite.go): what goes
 * wrong when a standalone value runs into a reference, and a string that the shim gets wrong.
 */
module FilterSwallow {
  import opened Prelude
  import opened Text
  import opened Paths
  import opened Placeholders
  import opened Filters
  import opened RewriteSpec
  import opened RewriteShape
  import opened FilterMeaning
  import opened FilterMerge

  // ---- the swallowed placeholder ends up in a path ----

  const BRACED: string := "{MEDIA"

  lemma UnescapeFront()
    ensures Unescape(MEDIA_OPEN) == "{" + BRACED
    ensures Unescape("\\" + MEDIA_OPEN) == "{" + BRACED
  {
    var s := "\\" + MEDIA_OPEN;
    UnescapePlain(MEDIA_OPEN);
    UnescapePlain(BRACED);
    assert s[2..] == BRACED;
    assert Unescape(s) == [s[1]] + Unescape(s[2..]);
  }

  /** Unescaping keeps at least the second brace of a placeholder's front. */
  lemma {:induction false} UnescapeEnds(v: string) returns (w: string)
    ensures Unescape(v + MEDIA_OPEN) == w + BRACED
    decreases |v|
  {
    if v == "" || v == "\\" {
      UnescapeFront();
      assert "" + MEDIA_OPEN == MEDIA_OPEN;
      w := "{";
    } else {
      var k := if v[0] == '\\' then 2 else 1;
      var u := UnescapeEnds(v[k..]);
      UnescapeStep(v, k, MEDIA_OPEN);
      w := [v[k - 1]] + u;
    }
  }

  lemma UnescapeStep(v: string, k: nat, b: string)
    requires v != "" && k == (if v[0] == '\\' then 2 else 1) && k <= |v|
    ensures Unescape(v + b) == [v[k - 1]] + Unescape(v[k..] + b)
  {
    assert (v + b)[k..] == v[k..] + b;
  }

  lemma SwallowedPath(v: string, dirs: Dirs)
    ensures '{' in SpoolOf(v + MEDIA_OPEN, dirs).path
  {
    var w := UnescapeEnds(v);
    var p := w + BRACED;
    LastEndsWith(w, BRACED);
    var e := LastElement(p);
    assert e[|e| - |BRACED|] == BRACED[0] by {
      assert e[|e| - |BRACED|..][0] == BRACED[0];
    }
    assert !Special(e);
    AbsoluteKeepsLast(dirs.session, p);
    LastIsPart(Absolute(dirs.session, p), '{');
  }

  /** An open value takes the front of the placeholder behind it along. */
  lemma ValueSwallows(tail: string, i: nat, rest: string, key: string, dirs: Dirs)
    requires key != "" && tail != "" && Good(tail, {PMS}) && CutLength(tail) == |tail|
    ensures BadRef(WholeValue(tail + (MediaPlaceholder(i) + rest), key), dirs)
  {
    var x := MediaPlaceholder(i) + rest;
    CutOpen(tail, i, rest);
    CutMedia(i, rest);
    assert (tail + x)[..|tail| + |MEDIA_OPEN|] == tail + MEDIA_OPEN;
    NotMediaMore(tail, MEDIA_OPEN);
    SwallowedPath(tail, dirs);
  }

  lemma NotMediaMore(tail: string, b: string)
    requires tail != "" && Good(tail, {PMS})
    ensures !(MEDIA_OPEN <= tail + b)
  {
    assert MEDIA_OPEN[0] == '{' && MEDIA_OPEN[2] == 'M';
    assert (tail + b)[0] == tail[0];
    if tail[0] == '{' {
      assert PlaceholderAt(tail) == PMS;
      PmsFront(tail);
      assert (tail + b)[2] == tail[2];
    }
  }

  /** A value that ends before the placeholder is cut out as if nothing followed. */
  lemma ValueSplits(tail: string, x: string, key: string)
    requires key != "" && CutLength(tail) < |tail| && !(MEDIA_OPEN <= tail[..CutLength(tail)])
    ensures WholeValue(tail + x, key)
         == ValueSegs(tail[..CutLength(tail)], WholeSegs(tail[CutLength(tail)..] + x, key))
  {
    var n := CutLength(tail);
    CutBefore(tail, x);
    assert (tail + x)[..n] == tail[..n] && (tail + x)[n..] == tail[n..] + x;
  }

  lemma ValueBefore(tail: string, i: nat, rest: string, key: string, dirs: Dirs)
    requires key != "" && Good(tail, {PMS}) && CutLength(tail) < |tail|
    requires BadRef(WholeSegs(tail[CutLength(tail)..] + (MediaPlaceholder(i) + rest), key), dirs)
    ensures BadRef(WholeValue(tail + (MediaPlaceholder(i) + rest), key), dirs)
  {
    NotMedia(tail, CutLength(tail));
    ValueSplits(tail, MediaPlaceholder(i) + rest, key);
  }

  lemma {:induction false} OpenSwallows(acc: string, i: nat, rest: string, key: string, dirs: Dirs)
    requires key != "" && key[|key| - 1] == '=' && '{' !in key && Good(acc, {PMS}) && Open(acc, key)
    ensures BadRef(WholeSegs(acc + (MediaPlaceholder(i) + rest), key), dirs)
    decreases |acc|
  {
    var j := Index(acc, key).value + |key|;
    ValueParts(acc, key, j);
    AcrossAt(acc, j, i, rest, key);
    if CutLength(acc[j..]) == |acc[j..]| {
      ValueSwallows(acc[j..], i, rest, key, dirs);
    } else {
      OpenSwallows(acc[j..][CutLength(acc[j..])..], i, rest, key, dirs);
      ValueBefore(acc[j..], i, rest, key, dirs);
    }
  }

  predicate LitsNoOpen(segs: Segs) {
    match segs
    case End => true
    case Lit(text, more) => NoOpen(text) && LitsNoOpen(more)
    case Ref(text, more) => NoOpen(text) && LitsNoOpen(more)
  }

  lemma {:induction false} PiecesNoOpen(segs: Segs)
    requires NoOpen(Source(segs))
    ensures LitsNoOpen(segs)
  {
    if !segs.End? {
      var s := Source(segs);
      assert forall k :: 0 <= k < |segs.text| ==> segs.text[k] == s[k];
      assert forall k :: 0 <= k < |Source(segs.more)| ==> Source(segs.more)[k] == s[|segs.text| + k];
      PiecesNoOpen(segs.more);
    }
  }

  /** Wherever a value meets a file, the second scan spools a path with a '{' in it. */
  lemma {:induction false} RunsIntoBad(acc: string, segs: Segs, key: string, dirs: Dirs, table: seq<Media>)
    requires key != "" && key[|key| - 1] == '=' && key[0] == 'f' && '{' !in key
    requires Good(acc, {PMS}) && LitsGood(segs, {PMS}) && RefsIn(segs, dirs, table) && RunsInto(acc, segs, key)
    ensures BadRef(WholeSegs(acc + Printed(segs, dirs, table), key), dirs)
    decreases segs
  {
    match segs {
      case Lit(text, more) =>
        PmsCharacters();
        GoodConcat(acc, text, {PMS});
        Assoc(acc, text, Printed(more, dirs, table));
        RunsIntoBad(acc + text, more, key, dirs, table);
      case Ref(text, more) =>
        var i := Find(table, SpoolOf(text, dirs));
        var rest := Printed(more, dirs, table);
        if Open(acc, key) {
          OpenSwallows(acc, i, rest, key, dirs);
        } else {
          GoodPlain("", {PMS});
          Across(acc, i, rest, key, dirs);
          assert "" + rest == rest;
          RunsIntoBad("", more, key, dirs, table);
        }
    }
  }

  // ---- no segmentation of the string prints such a path ----

  /** Placeholders of references whose path is free of '{'. */
  ghost predicate Braceless(t: string, table: seq<Media>) {
    exists m :: m in table && NoOpen(m.path) && t == Placeholder(table, m)
  }

  /** Text whose every '{' starts a placeholder of such a reference. */
  ghost predicate BracelessText(s: string, table: seq<Media>)
    decreases |s|
  {
    if s == "" then true
    else if s[0] != '{' then BracelessText(s[1..], table)
    else
      var t := PlaceholderAt(s);
      t != "" && Braceless(t, table) && BracelessText(s[|t|..], table)
  }

  lemma {:induction false} BracelessFront(a: string, b: string, table: seq<Media>)
    requires NoOpen(a) && BracelessText(b, table)
    ensures BracelessText(a + b, table)
    decreases |a|
  {
    if a == "" {
      assert a + b == b;
    } else {
      BracelessFront(a[1..], b, table);
      assert (a + b)[1..] == a[1..] + b;
    }
  }

  lemma SpoolNoOpen(v: string, dirs: Dirs)
    requires NoOpen(v) && NoOpen(dirs.session)
    ensures NoOpen(SpoolOf(v, dirs).path)
  {
    UnescapeLacks(v, '{');
    AbsoluteLacks(dirs.session, Unescape(v), '{');
  }

  lemma {:induction false} PrintedBraceless(segs: Segs, dirs: Dirs, table: seq<Media>)
    requires LitsNoOpen(segs) && NoOpen(dirs.session) && RefsIn(segs, dirs, table)
    ensures BracelessText(Printed(segs, dirs, table), table)
  {
    match segs {
      case End =>
      case Lit(text, more) =>
        PrintedBraceless(more, dirs, table);
        BracelessFront(text, Printed(more, dirs, table), table);
      case Ref(text, more) =>
        var m := SpoolOf(text, dirs);
        var ph := Placeholder(table, m);
        PrintedBraceless(more, dirs, table);
        SpoolNoOpen(text, dirs);
        PlaceholderSent(table, m);
        PlaceholderUnique(ph + Printed(more, dirs, table), ph);
        assert (ph + Printed(more, dirs, table))[|ph|..] == Printed(more, dirs, table);
        assert Braceless(ph, table);
    }
  }

  /** Well-made text in front can be taken away. */
  lemma {:induction false} BracelessStrip(a: string, b: string, known: set<string>, table: seq<Media>)
    requires AllPlaceholders(known) && Good(a, known) && BracelessText(a + b, table)
    ensures BracelessText(b, table)
    decreases |a|
  {
    if a == "" {
      assert a + b == b;
    } else if a[0] != '{' {
      assert (a + b)[1..] == a[1..] + b;
      BracelessStrip(a[1..], b, known, table);
    } else {
      var t := PlaceholderAt(a);
      PlaceholderUnique(a + b, t);
      assert (a + b)[|t|..] == a[|t|..] + b;
      BracelessStrip(a[|t|..], b, known, table);
    }
  }

  lemma BracelessFirst(m: Media, b: string, table: seq<Media>)
    requires m in table && BracelessText(Placeholder(table, m) + b, table)
    ensures NoOpen(m.path)
  {
    var ph := Placeholder(table, m);
    PlaceholderSent(table, m);
    PlaceholderUnique(ph + b, ph);
    var n :| n in table && NoOpen(n.path) && ph == Placeholder(table, n);
    MediaInjective(Find(table, m), Find(table, n));
  }

  /** Printed text that holds a bad reference is not of that kind. */
  lemma {:induction false} BadIsSeen(segs: Segs, dirs: Dirs, table: seq<Media>, known: set<string>)
    requires AllPlaceholders(known) && LitsGood(segs, known) && RefsIn(segs, dirs, table) && BadRef(segs, dirs)
    ensures !BracelessText(Printed(segs, dirs, table), table)
  {
    match segs {
      case Lit(text, more) =>
        BadIsSeen(more, dirs, table, known);
        if BracelessText(text + Printed(more, dirs, table), table) {
          BracelessStrip(text, Printed(more, dirs, table), known, table);
        }
      case Ref(text, more) =>
        var m := SpoolOf(text, dirs);
        if BracelessText(Printed(segs, dirs, table), table) {
          BracelessFirst(m, Printed(more, dirs, table), table);
          BracelessAfter(m, Printed(more, dirs, table), table);
          BadIsSeen(more, dirs, table, known);
        }
    }
  }

  lemma BracelessAfter(m: Media, b: string, table: seq<Media>)
    requires m in table && BracelessText(Placeholder(table, m) + b, table)
    ensures BracelessText(b, table)
  {
    var ph := Placeholder(table, m);
    PlaceholderSent(table, m);
    PlaceholderUnique(ph + b, ph);
    assert (ph + b)[|ph|..] == b;
  }

  // ---- exactly when there is one segmentation ----

  lemma NothingMerged(s: string, dirs: Dirs, table: seq<Media>, segs: Segs)
    requires NoDup(table) && NoOpen(s) && NoOpen(dirs.session) && ValueMeetsFile(s)
    ensures !IsMerged(segs, s, dirs, FilterRefs(s, dirs, table))
  {
    var first, out := SubtitleSegs(s, SUBTITLES), FilterRefs(s, dirs, table);
    GoodPlain(s, {PMS});
    ScanKeys();
    TwoScans(s, dirs, table);
    GoodPlain("", {PMS});
    RunsIntoBad("", first, FONTSDIR, dirs, out.table);
    assert "" + Printed(first, dirs, out.table) == Printed(first, dirs, out.table);
    SentPlaceholders(out.table);
    BadIsSeen(WholeSegs(Printed(first, dirs, out.table), FONTSDIR), dirs, out.table, Sent(out.table));
    if IsMerged(segs, s, dirs, out) {
      PiecesNoOpen(segs);
      PrintedBraceless(segs, dirs, out.table);
    }
  }

  /**
   * Filter strings change only in their file references: for a '{'-free string and session dir there is
   * a segmentation of the string whose literal pieces the shim keeps, with each reference replaced by
   * the placeholder of its unescaped absolute path, if and only if no standalone fontsdir= value runs
   * into a reference of a subtitles= list.
   */
  lemma MergedExactly(s: string, dirs: Dirs, table: seq<Media>)
    requires NoDup(table) && NoOpen(s) && NoOpen(dirs.session)
    ensures (exists segs :: IsMerged(segs, s, dirs, FilterRefs(s, dirs, table))) <==> !ValueMeetsFile(s)
  {
    if ValueMeetsFile(s) {
      forall segs
        ensures !IsMerged(segs, s, dirs, FilterRefs(s, dirs, table))
      {
        NothingMerged(s, dirs, table, segs);
      }
    } else {
      GoodPlain(s, {PMS});
      MergedIsWritten(s, dirs, table);
    }
  }

  // ---- the condition, read off the string ----

  /** The literal text ends in a standalone key and a value that nothing has ended. */
  ghost predicate EndsInValue(acc: string, key: string) {
    exists x: string, v: string :: acc == x + (key + v) && v != "" && CutLength(v) == |v|
  }

  lemma EndsAfter(front: string, tail: string, key: string)
    requires EndsInValue(tail, key)
    ensures EndsInValue(front + tail, key)
  {
    var x, v :| tail == x + (key + v) && v != "" && CutLength(v) == |v|;
    Assoc(front, x, key + v);
  }

  lemma AfterKey(acc: string, key: string, j: nat)
    requires key != "" && Index(acc, key).Some? && j == Index(acc, key).value + |key|
    ensures acc == acc[..Index(acc, key).value] + (key + acc[j..])
  {
    var i := Index(acc, key).value;
    IndexMatches(acc, key);
    assert acc[i..] == key + acc[j..] by {
      TwoParts(acc[i..], |key|);
      assert acc[i..][|key|..] == acc[j..];
    }
    TwoParts(acc, i);
  }

  lemma {:induction false} OpenEnds(acc: string, key: string)
    requires key != "" && Open(acc, key)
    ensures EndsInValue(acc, key)
    decreases |acc|
  {
    var j := Index(acc, key).value + |key|;
    AfterKey(acc, key, j);
    if CutLength(acc[j..]) < |acc[j..]| {
      OpenEnds(acc[j..][CutLength(acc[j..])..], key);
      EndsAfter(acc[j..][..CutLength(acc[j..])], acc[j..][CutLength(acc[j..])..], key);
      TwoParts(acc[j..], CutLength(acc[j..]));
      EndsAfter(acc[..j], acc[j..], key);
      TwoParts(acc, j);
    }
  }

  /** Scanning through a key leaves the value behind it to be scanned from its start. */
  lemma {:induction false} CutThrough(y: string, key: string, v: string)
    requires |key| >= 2 && forall k :: 0 <= k < |key| ==> key[k] != '\\' && !IsMeta(key[k])
    requires CutLength(y + (key + v)) >= |y|
    ensures CutLength(y + (key + v)) == |y| + |key| + CutLength(v)
    decreases |y|
  {
    var s := y + (key + v);
    if y == "" {
      assert s == key + v;
      CutAfter(key, v);
    } else if y == "\\" {
      assert s[2..] == key[1..] + v;
      CutAfter(key[1..], v);
    } else {
      var k := if y[0] == '\\' then 2 else 1;
      assert s[k..] == y[k..] + (key + v);
      CutThrough(y[k..], key, v);
    }
  }

  /** Occurrences of the key do not overlap. */
  predicate Simple(key: string) {
    && |key| >= 2 && (forall k :: 0 <= k < |key| ==> key[k] != '\\' && !IsMeta(key[k]))
    && forall k :: 0 < k < |key| ==> key[k] != key[0]
  }

  lemma {:induction false} IndexAtMost(x: string, key: string, v: string)
    ensures Index(x + (key + v), key).Some? && Index(x + (key + v), key).value <= |x|
    decreases |x|
  {
    var s := x + (key + v);
    if x == "" {
      assert s == key + v;
      assert key <= s;
    } else if !(key <= s) {
      IndexAtMost(x[1..], key, v);
      assert s[1..] == x[1..] + (key + v);
    }
  }

  /** The first occurrence ends before a later one starts. */
  lemma NoOverlap(x: string, key: string, v: string)
    requires Simple(key) && Index(x + (key + v), key).Some? && Index(x + (key + v), key).value < |x|
    ensures Index(x + (key + v), key).value + |key| <= |x|
  {
    var s := x + (key + v);
    var i := Index(s, key).value;
    IndexMatches(s, key);
    assert s[|x|] == key[0];
    assert forall k :: 0 <= k < |key| ==> s[i + k] == s[i..][..|key|][k];
  }

  lemma {:induction false} EndsOpen(x: string, key: string, v: string)
    requires Simple(key) && v != "" && CutLength(v) == |v|
    ensures Open(x + (key + v), key)
    decreases |x|
  {
    var acc := x + (key + v);
    IndexAtMost(x, key, v);
    var i := Index(acc, key).value;
    var j := i + |key|;
    if i == |x| {
      assert acc[j..] == v;
    } else {
      NoOverlap(x, key, v);
      var y := x[j..];
      assert acc[j..] == y + (key + v);
      if CutLength(acc[j..]) < |y| {
        EndsLater(y, CutLength(acc[j..]), key, v);
        EndsOpen(y[CutLength(acc[j..])..], key, v);
      } else {
        CutThrough(y, key, v);
      }
    }
  }

  lemma EndsLater(y: string, n: nat, key: string, v: string)
    requires n <= |y|
    ensures (y + (key + v))[n..] == y[n..] + (key + v)
  {
  }

  /** A value is open at the end of a text exactly when the text ends in the key and an unended value. */
  lemma OpenExactly(acc: string, key: string)
    requires Simple(key)
    ensures Open(acc, key) <==> EndsInValue(acc, key)
  {
    if Open(acc, key) {
      OpenEnds(acc, key);
    }
    if EndsInValue(acc, key) {
      var x, v :| acc == x + (key + v) && v != "" && CutLength(v) == |v|;
      EndsOpen(x, key, v);
    }
  }

  lemma FontsDirSimple()
    ensures Simple(FONTSDIR)
  {
  }

  // ---- a string that the shim gets wrong ----

  predicate PlainText(s: string) {
    forall k :: 0 <= k < |s| ==> s[k] != '\\' && !IsMeta(s[k]) && s[k] != '{'
  }

  lemma {:induction false} CutPlainText(s: string)
    requires PlainText(s)
    ensures CutLength(s) == |s|
    decreases |s|
  {
    if s != "" {
      CutPlainText(s[1..]);
    }
  }

  /** The first scan of a standalone key, some text, a second key and a bare path. */
  lemma FirstOfTwo(key: string, v: string, second: string, p: string)
    requires second != "" && Index(key + (v + second) + p, second) == Some(|key| + |v|)
    requires PlainText(p) && p != "" && '=' !in p && Index("", second).None?
    ensures SubtitleSegs(key + (v + second) + p, second) == Lit(key + (v + second), Ref(p, Lit("", End)))
  {
    var front := key + (v + second);
    var s := front + p;
    assert s[..|front|] == front && s[|front|..] == p;
    SubtitleUnfold(s, second, |front|);
    BarePath(p, Lit("", End));
    assert SubtitleSegs("", second) == Lit("", End);
  }

  lemma BarePath(p: string, more: Segs)
    requires PlainText(p) && p != "" && '=' !in p
    ensures ListSegs(p, true, more) == Ref(p, more) && AfterList(p) == ""
  {
    CutPlainText(p);
    assert p[..|p|] == p;
    assert ListSegs(p, true, more) == OptionSegs(p, true, more);
  }

  /** `fontsdir=xsubtitles=/a` */
  const GARBLED: string := FONTSDIR + ("x" + SUBTITLES) + "/a"

  /** Text in which the key's first two characters never stand together holds no start of the key. */
  lemma {:induction false} IndexPast(a: string, b: string, key: string)
    requires |key| >= 2 && forall k :: 0 <= k < |a| && a[k] == key[0] ==> k + 1 < |a| && a[k + 1] != key[1]
    ensures Index(a + b, key) == match Index(b, key) case None => None case Some(i) => Some(|a| + i)
    decreases |a|
  {
    if a == "" {
      assert a + b == b;
    } else {
      var s := a + b;
      assert s[1..] == a[1..] + b;
      if s[0] == key[0] {
        assert s[1] == a[1];
        assert !(key <= s);
      }
      IndexPast(a[1..], b, key);
    }
  }

  lemma GarbledPieces()
    ensures PlainText("x" + SUBTITLES) && PlainText("/a") && NoOpen("/a")
  {
  }

  lemma GarbledIndex()
    ensures Index(GARBLED, SUBTITLES) == Some(|FONTSDIR| + 1)
  {
    var a := FONTSDIR + "x";
    assert GARBLED == a + (SUBTITLES + "/a");
    assert SUBTITLES <= SUBTITLES + "/a";
    IndexPast(a, SUBTITLES + "/a", SUBTITLES);
  }

  lemma GarbledSegs()
    ensures SubtitleSegs(GARBLED, SUBTITLES) == Lit(FONTSDIR + ("x" + SUBTITLES), Ref("/a", Lit("", End)))
    ensures NamesFiles(GARBLED)
  {
    GarbledIndex();
    GarbledPieces();
    FirstOfTwo(FONTSDIR, "x", SUBTITLES, "/a");
  }

  lemma MeetsFile(s: string, front: string, p: string, more: Segs)
    requires NamesFiles(s) && SubtitleSegs(s, SUBTITLES) == Lit(front, Ref(p, more)) && EndsInValue(front, FONTSDIR)
    ensures ValueMeetsFile(s)
  {
    FontsDirSimple();
    OpenExactly(front, FONTSDIR);
    assert "" + front == front;
  }

  lemma EndsPlain(key: string, v: string)
    requires PlainText(v) && v != ""
    ensures EndsInValue(key + v, key)
  {
    CutPlainText(v);
    assert key + v == "" + (key + v);
  }

  /** In this string the value of fontsdir= runs into the reference. */
  lemma GarbledMeets()
    ensures ValueMeetsFile(GARBLED)
  {
    GarbledSegs();
    GarbledPieces();
    EndsPlain(FONTSDIR, "x" + SUBTITLES);
    MeetsFile(GARBLED, FONTSDIR + ("x" + SUBTITLES), "/a", Lit("", End));
  }

  /**
   * What the shim makes of it: the reference's placeholder is left in pieces, and the path that
   * fontsdir= has become has the front of it inside.
   */
  lemma GarbledOutput(dirs: Dirs)
    requires NoOpen(dirs.session)
    ensures
      var out := FilterRefs(GARBLED, dirs, []);
      && out.table == [SpoolOf("/a", dirs), SpoolOf("x" + SUBTITLES + MEDIA_OPEN, dirs)]
      && out.text == FONTSDIR + (MediaPlaceholder(1) + MediaPlaceholder(0)[|MEDIA_OPEN|..])
      && '{' in out.table[1].path
  {
    GarbledSegs();
    GarbledPieces();
    SpoolNoOpen("/a", dirs);
    TwoScansGarble(GARBLED, "x" + SUBTITLES, "/a", dirs);
  }

  /** No segmentation of the string explains that output. */
  lemma GarbledUnmerged(dirs: Dirs)
    requires NoOpen(dirs.session)
    ensures forall segs :: !IsMerged(segs, GARBLED, dirs, FilterRefs(GARBLED, dirs, []))
  {
    GarbledMeets();
    GarbledNoOpen();
    MergedExactly(GARBLED, dirs, []);
  }

  lemma GarbledNoOpen()
    ensures NoOpen(GARBLED)
  {
  }

  lemma RenderOne(front: string, p: string, dirs: Dirs)
    ensures Render(Lit(front, Ref(p, Lit("", End))), dirs, []) == Out(front + MediaPlaceholder(0), [SpoolOf(p, dirs)])
  {
    var m := SpoolOf(p, dirs);
    assert Add([], m) == [m] && Find([m], m) == 0;
    RenderLast("", dirs, [m]);
    assert MediaPlaceholder(0) + "" == MediaPlaceholder(0);
  }

  lemma RenderLast(text: string, dirs: Dirs, table: seq<Media>)
    ensures Render(Lit(text, End), dirs, table) == Out(text, table)
  {
    assert Render(End, dirs, table) == Out("", table);
    assert text + "" == text;
  }

  /** A value that runs into the reference behind it, through both scans. */
  lemma TwoScansGarble(s: string, v: string, p: string, dirs: Dirs)
    requires NamesFiles(s) && SubtitleSegs(s, SUBTITLES) == Lit(FONTSDIR + v, Ref(p, Lit("", End)))
    requires PlainText(v) && v != "" && NoOpen(SpoolOf(p, dirs).path)
    ensures
      var out := FilterRefs(s, dirs, []);
      && out.table == [SpoolOf(p, dirs), SpoolOf(v + MEDIA_OPEN, dirs)]
      && out.text == FONTSDIR + (MediaPlaceholder(1) + MediaPlaceholder(0)[|MEDIA_OPEN|..])
      && '{' in out.table[1].path
  {
    RenderOne(FONTSDIR + v, p, dirs);
    Assoc(FONTSDIR, v, MediaPlaceholder(0));
    KeyFirst(FONTSDIR, v + MediaPlaceholder(0));
    SwallowsReference(v, 0, FONTSDIR);
    SwallowedPath(v, dirs);
    TailHasNoKey(0);
    RenderTwo(FONTSDIR, v + MEDIA_OPEN, MediaPlaceholder(0)[|MEDIA_OPEN|..], dirs, SpoolOf(p, dirs));
  }

  lemma KeyFirst(key: string, x: string)
    requires key != ""
    ensures Index(key + x, key) == Some(0)
  {
    assert key <= key + x;
  }

  lemma TailHasNoKey(i: nat)
    ensures KeySegs(MediaPlaceholder(i)[|MEDIA_OPEN|..], FONTSDIR) == Lit(MediaPlaceholder(i)[|MEDIA_OPEN|..], End)
  {
    var c := MediaPlaceholder(i)[|MEDIA_OPEN|..];
    MediaCharacters(i);
    IndexSkip(c, "", FONTSDIR);
    assert c + "" == c;
  }

  lemma RenderTwo(key: string, v: string, c: string, dirs: Dirs, m: Media)
    requires SpoolOf(v, dirs) != m
    ensures Render(Lit(key, Ref(v, Lit(c, End))), dirs, [m])
         == Out(key + (MediaPlaceholder(1) + c), [m, SpoolOf(v, dirs)])
  {
    var n := SpoolOf(v, dirs);
    assert Add([m], n) == [m, n];
    assert [m, n][1..] == [n];
    assert Find([m, n], n) == 1;
    RenderLast(c, dirs, [m, n]);
    assert Render(Ref(v, Lit(c, End)), dirs, [m]) == Out(MediaPlaceholder(1) + c, [m, n]);
  }

  // ---- on the worker ----

  /**
   * Where no value meets a file, the worker's transcoder sees the filter string with its literal text
   * in place and, for every file reference, the local value of its unescaped absolute path.
   */
  lemma MergedMeans(s: string, dirs: Dirs, table: seq<Media>, values: map<string, string>)
    requires NoDup(table) && Good(s, {PMS}) && !ValueMeetsFile(s)
    requires Sent(FilterRefs(s, dirs, table).table) <= values.Keys
    ensures
      var out := FilterRefs(s, dirs, table);
      && Source(Merged(s)) == s && RefsIn(Merged(s), dirs, out.table)
      && (forall m :: m in out.table ==> Placeholder(out.table, m) in values)
      && Resolve(out.text, values) == Spelled(Merged(s), dirs, out.table, values)
  {
    var out := FilterRefs(s, dirs, table);
    MergedIsWritten(s, dirs, table);
    MergedLits(s);
    PmsCharacters();
    Covered(out.table, values);
    SegsResolve(Merged(s), dirs, out.table, {PMS}, values);
  }

  lemma MergedLits(s: string)
    requires Good(s, {PMS})
    ensures LitsGood(Merged(s), {PMS})
  {
    if NamesFiles(s) {
      ScanKeys();
      SubtitleLits(s, SUBTITLES);
      GoodPlain("", {PMS});
      MergeLits("", SubtitleSegs(s, SUBTITLES), FONTSDIR);
    }
  }

  lemma {:induction false} MergeLits(acc: string, segs: Segs, key: string)
    requires key != "" && key[|key| - 1] == '=' && Good(acc, {PMS}) && LitsGood(segs, {PMS})
    ensures LitsGood(Merge(acc, segs, key), {PMS})
    decreases segs
  {
    match segs {
      case End => KeyLits(acc, key);
      case Lit(text, more) =>
        PmsCharacters();
        GoodConcat(acc, text, {PMS});
        MergeLits(acc + text, more, key);
      case Ref(text, more) =>
        KeyLits(acc, key);
        GoodPlain("", {PMS});
        MergeLits("", more, key);
        AppendLits(KeySegs(acc, key), Ref(text, Merge("", more, key)));
    }
  }

  lemma {:induction false} AppendLits(a: Segs, b: Segs)
    requires LitsGood(a, {PMS}) && LitsGood(b, {PMS})
    ensures LitsGood(Append(a, b), {PMS})
  {
    match a {
      case End =>
      case Lit(_, more) => AppendLits(more, b);
      case Ref(_, more) => AppendLits(more, b);
    }
  }

  lemma {:induction false} KeyLits(acc: string, key: string)
    requires key != "" && key[|key| - 1] == '=' && Good(acc, {PMS})
    ensures LitsGood(KeySegs(acc, key), {PMS})
    decreases |acc|
  {
    if Index(acc, key).Some? {
      var j := Index(acc, key).value + |key|;
      ValueParts(acc, key, j);
      CutGood(acc[j..]);
      KeyUnfold(acc, key, j);
      KeyLits(acc[j..][CutLength(acc[j..])..], key);
    }
  }
}
