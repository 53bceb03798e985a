/**
 * A filter string whose job the worker prepares or refuses depending on the order in which it walks
 * over the media map (internal/shim/rewrite.go, internal/workerd/subst.go): the path that a garbled
 * value turns into keeps the front of a placeholder in its extension, and so does the spooled file.
 */
module SpoolOrder {
  import opened Prelude
  import opened Text
  import opened Decimal
  import opened Paths
  import opened Placeholders
  import opened Substitute
  import opened Filters
  import opened RewriteSpec
  import opened RewriteShape
  import opened FilterSwallow
  import opened Prepare

  // ---- what the worker makes of the pieces ----

  /** Text with one placeholder in it, passed over by the replacement of another. */
  lemma Passes(a: string, ph: string, c: string, t: string, v: string)
    requires NoOpen(a) && NoOpen(c) && IsPlaceholder(ph) && IsPlaceholder(t) && ph != t
    ensures ReplaceAll(a + (ph + c), t, v) == a + (ph + c)
  {
    ReplaceSkips(a, ph + c, t, v);
    ReplacePassesOver(ph, c, t, v);
    ReplaceSkips(c, "", t, v);
    assert c + "" == c;
  }

  lemma Replaces(a: string, t: string, c: string, v: string)
    requires NoOpen(a) && NoOpen(c) && IsPlaceholder(t)
    ensures ReplaceAll(a + (t + c), t, v) == a + (v + c)
  {
    ReplaceSkips(a, t + c, t, v);
    assert (t + c)[|t|..] == c;
    ReplaceSkips(c, "", t, v);
    assert c + "" == c;
  }

  /** One replacement after the other. */
  lemma TwoReplaced(s: string, t: string, u: string, media: map<string, string>)
    requires t != "" && u != "" && t != u && media.Keys == {t, u}
    ensures Replaced(s, ReplaceAll(ReplaceAll(s, t, media[t]), u, media[u]), media)
  {
    var order := [t, u];
    assert order[1..] == [u] && [u][1..] == [];
    assert InOrder(s, order, media) == InOrder(ReplaceAll(s, t, media[t]), [u], media);
    assert IsOrder(order, media);
  }

  /** The placeholder of index 1 and then the rest of that of index 0. */
  function Pieces(a: string): string {
    a + (MediaPlaceholder(1) + MediaPlaceholder(0)[|MEDIA_OPEN|..])
  }

  lemma PiecesFacts()
    ensures IsPlaceholder(MediaPlaceholder(0)) && IsPlaceholder(MediaPlaceholder(1)) && MediaPlaceholder(0) != MediaPlaceholder(1)
    ensures var c := MediaPlaceholder(0)[|MEDIA_OPEN|..]; NoOpen(c) && MEDIA_OPEN + c == MediaPlaceholder(0)
  {
    MediaIsPlaceholder(0);
    MediaIsPlaceholder(1);
    if MediaPlaceholder(0) == MediaPlaceholder(1) {
      MediaInjective(0, 1);
    }
    MediaCharacters(0);
    CutMedia(0, "");
  }

  lemma FixedPass(a: string, outDir: string, proxyBase: string, plexDir: string)
    requires NoOpen(a)
    ensures Local(Pieces(a), outDir, proxyBase, plexDir) == Pieces(a)
  {
    PiecesFacts();
    FixedArePlaceholders();
    var one, c := MediaPlaceholder(1), MediaPlaceholder(0)[|MEDIA_OPEN|..];
    assert one[2] == 'M' && OUTDIR[2] == 'O' && PMS[2] == 'P' && PLEXDIR[2] == 'P';
    Passes(a, one, c, OUTDIR, outDir);
    Passes(a, one, c, PMS, proxyBase);
    Passes(a, one, c, PLEXDIR, plexDir);
  }

  /** Index 1 first: its value completes the placeholder of index 0, which is then replaced. */
  lemma OneFirst(a: string, w: string, media: map<string, string>)
    requires NoOpen(a) && NoOpen(w) && media.Keys == {MediaPlaceholder(0), MediaPlaceholder(1)}
    requires media[MediaPlaceholder(1)] == w + MEDIA_OPEN && NoOpen(media[MediaPlaceholder(0)])
    ensures Replaced(Pieces(a), a + w + media[MediaPlaceholder(0)], media)
    ensures !Contains(a + w + media[MediaPlaceholder(0)], MEDIA_PREFIX)
  {
    var zero, one, c := MediaPlaceholder(0), MediaPlaceholder(1), MediaPlaceholder(0)[|MEDIA_OPEN|..];
    PiecesFacts();
    Replaces(a, one, c, w + MEDIA_OPEN);
    assert a + ((w + MEDIA_OPEN) + c) == (a + w) + (zero + "");
    Replaces(a + w, zero, "", media[zero]);
    assert media[zero] + "" == media[zero];
    TwoReplaced(Pieces(a), one, zero, media);
    PlainHasNoPrefix(a + w + media[zero]);
  }

  /** Index 0 first: there is nothing to replace yet, and its placeholder is left over in the end. */
  lemma ZeroFirst(a: string, w: string, media: map<string, string>)
    requires NoOpen(a) && NoOpen(w) && media.Keys == {MediaPlaceholder(0), MediaPlaceholder(1)}
    requires media[MediaPlaceholder(1)] == w + MEDIA_OPEN
    ensures Replaced(Pieces(a), a + w + MediaPlaceholder(0), media)
    ensures Contains(a + w + MediaPlaceholder(0), MEDIA_PREFIX)
  {
    var zero, one, c := MediaPlaceholder(0), MediaPlaceholder(1), MediaPlaceholder(0)[|MEDIA_OPEN|..];
    PiecesFacts();
    Passes(a, one, c, zero, media[zero]);
    Replaces(a, one, c, w + MEDIA_OPEN);
    assert a + ((w + MEDIA_OPEN) + c) == a + w + zero;
    TwoReplaced(Pieces(a), zero, one, media);
    LeftOver(a + w, zero);
  }

  lemma LeftOver(a: string, ph: string)
    requires NoOpen(a) && IsPlaceholder(ph) && MEDIA_PREFIX <= ph
    ensures Contains(a + ph, MEDIA_PREFIX)
  {
    GoodPlain(a, {ph});
    GoodPlain("", {ph});
    GoodFront(ph, "", {ph});
    assert ph + "" == ph;
    GoodConcat(a, ph, {ph});
    assert (a + ph)[|a|] == '{';
    LeftoverIsSeen(a + ph, {ph});
  }

  // ---- the file name ----

  lemma {:induction false} ExtOf(a: string, b: string)
    requires '.' !in b && '/' !in b
    ensures Ext(a + "." + b) == "." + b
    decreases |b|
  {
    var p := a + "." + b;
    if b == "" {
      assert p[|p| - 1] == '.';
    } else {
      ExtOf(a, b[..|b| - 1]);
      assert p[..|p| - 1] == a + "." + b[..|b| - 1];
      assert b == b[..|b| - 1] + [b[|b| - 1]];
    }
  }

  lemma LastStep(p: string, i: nat)
    requires IndexByte(p, '/') == Some(i)
    ensures LastElement(p) == LastElement(p[i + 1..])
  {
    var rest := Split(p[i + 1..], '/');
    assert Split(p, '/') == [p[..i]] + rest;
  }

  /** A path ends with its last element. */
  lemma {:induction false} EndsWithLast(p: string) returns (front: string)
    ensures p == front + LastElement(p)
    decreases |p|
  {
    var i := IndexByte(p, '/');
    if i.None? {
      front := "";
      assert Split(p, '/') == [p];
    } else {
      var f := EndsWithLast(p[i.value + 1..]);
      LastStep(p, i.value);
      front := p[..i.value + 1] + f;
      TwoParts(p, i.value + 1);
      Assoc(p[..i.value + 1], f, LastElement(p));
    }
  }

  lemma {:induction false} JoinMore(es: seq<string>, e: string)
    requires es != []
    ensures Join(es + [e], '/') == Join(es, '/') + "/" + e
    decreases |es|
  {
    if |es| == 1 {
      assert (es + [e])[1..] == [e];
    } else {
      JoinMore(es[1..], e);
      assert (es + [e])[1..] == es[1..] + [e];
      assert Join(es + [e], '/') == es[0] + "/" + (Join(es[1..], '/') + "/" + e);
      assert Join(es, '/') == es[0] + "/" + Join(es[1..], '/');
    }
  }

  /** A plain name below a clean directory. */
  lemma JoinClean(dir: string, name: string)
    requires IsAbs(dir) && Clean(dir) == dir && dir != "/" && Plain(name)
    ensures JoinPath(dir, name) == dir + "/" + name
  {
    var es := CleanRooted(dir);
    assert es != [];
    JoinMore(es, name);
    assert "/" + Join(es + [name], '/') == dir + "/" + name;
    PlainIsClean(es + [name]);
  }

  /** `fontsdir=x.ysubtitles=/a` */
  const ODD: string := FONTSDIR + ("x.y" + SUBTITLES) + "/a"

  lemma OddPieces()
    ensures PlainText("x.y" + SUBTITLES) && PlainText("/a") && NoOpen("/a") && NoOpen(FONTSDIR)
  {
  }

  lemma OddOutput(dirs: Dirs)
    requires NoOpen(dirs.session)
    ensures
      var out := FilterRefs(ODD, dirs, []);
      && out.table == [SpoolOf("/a", dirs), SpoolOf("x.y" + SUBTITLES + MEDIA_OPEN, dirs)]
      && out.text == Pieces(FONTSDIR)
  {
    OddPieces();
    OddSegs();
    SpoolNoOpen("/a", dirs);
    TwoScansGarble(ODD, "x.y" + SUBTITLES, "/a", dirs);
  }

  lemma OddSegs()
    ensures SubtitleSegs(ODD, SUBTITLES) == Lit(FONTSDIR + ("x.y" + SUBTITLES), Ref("/a", Lit("", End)))
    ensures Contains(ODD, SUBTITLES)
  {
    OddIndex();
    OddPieces();
    FirstOfTwo(FONTSDIR, "x.y", SUBTITLES, "/a");
  }

  lemma OddIndex()
    ensures Index(ODD, SUBTITLES) == Some(|FONTSDIR| + 3)
  {
    var a := FONTSDIR + "x.y";
    assert ODD == a + (SUBTITLES + "/a");
    assert SUBTITLES <= SUBTITLES + "/a";
    IndexPast(a, SUBTITLES + "/a", SUBTITLES);
  }

  /** Making a file's path absolute keeps its extension. */
  lemma ExtKept(stem: string, ext: string, dirs: Dirs)
    requires '\\' !in stem && '\\' !in ext && '/' !in stem && '/' !in ext && '.' !in ext && stem != "" && |ext| > 1
    ensures Ext(SpoolOf(stem + "." + ext, dirs).path) == "." + ext
  {
    var v := stem + "." + ext;
    UnescapePlain(v);
    assert '/' !in v;
    assert Split(v, '/') == [v];
    AbsoluteKeepsLast(dirs.session, v);
    var p := Absolute(dirs.session, v);
    var front := EndsWithLast(p);
    assert front + (stem + "." + ext) == (front + stem) + "." + ext;
    ExtOf(front + stem, ext);
  }

  /** The file that it is spooled to ends with the extension. */
  lemma FileEnds(spoolDir: string, k: nat, path: string, e: string) returns (w: string)
    requires IsAbs(spoolDir) && Clean(spoolDir) == spoolDir && spoolDir != "/" && NoOpen(spoolDir)
    requires Ext(path) == "." + (e + MEDIA_OPEN) && NoOpen(e) && '/' !in e
    ensures SpoolFile(spoolDir, k, path) == w + MEDIA_OPEN && NoOpen(w)
  {
    var name := "m" + Dec(k) + Ext(path);
    NamePlain(k, e);
    JoinClean(spoolDir, name);
    w := spoolDir + "/" + ("m" + Dec(k) + ("." + e));
    assert spoolDir + "/" + name == w + MEDIA_OPEN;
    assert AllDigits(Dec(k));
  }

  lemma NamePlain(k: nat, e: string)
    requires '/' !in e
    ensures Plain("m" + Dec(k) + ("." + (e + MEDIA_OPEN)))
  {
    var name := "m" + Dec(k) + ("." + (e + MEDIA_OPEN));
    assert |name| > 2;
    assert AllDigits(Dec(k));
    assert '/' !in MEDIA_OPEN;
  }

  /** Of the second path of the string, whose extension has the front of a placeholder. */
  lemma OddFile(dirs: Dirs, spoolDir: string) returns (w: string)
    requires IsAbs(spoolDir) && Clean(spoolDir) == spoolDir && spoolDir != "/" && NoOpen(spoolDir)
    ensures SpoolFile(spoolDir, 1, SpoolOf("x.y" + SUBTITLES + MEDIA_OPEN, dirs).path) == w + MEDIA_OPEN && NoOpen(w)
  {
    OddSpelling();
    ExtKept("x", "y" + SUBTITLES + MEDIA_OPEN, dirs);
    w := FileEnds(spoolDir, 1, SpoolOf("x.y" + SUBTITLES + MEDIA_OPEN, dirs).path, "y" + SUBTITLES);
  }

  lemma OddSpelling()
    ensures "x.y" + SUBTITLES + MEDIA_OPEN == "x" + "." + ("y" + SUBTITLES + MEDIA_OPEN)
    ensures "y" + SUBTITLES + MEDIA_OPEN == ("y" + SUBTITLES) + MEDIA_OPEN
    ensures NoOpen("y" + SUBTITLES) && '/' !in "y" + SUBTITLES && |"y" + SUBTITLES + MEDIA_OPEN| > 1
    ensures var e := "y" + SUBTITLES + MEDIA_OPEN; '\\' !in e && '/' !in e && '.' !in e
    ensures '\\' !in "x" && '/' !in "x"
  {
  }

  lemma PlainFile(dirs: Dirs, spoolDir: string, k: nat)
    requires NoOpen(dirs.session) && NoOpen(spoolDir)
    ensures NoOpen(SpoolFile(spoolDir, k, SpoolOf("/a", dirs).path))
  {
    OddPieces();
    SpoolNoOpen("/a", dirs);
    ExtNoOpen(SpoolOf("/a", dirs).path);
    SpoolFileNoOpen(spoolDir, k, SpoolOf("/a", dirs).path);
  }

  lemma OddNoOpen()
    ensures NoOpen(ODD)
  {
  }

  /**
   * The worker's answer to `fontsdir=x.ysubtitles=/a` depends on the order of its map: with both files
   * spooled, one order over the two entries gives a token without placeholders, and the other one
   * leaves a media placeholder, which is refused.
   */
  lemma OrderDecides(dirs: Dirs, spoolDir: string, outDir: string, proxyBase: string, plexDir: string,
                     media: map<string, string>) returns (good: string, bad: string)
    requires NoOpen(dirs.session)
    requires IsAbs(spoolDir) && Clean(spoolDir) == spoolDir && spoolDir != "/" && NoOpen(spoolDir)
    requires media.Keys == {MediaPlaceholder(0), MediaPlaceholder(1)}
    requires
      var table := FilterRefs(ODD, dirs, []).table;
      && |table| == 2
      && media[MediaPlaceholder(0)] == SpoolFile(spoolDir, 0, table[0].path)
      && media[MediaPlaceholder(1)] == SpoolFile(spoolDir, 1, table[1].path)
    ensures NoOpen(ODD)
    ensures Substituted(FilterRefs(ODD, dirs, []).text, good, outDir, proxyBase, plexDir, media) && !Contains(good, MEDIA_PREFIX)
    ensures Substituted(FilterRefs(ODD, dirs, []).text, bad, outDir, proxyBase, plexDir, media) && Contains(bad, MEDIA_PREFIX)
  {
    OddNoOpen();
    OddOutput(dirs);
    OddPieces();
    var w := OddFile(dirs, spoolDir);
    PlainFile(dirs, spoolDir, 0);
    FixedPass(FONTSDIR, outDir, proxyBase, plexDir);
    good, bad := FONTSDIR + w + media[MediaPlaceholder(0)], FONTSDIR + w + MediaPlaceholder(0);
    OneFirst(FONTSDIR, w, media);
    ZeroFirst(FONTSDIR, w, media);
  }
}
