/**
 * One segmentation for both scans of a filter string (internal/shim/rewrite.go): what the shim makes
 * of the string is its literal text with each file reference replaced, exactly when no standalone
 * value runs into a reference that the first scan has already replaced.
 */
module FilterMerge {
  import opened Prelude
  import opened Text
  import opened Placeholders
  import opened Filters
  import opened RewriteSpec
  import opened RewriteShape
  import opened FilterMeaning

  // ---- the merged segmentation ----

  function Append(a: Segs, b: Segs): Segs {
    match a
    case End => b
    case Lit(text, more) => Lit(text, Append(more, b))
    case Ref(text, more) => Ref(text, Append(more, b))
  }

  /** The first scan's references, and the standalone values of the literal text between them. */
  function Merge(acc: string, segs: Segs, key: string): Segs
    requires key != ""
    decreases segs
  {
    match segs
    case End => KeySegs(acc, key)
    case Lit(text, more) => Merge(acc + text, more, key)
    case Ref(text, more) => Append(KeySegs(acc, key), Ref(text, Merge("", more, key)))
  }

  /** The segmentation of a filter string that both scans together are meant to have. */
  function Merged(s: string): Segs {
    if NamesFiles(s) then Merge("", SubtitleSegs(s, SUBTITLES), FONTSDIR) else Lit(s, End)
  }

  /** The text ends inside the value of a standalone key. */
  predicate Open(acc: string, key: string)
    requires key != ""
    decreases |acc|
  {
    var idx := Index(acc, key);
    if idx.None? then false
    else
      var tail := acc[idx.value + |key|..];
      if CutLength(tail) == |tail| then tail != "" else Open(tail[CutLength(tail)..], key)
  }

  /** Some reference is met by the open value of a standalone key in the literal text before it. */
  predicate RunsInto(acc: string, segs: Segs, key: string)
    requires key != ""
    decreases segs
  {
    match segs
    case End => false
    case Lit(text, more) => RunsInto(acc + text, more, key)
    case Ref(_, more) => Open(acc, key) || RunsInto("", more, key)
  }

  lemma {:induction false} AppendSource(a: Segs, b: Segs)
    ensures Source(Append(a, b)) == Source(a) + Source(b)
  {
    match a {
      case End =>
      case Lit(text, more) =>
        AppendSource(more, b);
        Assoc(text, Source(more), Source(b));
      case Ref(text, more) =>
        AppendSource(more, b);
        Assoc(text, Source(more), Source(b));
    }
  }

  /** The merged pieces make up the text. */
  lemma {:induction false} MergeSource(acc: string, segs: Segs, key: string)
    requires key != ""
    ensures Source(Merge(acc, segs, key)) == acc + Source(segs)
    decreases segs
  {
    match segs {
      case End =>
        KeySource(acc, key);
        assert acc + "" == acc;
      case Lit(text, more) =>
        MergeSource(acc + text, more, key);
        Assoc(acc, text, Source(more));
      case Ref(text, more) =>
        KeySource(acc, key);
        MergeSource("", more, key);
        AppendSource(KeySegs(acc, key), Ref(text, Merge("", more, key)));
        assert "" + Source(more) == Source(more);
    }
  }

  lemma MergedSource(s: string)
    ensures Source(Merged(s)) == s
  {
    if NamesFiles(s) {
      KeyShapes();
      SubtitleSource(s, SUBTITLES);
      MergeSource("", SubtitleSegs(s, SUBTITLES), FONTSDIR);
      assert "" + s == s;
    } else {
      assert s + "" == s;
    }
  }

  lemma {:induction false} AppendPrints(a: Segs, b: Segs, dirs: Dirs, table: seq<Media>)
    ensures RefsIn(Append(a, b), dirs, table) <==> RefsIn(a, dirs, table) && RefsIn(b, dirs, table)
    ensures RefsIn(Append(a, b), dirs, table) ==>
              Printed(Append(a, b), dirs, table) == Printed(a, dirs, table) + Printed(b, dirs, table)
  {
    match a {
      case End =>
      case Lit(text, more) =>
        AppendPrints(more, b, dirs, table);
        if RefsIn(Append(more, b), dirs, table) {
          Assoc(text, Printed(more, dirs, table), Printed(b, dirs, table));
        }
      case Ref(text, more) =>
        AppendPrints(more, b, dirs, table);
        if RefsIn(Append(a, b), dirs, table) {
          Assoc(Placeholder(table, SpoolOf(text, dirs)), Printed(more, dirs, table), Printed(b, dirs, table));
        }
    }
  }

  // ---- occurrences across a boundary ----

  lemma PrefixReaches(a: string, b: string, key: string)
    requires key <= a + b && |key| > |a|
    ensures b != "" && b[0] in key
  {
    assert key[|a|] == (a + b)[|a|];
  }

  lemma PrefixAcross(a: string, b: string, key: string)
    requires b != "" && b[0] !in key
    ensures key <= a + b <==> key <= a
  {
    if key <= a + b && |key| > |a| {
      PrefixReaches(a, b, key);
      assert false;
    }
  }

  /** No occurrence of the key straddles a character that the key does not hold. */
  lemma {:induction false} IndexAcross(a: string, b: string, key: string)
    requires key != "" && b != "" && b[0] !in key
    ensures Index(a + b, key) == match Index(a, key)
                                 case Some(i) => Some(i)
                                 case None => match Index(b, key) case None => None case Some(i) => Some(|a| + i)
    decreases |a|
  {
    PrefixAcross(a, b, key);
    if a == "" {
      assert a + b == b;
    } else if !(key <= a) {
      IndexAcross(a[1..], b, key);
      assert (a + b)[1..] == a[1..] + b;
    }
  }

  /** The value of a standalone key in front of a placeholder. */
  lemma {:induction false} CutBefore(tail: string, x: string)
    requires CutLength(tail) < |tail|
    ensures CutLength(tail + x) == CutLength(tail)
    decreases |tail|
  {
    if tail[0] == '\\' {
      CutBefore(tail[2..], x);
      assert (tail + x)[2..] == tail[2..] + x;
    } else if !IsMeta(tail[0]) {
      CutBefore(tail[1..], x);
      assert (tail + x)[1..] == tail[1..] + x;
    }
  }

  /** An open value goes on up to the ':' of the placeholder behind it. */
  lemma {:induction false} CutOpen(tail: string, i: nat, b: string)
    requires CutLength(tail) == |tail|
    ensures CutLength(tail + (MediaPlaceholder(i) + b)) == |tail| + |MEDIA_OPEN|
    decreases |tail|
  {
    if tail == "" {
      CutMedia(i, b);
      assert "" + (MediaPlaceholder(i) + b) == MediaPlaceholder(i) + b;
    } else if tail == "\\" {
      CutSlash(i, b);
    } else if tail[0] == '\\' {
      CutPair(tail, MediaPlaceholder(i) + b);
      CutOpen(tail[2..], i, b);
    } else {
      CutOne(tail, MediaPlaceholder(i) + b);
      CutOpen(tail[1..], i, b);
    }
  }

  /** Past an escaped pair, or another character, of an open value. */
  lemma CutPair(tail: string, x: string)
    requires |tail| >= 2 && tail[0] == '\\'
    ensures CutLength(tail) == 2 + CutLength(tail[2..]) && CutLength(tail + x) == 2 + CutLength(tail[2..] + x)
  {
    assert (tail + x)[2..] == tail[2..] + x;
  }

  lemma CutOne(tail: string, x: string)
    requires tail != "" && tail[0] != '\\' && !IsMeta(tail[0])
    ensures CutLength(tail) == 1 + CutLength(tail[1..]) && CutLength(tail + x) == 1 + CutLength(tail[1..] + x)
  {
    assert (tail + x)[1..] == tail[1..] + x;
  }

  lemma CutSlash(i: nat, b: string)
    ensures CutLength("\\" + (MediaPlaceholder(i) + b)) == 1 + |MEDIA_OPEN|
  {
    var x := MediaPlaceholder(i) + b;
    CutInside(i, b);
    assert ("\\" + x)[2..] == x[1..];
  }

  /** The same when a backslash has taken the placeholder's first character. */
  lemma CutInside(i: nat, b: string)
    ensures CutLength((MediaPlaceholder(i) + b)[1..]) == |MEDIA_OPEN| - 1
  {
    var c := MediaPlaceholder(i)[|MEDIA_OPEN|..];
    assert c[0] == ':';
    assert (MediaPlaceholder(i) + b)[1..] == MEDIA_OPEN[1..] + (c + b);
    CutAfter(MEDIA_OPEN[1..], c + b);
    assert CutLength(c + b) == 0;
  }

  /** Text without media placeholders of its own. */
  lemma NotMedia(tail: string, n: nat)
    requires Good(tail, {PMS}) && n <= |tail|
    ensures !(MEDIA_OPEN <= tail[..n])
  {
    assert MEDIA_OPEN[0] == '{' && MEDIA_OPEN[2] == 'M';
    if n > 2 && tail[0] == '{' {
      PmsFront(tail);
      assert tail[..n][2] == 'P';
    }
  }

  lemma PmsFront(tail: string)
    requires Good(tail, {PMS}) && |tail| > 2 && tail[0] == '{'
    ensures tail[2] == 'P'
  {
    var t := PlaceholderAt(tail);
    assert t == PMS;
    assert tail[2] == t[2];
  }

  /** The parts of well-made text around one standalone value. */
  lemma ValueParts(acc: string, key: string, j: nat)
    requires key != "" && key[|key| - 1] == '=' && Index(acc, key).Some? && j == Index(acc, key).value + |key|
    requires Good(acc, {PMS})
    ensures Good(acc[..j], {PMS}) && Good(acc[j..], {PMS})
    ensures Good(acc[j..][CutLength(acc[j..])..], {PMS})
  {
    KeyEnds(acc, key, j);
    PmsCharacters();
    GoodCut(acc[..j], acc[j..], {PMS});
    CutGood(acc[j..]);
  }

  // ---- one placeholder in the second scan's way ----

  /** A reference whose path has a '{' in it. */
  predicate BadRef(segs: Segs, dirs: Dirs) {
    match segs
    case End => false
    case Lit(_, more) => BadRef(more, dirs)
    case Ref(text, more) => '{' in SpoolOf(text, dirs).path || BadRef(more, dirs)
  }

  /** Two segmentations print `front` and then the same, and hold the same references. */
  ghost predicate Follows(a: Segs, front: Segs, mark: string, b: Segs, dirs: Dirs) {
    && (BadRef(a, dirs) <==> BadRef(front, dirs) || BadRef(b, dirs))
    && forall table: seq<Media> :: RefsIn(a, dirs, table) ==>
         RefsIn(front, dirs, table) && RefsIn(b, dirs, table)
         && Printed(a, dirs, table) == Printed(front, dirs, table) + (mark + Printed(b, dirs, table))
  }

  lemma FollowsLit(text: string, a: Segs, front: Segs, mark: string, b: Segs, dirs: Dirs)
    requires Follows(a, front, mark, b, dirs)
    ensures Follows(Lit(text, a), Lit(text, front), mark, b, dirs)
  {
    forall table: seq<Media> | RefsIn(Lit(text, a), dirs, table)
      ensures RefsIn(front, dirs, table) && RefsIn(b, dirs, table)
      ensures Printed(Lit(text, a), dirs, table)
           == Printed(Lit(text, front), dirs, table) + (mark + Printed(b, dirs, table))
    {
      assert RefsIn(a, dirs, table);
      Assoc(text, Printed(front, dirs, table), mark + Printed(b, dirs, table));
    }
  }

  lemma FollowsRef(text: string, a: Segs, front: Segs, mark: string, b: Segs, dirs: Dirs)
    requires Follows(a, front, mark, b, dirs)
    ensures Follows(Ref(text, a), Ref(text, front), mark, b, dirs)
  {
    forall table: seq<Media> | RefsIn(Ref(text, a), dirs, table)
      ensures RefsIn(Ref(text, front), dirs, table) && RefsIn(b, dirs, table)
      ensures Printed(Ref(text, a), dirs, table)
           == Printed(Ref(text, front), dirs, table) + (mark + Printed(b, dirs, table))
    {
      assert RefsIn(a, dirs, table);
      Assoc(Placeholder(table, SpoolOf(text, dirs)), Printed(front, dirs, table), mark + Printed(b, dirs, table));
    }
  }

  lemma FollowsValue(val: string, a: Segs, front: Segs, mark: string, b: Segs, dirs: Dirs)
    requires Follows(a, front, mark, b, dirs)
    ensures Follows(ValueSegs(val, a), ValueSegs(val, front), mark, b, dirs)
  {
    FollowsLit(val, a, front, mark, b, dirs);
    FollowsRef(val, a, front, mark, b, dirs);
  }

  /** The segmentation of the second scan always starts with a literal piece. */
  lemma WholeAt(front: string, tail: string, key: string)
    requires key != "" && |front| >= |key| && Index(front + tail, key) == Some(|front| - |key|)
    ensures WholeSegs(front + tail, key) == Lit(front, WholeValue(tail, key))
  {
    var s := front + tail;
    assert s[..|front|] == front && s[|front|..] == tail;
  }

  lemma WholeSkipAt(a: string, front: string, tail: string, key: string)
    requires key != "" && |front| >= |key| && Index(front + tail, key) == Some(|front| - |key|)
    requires Index(a + (front + tail), key) == Some(|a| + |front| - |key|)
    ensures WholeSegs(front + tail, key).Lit?
    ensures WholeSegs(a + (front + tail), key) == Lit(a + WholeSegs(front + tail, key).text, WholeSegs(front + tail, key).more)
  {
    WholeAt(front, tail, key);
    WholeAtAfter(a, front, tail, key);
  }

  lemma WholeAtAfter(a: string, front: string, tail: string, key: string)
    requires key != "" && |front| >= |key| && Index(a + (front + tail), key) == Some(|a| + |front| - |key|)
    ensures WholeSegs(a + (front + tail), key) == Lit(a + front, WholeValue(tail, key))
  {
    Assoc(a, front, tail);
    WholeAt(a + front, tail, key);
  }

  /** Text in front of the first occurrence is part of the first literal piece. */
  lemma WholeSkip(a: string, b: string, key: string)
    requires key != ""
    requires Index(a + b, key) == match Index(b, key) case None => None case Some(i) => Some(|a| + i)
    ensures WholeSegs(b, key).Lit?
    ensures WholeSegs(a + b, key) == Lit(a + WholeSegs(b, key).text, WholeSegs(b, key).more)
  {
    var idx := Index(b, key);
    if idx.Some? {
      var j := idx.value + |key|;
      TwoParts(b, j);
      WholeSkipAt(a, b[..j], b[j..], key);
    } else {
      assert WholeSegs(b, key) == Lit(b, End) && WholeSegs(a + b, key) == Lit(a + b, End);
    }
  }

  lemma EndPrints(acc: string, dirs: Dirs)
    ensures !BadRef(Lit(acc, End), dirs)
    ensures forall table: seq<Media> :: RefsIn(Lit(acc, End), dirs, table) && Printed(Lit(acc, End), dirs, table) == acc
  {
    assert !BadRef(End, dirs);
    forall table: seq<Media>
      ensures RefsIn(Lit(acc, End), dirs, table) && Printed(Lit(acc, End), dirs, table) == acc
    {
      assert RefsIn(End, dirs, table) && Printed(End, dirs, table) == "";
      assert acc + "" == acc;
    }
  }

  lemma FollowsGlue(acc: string, mark: string, b: Segs, dirs: Dirs)
    requires b.Lit?
    ensures Follows(Lit(acc + mark + b.text, b.more), Lit(acc, End), mark, b, dirs)
  {
    EndPrints(acc, dirs);
    forall table: seq<Media> | RefsIn(b.more, dirs, table)
      ensures Printed(Lit(acc + mark + b.text, b.more), dirs, table)
           == Printed(Lit(acc, End), dirs, table) + (mark + Printed(b, dirs, table))
    {
      var rest := Printed(b.more, dirs, table);
      Regroup(acc, mark, b.text, rest);
    }
  }

  lemma PlaceholderLacks(i: nat, key: string)
    requires key != "" && key[0] == 'f' && '{' !in key
    ensures key[0] !in MediaPlaceholder(i) && MediaPlaceholder(i) != "" && MediaPlaceholder(i)[0] !in key
  {
    MediaCharacters(i);
  }

  /** Where no occurrence of the key stands before the placeholder. */
  lemma NoneBefore(acc: string, i: nat, rest: string, key: string)
    requires key != "" && key[0] == 'f' && '{' !in key && Index(acc, key).None?
    ensures WholeSegs(rest, key).Lit?
    ensures
      var b, ph := WholeSegs(rest, key), MediaPlaceholder(i);
      WholeSegs(acc + (ph + rest), key) == Lit(acc + ph + b.text, b.more)
  {
    var ph := MediaPlaceholder(i);
    PlaceholderLacks(i, key);
    IndexSkip(ph, rest, key);
    IndexAcross(acc, ph + rest, key);
    Assoc(acc, ph, rest);
    WholeSkip(acc + ph, rest, key);
  }

  lemma AcrossNone(acc: string, i: nat, rest: string, key: string, dirs: Dirs)
    requires key != "" && key[0] == 'f' && '{' !in key && Index(acc, key).None?
    ensures Follows(WholeSegs(acc + (MediaPlaceholder(i) + rest), key), KeySegs(acc, key), MediaPlaceholder(i), WholeSegs(rest, key), dirs)
  {
    NoneBefore(acc, i, rest, key);
    FollowsGlue(acc, MediaPlaceholder(i), WholeSegs(rest, key), dirs);
  }

  /** Where the literal text ends with the key: the placeholder is the key's own value. */
  lemma AcrossKey(i: nat, rest: string, key: string, dirs: Dirs)
    requires key != ""
    ensures Follows(WholeValue(MediaPlaceholder(i) + rest, key), ValueSegs("", KeySegs("", key)), MediaPlaceholder(i),
                    WholeSegs(rest, key), dirs)
  {
    var ph := MediaPlaceholder(i);
    var tail := ph + rest;
    CutMedia(i, rest);
    MediaIsPlaceholder(i);
    PlaceholderUnique(tail, ph);
    assert tail[|ph|..] == rest;
    assert WholeValue(tail, key) == Lit(ph, WholeSegs(rest, key));
    FollowsEmpty(ph, WholeSegs(rest, key), dirs);
  }

  lemma FollowsEmpty(mark: string, b: Segs, dirs: Dirs)
    ensures Follows(Lit(mark, b), Lit("", Lit("", End)), mark, b, dirs)
  {
    EndPrints("", dirs);
    var front := Lit("", Lit("", End));
    assert !BadRef(front, dirs);
    forall table: seq<Media> | RefsIn(b, dirs, table)
      ensures RefsIn(front, dirs, table)
      ensures Printed(Lit(mark, b), dirs, table) == Printed(front, dirs, table) + (mark + Printed(b, dirs, table))
    {
      assert Printed(front, dirs, table) == "" + Printed(Lit("", End), dirs, table);
    }
  }

  /**
   * A placeholder that no open value runs into is passed over whole, and the text on its two sides is
   * scanned as if the other were not there.
   */
  lemma {:induction false} Across(acc: string, i: nat, rest: string, key: string, dirs: Dirs)
    requires key != "" && key[|key| - 1] == '=' && key[0] == 'f' && '{' !in key
    requires Good(acc, {PMS}) && !Open(acc, key)
    ensures Follows(WholeSegs(acc + (MediaPlaceholder(i) + rest), key), KeySegs(acc, key), MediaPlaceholder(i), WholeSegs(rest, key), dirs)
    decreases |acc|, 0
  {
    if Index(acc, key).None? {
      AcrossNone(acc, i, rest, key, dirs);
    } else {
      var j := Index(acc, key).value + |key|;
      ValueParts(acc, key, j);
      AcrossValue(acc[j..], i, rest, key, dirs);
      AcrossAt(acc, j, i, rest, key);
      FollowsLit(acc[..j], WholeValue(acc[j..] + (MediaPlaceholder(i) + rest), key),
                 ValueSegs(acc[j..][..CutLength(acc[j..])], KeySegs(acc[j..][CutLength(acc[j..])..], key)),
                 MediaPlaceholder(i), WholeSegs(rest, key), dirs);
    }
  }

  lemma AcrossAt(acc: string, j: nat, i: nat, rest: string, key: string)
    requires key != "" && '{' !in key && Index(acc, key).Some? && j == Index(acc, key).value + |key|
    ensures WholeSegs(acc + (MediaPlaceholder(i) + rest), key) == Lit(acc[..j], WholeValue(acc[j..] + (MediaPlaceholder(i) + rest), key))
    ensures KeySegs(acc, key) == Lit(acc[..j], ValueSegs(acc[j..][..CutLength(acc[j..])], KeySegs(acc[j..][CutLength(acc[j..])..], key)))
  {
    var x := MediaPlaceholder(i) + rest;
    assert x[0] == '{';
    IndexAcross(acc, x, key);
    TwoParts(acc, j);
    Assoc(acc[..j], acc[j..], x);
    WholeAt(acc[..j], acc[j..] + x, key);
    KeyUnfold(acc, key, j);
  }

  lemma {:induction false} AcrossValue(tail: string, i: nat, rest: string, key: string, dirs: Dirs)
    requires key != "" && key[|key| - 1] == '=' && key[0] == 'f' && '{' !in key
    requires Good(tail, {PMS}) && Good(tail[CutLength(tail)..], {PMS})
    requires if CutLength(tail) == |tail| then tail == "" else !Open(tail[CutLength(tail)..], key)
    ensures Follows(WholeValue(tail + (MediaPlaceholder(i) + rest), key),
                    ValueSegs(tail[..CutLength(tail)], KeySegs(tail[CutLength(tail)..], key)),
                    MediaPlaceholder(i), WholeSegs(rest, key), dirs)
    decreases |tail|, 1
  {
    var n := CutLength(tail);
    var x := MediaPlaceholder(i) + rest;
    if tail == "" {
      assert tail + x == x;
      AcrossKey(i, rest, key, dirs);
    } else {
      CutBefore(tail, x);
      NotMedia(tail, n);
      assert (tail + x)[..n] == tail[..n] && (tail + x)[n..] == tail[n..] + x;
      Across(tail[n..], i, rest, key, dirs);
      FollowsValue(tail[..n], WholeSegs(tail[n..] + x, key), KeySegs(tail[n..], key), MediaPlaceholder(i), WholeSegs(rest, key), dirs);
    }
  }

  // ---- the merged segmentation is what both scans write ----

  lemma {:induction false} MergePrints(acc: string, segs: Segs, key: string, dirs: Dirs, table: seq<Media>)
    requires key != "" && key[|key| - 1] == '=' && key[0] == 'f' && '{' !in key
    requires Good(acc, {PMS}) && LitsGood(segs, {PMS}) && !RunsInto(acc, segs, key)
    requires RefsIn(segs, dirs, table) && RefsIn(WholeSegs(acc + Printed(segs, dirs, table), key), dirs, table)
    ensures RefsIn(Merge(acc, segs, key), dirs, table)
    ensures Printed(Merge(acc, segs, key), dirs, table)
         == Printed(WholeSegs(acc + Printed(segs, dirs, table), key), dirs, table)
    decreases segs
  {
    match segs {
      case End =>
        assert acc + "" == acc;
        WholePlain(acc, key);
      case Lit(text, more) =>
        PmsCharacters();
        GoodConcat(acc, text, {PMS});
        Assoc(acc, text, Printed(more, dirs, table));
        MergePrints(acc + text, more, key, dirs, table);
      case Ref(text, more) =>
        var m := SpoolOf(text, dirs);
        var rest := Printed(more, dirs, table);
        var whole := WholeSegs(acc + (Placeholder(table, m) + rest), key);
        Across(acc, Find(table, m), rest, key, dirs);
        assert RefsIn(KeySegs(acc, key), dirs, table) && RefsIn(WholeSegs(rest, key), dirs, table);
        assert "" + rest == rest;
        MergePrints("", more, key, dirs, table);
        AppendPrints(KeySegs(acc, key), Ref(text, Merge("", more, key)), dirs, table);
    }
  }

  /** Text without media placeholders is scanned the same either way. */
  lemma {:induction false} WholePlain(acc: string, key: string)
    requires key != "" && key[|key| - 1] == '=' && Good(acc, {PMS})
    ensures WholeSegs(acc, key) == KeySegs(acc, key)
    decreases |acc|
  {
    if Index(acc, key).Some? {
      var j := Index(acc, key).value + |key|;
      ValueParts(acc, key, j);
      NotMedia(acc[j..], CutLength(acc[j..]));
      KeyUnfold(acc, key, j);
      WholePlain(acc[j..][CutLength(acc[j..])..], key);
    }
  }

  /** The text that the shim sends is the merged segmentation of the string, with placeholders for files. */
  ghost predicate IsMerged(segs: Segs, s: string, dirs: Dirs, out: Out) {
    Source(segs) == s && RefsIn(segs, dirs, out.table) && out.text == Printed(segs, dirs, out.table)
  }

  predicate ValueMeetsFile(s: string) {
    NamesFiles(s) && RunsInto("", SubtitleSegs(s, SUBTITLES), FONTSDIR)
  }

  lemma ScanKeys()
    ensures FONTSDIR != "" && FONTSDIR[|FONTSDIR| - 1] == '=' && FONTSDIR[0] == 'f' && '{' !in FONTSDIR
    ensures SUBTITLES != "" && SUBTITLES[|SUBTITLES| - 1] == '='
  {
  }

  /** What the two scans leave of each other. */
  lemma TwoScans(s: string, dirs: Dirs, table: seq<Media>)
    requires NoDup(table) && Good(s, {PMS}) && NamesFiles(s)
    ensures
      var first, out := SubtitleSegs(s, SUBTITLES), FilterRefs(s, dirs, table);
      && LitsGood(first, {PMS}) && RefsIn(first, dirs, out.table) && NoDup(out.table)
      && RefsIn(WholeSegs(Printed(first, dirs, out.table), FONTSDIR), dirs, out.table)
      && LitsGood(WholeSegs(Printed(first, dirs, out.table), FONTSDIR), Sent(out.table))
      && out.text == Printed(WholeSegs(Printed(first, dirs, out.table), FONTSDIR), dirs, out.table)
  {
    var out := FilterRefs(s, dirs, table);
    ScanKeys();
    SecondScan(s, dirs, table);
    SubtitleLits(s, SUBTITLES);
    FilterGrows(s, dirs, table);
    RenderPrints(SubtitleSegs(s, SUBTITLES), dirs, table, out.table);
  }

  /** Where no standalone value meets a file, both scans together write the merged segmentation. */
  lemma MergedIsWritten(s: string, dirs: Dirs, table: seq<Media>)
    requires NoDup(table) && Good(s, {PMS}) && !ValueMeetsFile(s)
    ensures IsMerged(Merged(s), s, dirs, FilterRefs(s, dirs, table))
  {
    MergedSource(s);
    if NamesFiles(s) {
      var first, out := SubtitleSegs(s, SUBTITLES), FilterRefs(s, dirs, table);
      ScanKeys();
      TwoScans(s, dirs, table);
      GoodPlain("", {PMS});
      assert "" + Printed(first, dirs, out.table) == Printed(first, dirs, out.table);
      MergePrints("", first, FONTSDIR, dirs, out.table);
    } else {
      EndPrints(s, dirs);
    }
  }
}
