/**
 * What a rewritten filter string means on the worker (internal/shim/rewrite.go, then
 * internal/workerd/subst.go): both scans of the shim, seen after substitution.
 */
module FilterMeaning {
  import opened Prelude
  import opened Text
  import opened Placeholders
  import opened Filters
  import opened RewriteSpec
  import opened RewriteShape

  /** A filter string with the worker's values in place of its references. */
  function Spelled(segs: Segs, dirs: Dirs, table: seq<Media>, values: map<string, string>): string
    requires RefsIn(segs, dirs, table)
    requires forall m :: m in table ==> Placeholder(table, m) in values
  {
    match segs
    case End => ""
    case Lit(text, more) => Resolve(text, values) + Spelled(more, dirs, table, values)
    case Ref(text, more) => values[Placeholder(table, SpoolOf(text, dirs))] + Spelled(more, dirs, table, values)
  }

  lemma ResolveAfterPlain(x: string, c: string, b: string, values: map<string, string>)
    requires NoOpen(x) && Resolve(c + b, values) == Resolve(c, values) + Resolve(b, values)
    ensures Resolve(x + c + b, values) == Resolve(x + c, values) + Resolve(b, values)
  {
    ResolvePlain(x, c, values);
    ResolvePlain(x, c + b, values);
    Assoc(x, c, b);
    Assoc(x, Resolve(c, values), Resolve(b, values));
  }

  lemma ResolveAfterFront(t: string, c: string, b: string, values: map<string, string>)
    requires IsPlaceholder(t) && t in values && Resolve(c + b, values) == Resolve(c, values) + Resolve(b, values)
    ensures Resolve(t + c + b, values) == Resolve(t + c, values) + Resolve(b, values)
  {
    ResolveFront(t, c, values);
    ResolveFront(t, c + b, values);
    Assoc(t, c, b);
    Assoc(values[t], Resolve(c, values), Resolve(b, values));
  }

  lemma {:induction false} ResolveConcat(a: string, b: string, known: set<string>, values: map<string, string>)
    requires AllPlaceholders(known) && Good(a, known) && known <= values.Keys
    ensures Resolve(a + b, values) == Resolve(a, values) + Resolve(b, values)
    decreases |a|
  {
    if a == "" {
      assert a + b == b;
    } else if a[0] != '{' {
      ResolveConcat(a[1..], b, known, values);
      ResolveAfterPlain([a[0]], a[1..], b, values);
      assert [a[0]] + a[1..] == a;
    } else {
      var t := PlaceholderAt(a);
      ResolveConcat(a[|t|..], b, known, values);
      ResolveAfterFront(t, a[|t|..], b, values);
      assert t + a[|t|..] == a;
    }
  }

  /**
   * On the worker, every literal piece of a segmentation is still in its place, and each file
   * reference has become the local value of its unescaped absolute path.
   */
  lemma {:induction false} SegsResolve(segs: Segs, dirs: Dirs, table: seq<Media>, known: set<string>, values: map<string, string>)
    requires RefsIn(segs, dirs, table) && LitsGood(segs, known) && AllPlaceholders(known) && known <= values.Keys
    requires forall m :: m in table ==> Placeholder(table, m) in values
    ensures Resolve(Printed(segs, dirs, table), values) == Spelled(segs, dirs, table, values)
  {
    match segs {
      case End =>
      case Lit(text, more) =>
        SegsResolve(more, dirs, table, known, values);
        ResolveConcat(text, Printed(more, dirs, table), known, values);
      case Ref(text, more) =>
        SegsResolve(more, dirs, table, known, values);
        PlaceholderSent(table, SpoolOf(text, dirs));
        ResolveFront(Placeholder(table, SpoolOf(text, dirs)), Printed(more, dirs, table), values);
    }
  }

  // ---- the second scan ----

  /** The second scan with the placeholders it meets kept whole, though it cuts them at their ':'. */
  function WholeSegs(s: string, key: string): Segs
    requires key != ""
    decreases |s|, 0
  {
    var idx := Index(s, key);
    if idx.None? then Lit(s, End)
    else Lit(s[..idx.value + |key|], WholeValue(s[idx.value + |key|..], key))
  }

  function WholeValue(tail: string, key: string): Segs
    requires key != ""
    decreases |tail|, 1
  {
    var n := CutLength(tail);
    var ph := PlaceholderAt(tail);
    if MEDIA_OPEN <= tail[..n] && ph != "" then Lit(ph, WholeSegs(tail[|ph|..], key))
    else ValueSegs(tail[..n], WholeSegs(tail[n..], key))
  }

  lemma {:induction false} WholeSource(s: string, key: string)
    requires key != ""
    ensures Source(WholeSegs(s, key)) == s
    decreases |s|, 0
  {
    var idx := Index(s, key);
    if idx.Some? {
      var j := idx.value + |key|;
      ValueSource(s[j..], key);
      TwoParts(s, j);
    }
  }

  lemma {:induction false} ValueSource(tail: string, key: string)
    requires key != ""
    ensures Source(WholeValue(tail, key)) == tail
    decreases |tail|, 1
  {
    var n := CutLength(tail);
    var ph := PlaceholderAt(tail);
    if MEDIA_OPEN <= tail[..n] && ph != "" {
      WholeSource(tail[|ph|..], key);
      TwoParts(tail, |ph|);
    } else {
      WholeSource(tail[n..], key);
      TwoParts(tail, n);
    }
  }

  /** Keeping placeholders whole makes no difference to what is written. */
  lemma {:induction false} WholeRender(s: string, key: string, dirs: Dirs, table: seq<Media>)
    requires key != "" && key[|key| - 1] == '=' && key[0] == 'f'
    requires NoDup(table) && Good(s, Sent(table))
    ensures Render(WholeSegs(s, key), dirs, table) == Render(KeySegs(s, key), dirs, table)
    ensures LitsGood(WholeSegs(s, key), Sent(table))
    decreases |s|, 0
  {
    var idx := Index(s, key);
    if idx.Some? {
      var j := idx.value + |key|;
      KeyEnds(s, key, j);
      SentCharacters(table);
      SentPlaceholders(table);
      GoodCut(s[..j], s[j..], Sent(table));
      KeyUnfold(s, key, j);
      WholeValueRender(s[j..], key, dirs, table);
    }
  }

  lemma {:induction false} WholeValueRender(tail: string, key: string, dirs: Dirs, table: seq<Media>)
    requires key != "" && key[|key| - 1] == '=' && key[0] == 'f'
    requires NoDup(table) && Good(tail, Sent(table))
    ensures Render(WholeValue(tail, key), dirs, table)
         == Render(ValueSegs(tail[..CutLength(tail)], KeySegs(tail[CutLength(tail)..], key)), dirs, table)
    ensures LitsGood(WholeValue(tail, key), Sent(table))
    decreases |tail|, 1
  {
    var n := CutLength(tail);
    if MEDIA_OPEN <= tail[..n] {
      WholeMediaRender(tail, key, dirs, table);
    } else {
      SentPlaceholders(table);
      GoodTail(tail, n, Sent(table));
      WholeRender(tail[n..], key, dirs, table);
      if tail[..n] == "" {
        GoodPlain(tail[..n], Sent(table));
      } else {
        var t := Add(table, SpoolOf(tail[..n], dirs));
        AddKeeps(table, SpoolOf(tail[..n], dirs));
        SentGrows(table, t);
        GoodWider(tail[n..], Sent(table), Sent(t));
        WholeRender(tail[n..], key, dirs, t);
      }
    }
  }

  lemma {:induction false} WholeMediaRender(tail: string, key: string, dirs: Dirs, table: seq<Media>)
    requires key != "" && key[|key| - 1] == '=' && key[0] == 'f'
    requires NoDup(table) && Good(tail, Sent(table)) && MEDIA_OPEN <= tail[..CutLength(tail)]
    ensures Render(WholeValue(tail, key), dirs, table)
         == Render(ValueSegs(tail[..CutLength(tail)], KeySegs(tail[CutLength(tail)..], key)), dirs, table)
    ensures LitsGood(WholeValue(tail, key), Sent(table))
    decreases |tail|, 0
  {
    var i, b := MediaAtFront(tail, table);
    var ph := MediaPlaceholder(i);
    CutMedia(i, b);
    MediaIsPlaceholder(i);
    PlaceholderUnique(tail, ph);
    IndexGood(i, table);
    WholeRender(b, key, dirs, table);
    RestOfMedia(i, ph[|MEDIA_OPEN|..], b, key, dirs, table);
    assert tail[|ph|..] == b;
  }

  // ---- both scans ----

  predicate NamesFiles(s: string) {
    Contains(s, SUBTITLES) || Contains(s, FONTSDIR)
  }

  lemma Covered(table: seq<Media>, values: map<string, string>)
    requires Sent(table) <= values.Keys
    ensures forall m :: m in table ==> Placeholder(table, m) in values
  {
    forall m | m in table
      ensures Placeholder(table, m) in values
    {
      PlaceholderSent(table, m);
    }
  }

  /** The text between the two scans. */
  function AfterFirst(s: string, dirs: Dirs, table: seq<Media>): Out {
    Render(SubtitleSegs(s, SUBTITLES), dirs, table)
  }

  function SecondSegs(s: string, dirs: Dirs, table: seq<Media>): Segs {
    WholeSegs(AfterFirst(s, dirs, table).text, FONTSDIR)
  }

  lemma FirstScan(s: string, dirs: Dirs, table: seq<Media>, final: seq<Media>, values: map<string, string>)
    requires NoDup(table) && Good(s, {PMS}) && AfterFirst(s, dirs, table).table <= final && Sent(final) <= values.Keys
    ensures Source(SubtitleSegs(s, SUBTITLES)) == s
    ensures RefsIn(SubtitleSegs(s, SUBTITLES), dirs, final) && forall m :: m in final ==> Placeholder(final, m) in values
    ensures Resolve(AfterFirst(s, dirs, table).text, values) == Spelled(SubtitleSegs(s, SUBTITLES), dirs, final, values)
  {
    KeyShapes();
    PmsCharacters();
    SubtitleSource(s, SUBTITLES);
    SubtitleLits(s, SUBTITLES);
    RenderPrints(SubtitleSegs(s, SUBTITLES), dirs, table, final);
    Covered(final, values);
    SegsResolve(SubtitleSegs(s, SUBTITLES), dirs, final, {PMS}, values);
  }

  /**
   * Filter strings on the worker. The first scan's pieces make up the filter string, the second
   * scan's make up what the first one wrote; and after substitution both texts have every literal
   * piece in place and the local value of each reference's unescaped absolute path for the reference.
   */
  lemma FilterRefsMean(s: string, dirs: Dirs, table: seq<Media>, values: map<string, string>)
    requires NoDup(table) && Good(s, {PMS}) && NamesFiles(s)
    requires Sent(FilterRefs(s, dirs, table).table) <= values.Keys
    ensures
      var first, second := SubtitleSegs(s, SUBTITLES), SecondSegs(s, dirs, table);
      var mid, out := AfterFirst(s, dirs, table), FilterRefs(s, dirs, table);
      && Source(first) == s && Source(second) == mid.text
      && RefsIn(first, dirs, out.table) && RefsIn(second, dirs, out.table)
      && (forall m :: m in out.table ==> Placeholder(out.table, m) in values)
      && Resolve(mid.text, values) == Spelled(first, dirs, out.table, values)
      && Resolve(out.text, values) == Spelled(second, dirs, out.table, values)
  {
    var mid, out := AfterFirst(s, dirs, table), FilterRefs(s, dirs, table);
    SecondScan(s, dirs, table);
    FirstScan(s, dirs, table, out.table, values);
    SentPlaceholders(out.table);
    SegsResolve(SecondSegs(s, dirs, table), dirs, out.table, Sent(out.table), values);
  }

  lemma SecondScan(s: string, dirs: Dirs, table: seq<Media>)
    requires NoDup(table) && Good(s, {PMS}) && NamesFiles(s)
    ensures
      var second, mid, out := SecondSegs(s, dirs, table), AfterFirst(s, dirs, table), FilterRefs(s, dirs, table);
      && mid.table <= out.table && Source(second) == mid.text && RefsIn(second, dirs, out.table)
      && LitsGood(second, Sent(out.table)) && out.text == Printed(second, dirs, out.table)
  {
    var mid, out := AfterFirst(s, dirs, table), FilterRefs(s, dirs, table);
    var second := SecondSegs(s, dirs, table);
    KeyShapes();
    SubtitleLits(s, SUBTITLES);
    RenderGood(SubtitleSegs(s, SUBTITLES), dirs, table);
    RenderGrows(SubtitleSegs(s, SUBTITLES), dirs, table);
    WholeSource(mid.text, FONTSDIR);
    WholeRender(mid.text, FONTSDIR, dirs, mid.table);
    RenderGrows(second, dirs, mid.table);
    RenderPrints(second, dirs, mid.table, out.table);
    SentGrows(mid.table, out.table);
    LitsWider(second, Sent(mid.table), Sent(out.table));
  }

  lemma {:induction false} LitsWider(segs: Segs, known: set<string>, more: set<string>)
    requires LitsGood(segs, known) && known <= more
    ensures LitsGood(segs, more)
  {
    match segs {
      case End =>
      case Lit(text, rest) =>
        GoodWider(text, known, more);
        LitsWider(rest, known, more);
      case Ref(_, rest) => LitsWider(rest, known, more);
    }
  }

  predicate AllLiteral(segs: Segs) {
    match segs
    case End => true
    case Lit(_, more) => AllLiteral(more)
    case Ref(_, _) => false
  }

  /** Where the second scan finds no further file, the first one's pieces tell the whole story. */
  lemma OneScanMeans(s: string, dirs: Dirs, table: seq<Media>, values: map<string, string>)
    requires NoDup(table) && Good(s, {PMS}) && NamesFiles(s) && AllLiteral(SecondSegs(s, dirs, table))
    requires Sent(FilterRefs(s, dirs, table).table) <= values.Keys
    ensures
      var first, out := SubtitleSegs(s, SUBTITLES), FilterRefs(s, dirs, table);
      && RefsIn(first, dirs, out.table) && (forall m :: m in out.table ==> Placeholder(out.table, m) in values)
      && out == AfterFirst(s, dirs, table)
      && Resolve(out.text, values) == Spelled(first, dirs, out.table, values)
  {
    var mid, second := AfterFirst(s, dirs, table), SecondSegs(s, dirs, table);
    SecondScan(s, dirs, table);
    LiteralRender(second, dirs, mid.table);
    KeyShapes();
    SubtitleLits(s, SUBTITLES);
    RenderGood(SubtitleSegs(s, SUBTITLES), dirs, table);
    RenderGrows(SubtitleSegs(s, SUBTITLES), dirs, table);
    WholeRender(mid.text, FONTSDIR, dirs, mid.table);
    FirstScan(s, dirs, table, mid.table, values);
  }

  lemma {:induction false} LiteralRender(segs: Segs, dirs: Dirs, table: seq<Media>)
    requires AllLiteral(segs)
    ensures Render(segs, dirs, table) == Out(Source(segs), table)
  {
    match segs {
      case End =>
      case Lit(_, more) => LiteralRender(more, dirs, table);
    }
  }

  /**
   * The second scan does not stop at a reference that the first one has replaced further on: a
   * standalone value that runs into a placeholder is taken up to the placeholder's ':', so that the
   * path it spools has a part of the placeholder in it.
   */
  lemma SwallowsReference(value: string, i: nat, key: string)
    requires key != "" && Index(key + (value + MediaPlaceholder(i)), key) == Some(0)
    requires value != "" && value[0] != '{' && forall k :: 0 <= k < |value| ==> value[k] != '\\' && !IsMeta(value[k])
    ensures KeySegs(key + (value + MediaPlaceholder(i)), key)
         == Lit(key, Ref(value + MEDIA_OPEN, KeySegs(MediaPlaceholder(i)[|MEDIA_OPEN|..], key)))
  {
    var tail := value + MediaPlaceholder(i);
    var c := MediaPlaceholder(i)[|MEDIA_OPEN|..];
    CutMedia(i, "");
    assert MediaPlaceholder(i) + "" == MediaPlaceholder(i);
    CutAfter(value, MediaPlaceholder(i));
    KeyAt(key, tail, key);
    assert tail[..|value| + |MEDIA_OPEN|] == value + MEDIA_OPEN;
    assert tail[|value| + |MEDIA_OPEN|..] == c;
  }
}
