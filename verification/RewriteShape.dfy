/**
 * The shape of what the shim sends (internal/shim/rewrite.go): plain text, the fixed placeholders and
 * placeholders of the media table, whatever the filter strings of the argv look like.
 */
module RewriteShape {
  import opened Prelude
  import opened Text
  import opened Placeholders
  import opened Filters
  import opened RewriteSpec
  import opened Substitute
  import opened Decimal

  // ---- occurrences in replaced text ----

  lemma IndexCons(s: string, key: string)
    requires key != "" && s != "" && s[0] != key[0]
    ensures Index(s, key) == match Index(s[1..], key) case None => None case Some(i) => Some(i + 1)
  {
    assert !(key <= s);
  }

  lemma {:induction false} IndexSkip(a: string, b: string, key: string)
    requires key != "" && key[0] !in a
    ensures Index(a + b, key) == match Index(b, key) case None => None case Some(i) => Some(|a| + i)
    decreases |a|
  {
    if a == "" {
      assert a + b == b;
    } else {
      var s := a + b;
      IndexSkip(a[1..], b, key);
      assert s[1..] == a[1..] + b;
      assert s[0] == a[0];
      IndexCons(s, key);
    }
  }

  lemma {:induction false} IndexLater(a: string, b: string, key: string)
    requires Index(a + b, key).None?
    ensures Index(b, key).None?
    decreases |a|
  {
    if a == "" {
      assert a + b == b;
    } else {
      assert (a + b)[1..] == a[1..] + b;
      IndexLater(a[1..], b, key);
    }
  }

  /** A beginning without '{' that replaced text has was there before. */
  lemma {:induction false} PrefixBefore(a: string, p: string, t: string, key: string)
    requires p != "" && t != "" && t[0] == '{' && NoOpen(key) && key <= ReplaceAll(a, p, t)
    ensures key <= a
    decreases |a|
  {
    if key != "" {
      var r := ReplaceAll(a, p, t);
      assert r[0] == key[0] != '{';
      assert a != "";
      assert !(p <= a);
      var rest := ReplaceAll(a[1..], p, t);
      assert r == [a[0]] + rest;
      assert key[1..] <= rest by {
        assert rest == r[1..];
      }
      PrefixBefore(a[1..], p, t, key[1..]);
      assert key == [key[0]] + key[1..] && a == [a[0]] + a[1..];
    }
  }

  /** Replacing text by a placeholder brings in no occurrence of a key. */
  lemma {:induction false} NoNewKey(a: string, p: string, t: string, key: string)
    requires p != "" && t != "" && t[0] == '{' && NoOpen(key) && key != "" && key[0] !in t
    requires !Contains(a, key)
    ensures !Contains(ReplaceAll(a, p, t), key)
    decreases |a|
  {
    if a == "" {
    } else if p <= a {
      var b := a[|p|..];
      assert a == p + b;
      IndexLater(p, b, key);
      NoNewKey(b, p, t, key);
      IndexSkip(t, ReplaceAll(b, p, t), key);
    } else {
      var r := ReplaceAll(a, p, t);
      if key <= r {
        PrefixBefore(a, p, t, key);
        assert false;
      }
      NoNewKey(a[1..], p, t, key);
      assert r[1..] == ReplaceAll(a[1..], p, t);
    }
  }

  // ---- text stays made of known placeholders ----

  /** Replaced occurrences are the only placeholders in text that had none; resolving puts them back. */
  lemma {:induction false} ReplaceMarks(a: string, p: string, t: string, values: map<string, string>)
    requires p != "" && NoOpen(a) && IsPlaceholder(t) && t in values && values[t] == p
    ensures Good(ReplaceAll(a, p, t), {t})
    ensures Resolve(ReplaceAll(a, p, t), values) == a
    decreases |a|
  {
    if a == "" {
    } else if p <= a {
      var b := a[|p|..];
      assert a == p + b;
      ReplaceMarks(b, p, t, values);
      GoodFront(t, ReplaceAll(b, p, t), {t});
      ResolveFront(t, ReplaceAll(b, p, t), values);
    } else {
      ReplaceMarks(a[1..], p, t, values);
      assert ReplaceAll(a, p, t)[1..] == ReplaceAll(a[1..], p, t);
      assert a == [a[0]] + a[1..];
    }
  }

  /** A tail that does not start with '{' is still made of known placeholders. */
  lemma {:induction false} GoodTail(s: string, i: nat, known: set<string>)
    requires AllPlaceholders(known) && Good(s, known) && i <= |s| && (i < |s| ==> s[i] != '{')
    ensures Good(s[i..], known)
    decreases |s|
  {
    if i == 0 {
      assert s[0..] == s;
    } else if s[0] != '{' {
      GoodTail(s[1..], i - 1, known);
      assert s[1..][i - 1..] == s[i..];
    } else {
      var t := PlaceholderAt(s);
      var b := s[|t|..];
      if i >= |t| {
        GoodTail(b, i - |t|, known);
        assert b[i - |t|..] == s[i..];
      } else {
        InsidePlaceholder(t, i);
        GoodPlain(t[i..], known);
        GoodConcat(t[i..], b, known);
        assert s[i..] == t[i..] + b;
      }
    }
  }

  /** Inside a placeholder, only the second character is another '{'. */
  lemma InsidePlaceholder(t: string, i: nat)
    requires IsPlaceholder(t) && 0 < i < |t| && t[i] != '{'
    ensures NoOpen(t[i..])
  {
    forall k | i <= k < |t|
      ensures t[k] != '{'
    {
      if 2 <= k < |t| - 2 {
        assert t[k] == t[2..|t| - 2][k - 2];
      }
    }
  }

  predicate Outside(c: char, known: set<string>) {
    forall t :: t in known ==> c !in t
  }

  lemma Straddle(t: string, a: string, b: string)
    requires t <= a + b && |t| > |a| > 0
    ensures b != "" && a[|a| - 1] in t && b[0] in t
  {
    assert t[|a| - 1] == a[|a| - 1] && t[|a|] == b[0];
  }

  /** Cutting beside a character that no placeholder holds leaves both parts well made. */
  lemma {:induction false} GoodCut(a: string, b: string, known: set<string>)
    requires AllPlaceholders(known) && Good(a + b, known)
    requires a == "" || b == "" || Outside(a[|a| - 1], known) || Outside(b[0], known)
    ensures Good(a, known) && Good(b, known)
    decreases |a|
  {
    var s := a + b;
    if a == "" {
      assert s == b;
    } else if a[0] != '{' {
      assert s[1..] == a[1..] + b;
      GoodCut(a[1..], b, known);
    } else {
      var t := PlaceholderAt(s);
      if |t| <= |a| {
        var c := a[|t|..];
        assert s[|t|..] == c + b && a == t + c;
        GoodCut(c, b, known);
        GoodFront(t, c, known);
      } else {
        Straddle(t, a, b);
        assert false;
      }
    }
  }

  // ---- what the shim sends ----

  function MediaSet(n: nat): set<string> {
    set i | 0 <= i < n :: MediaPlaceholder(i)
  }

  /** The placeholders that may occur in a rewritten argv. */
  function Sent(table: seq<Media>): set<string> {
    FIXED + MediaSet(|table|)
  }

  lemma SentPlaceholders(table: seq<Media>)
    ensures AllPlaceholders(Sent(table))
  {
    FixedArePlaceholders();
    forall t | t in MediaSet(|table|)
      ensures IsPlaceholder(t)
    {
      var i :| 0 <= i < |table| && t == MediaPlaceholder(i);
      MediaIsPlaceholder(i);
    }
  }

  lemma SentGrows(t: seq<Media>, u: seq<Media>)
    requires t <= u
    ensures Sent(t) <= Sent(u)
  {
    forall x | x in MediaSet(|t|)
      ensures x in MediaSet(|u|)
    {
      var i :| 0 <= i < |t| && x == MediaPlaceholder(i);
      assert 0 <= i < |u| && x == MediaPlaceholder(i);
    }
  }

  lemma PlaceholderSent(table: seq<Media>, m: Media)
    requires m in table
    ensures Placeholder(table, m) in Sent(table) && IsPlaceholder(Placeholder(table, m))
  {
    var i := Find(table, m);
    assert 0 <= i < |table| && Placeholder(table, m) == MediaPlaceholder(i);
    MediaIsPlaceholder(i);
  }

  /** No placeholder holds '=', and none but the media ones a metacharacter. */
  lemma SentCharacters(table: seq<Media>)
    ensures Outside('=', Sent(table))
    ensures Outside('/', Sent(table))
  {
    forall t | t in Sent(table)
      ensures '=' !in t && '/' !in t
    {
      if t in MediaSet(|table|) {
        var i :| 0 <= i < |table| && t == MediaPlaceholder(i);
        MediaCharacters(i);
      }
    }
  }

  lemma MediaCharacters(i: nat)
    ensures '=' !in MediaPlaceholder(i) && '/' !in MediaPlaceholder(i) && 'f' !in MediaPlaceholder(i)
  {
    var d := Dec(i);
    assert forall k :: 0 <= k < |d| ==> IsDigit(d[k]);
    assert '=' !in d && '/' !in d && 'f' !in d;
  }

  /** References become placeholders of the final table; the literals have to be well made themselves. */
  ghost predicate LitsGood(segs: Segs, known: set<string>) {
    match segs
    case End => true
    case Lit(text, more) => Good(text, known) && LitsGood(more, known)
    case Ref(_, more) => LitsGood(more, known)
  }

  lemma {:induction false} RenderGood(segs: Segs, dirs: Dirs, table: seq<Media>)
    requires NoDup(table) && LitsGood(segs, {PMS})
    ensures Good(Render(segs, dirs, table).text, Sent(Render(segs, dirs, table).table))
  {
    var out := Render(segs, dirs, table).table;
    SentPlaceholders(out);
    match segs {
      case End =>
      case Lit(text, more) =>
        RenderGood(more, dirs, table);
        GoodWider(text, {PMS}, Sent(out));
        GoodConcat(text, Render(more, dirs, table).text, Sent(out));
      case Ref(text, more) =>
        var m := SpoolOf(text, dirs);
        var t := Add(table, m);
        AddKeeps(table, m);
        RenderGood(more, dirs, t);
        RenderGrows(more, dirs, t);
        PlaceholderStable(t, out, m);
        PlaceholderSent(out, m);
        GoodFront(Placeholder(out, m), Render(more, dirs, t).text, Sent(out));
    }
  }

  lemma PmsCharacters()
    ensures forall c :: c == '=' || IsMeta(c) ==> Outside(c, {PMS})
    ensures AllPlaceholders({PMS})
  {
    FixedArePlaceholders();
  }

  lemma OptionLits(val: string, first: bool, more: Segs)
    requires Good(val, {PMS}) && LitsGood(more, {PMS})
    ensures LitsGood(OptionSegs(val, first, more), {PMS})
  {
    var k := KeyOf(val);
    if k.Some? && IsFileKey(k.value) {
      var a, b := val[..|k.value| + 1], val[|k.value| + 1..];
      PmsCharacters();
      assert val == a + b && a == k.value + "=";
      GoodCut(a, b, {PMS});
    }
  }

  lemma CutGood(s: string)
    requires Good(s, {PMS})
    ensures Good(s[..CutLength(s)], {PMS}) && Good(s[CutLength(s)..], {PMS})
    ensures CutLength(s) < |s| ==> Good(s[CutLength(s)..][1..], {PMS})
  {
    var n := CutLength(s);
    assert s == s[..n] + s[n..];
    PmsCharacters();
    GoodCut(s[..n], s[n..], {PMS});
  }

  lemma {:induction false} AfterGood(s: string)
    requires Good(s, {PMS})
    ensures Good(AfterList(s), {PMS})
    decreases |s|
  {
    var rest := s[CutLength(s)..];
    CutGood(s);
    ListOpens(s, true, End);
    if rest != "" && rest[0] == ':' {
      AfterGood(rest[1..]);
    }
  }

  lemma {:induction false} ListLits(s: string, first: bool, more: Segs)
    requires Good(s, {PMS}) && LitsGood(more, {PMS})
    ensures LitsGood(ListSegs(s, first, more), {PMS})
    decreases |s|
  {
    var val, rest := s[..CutLength(s)], s[CutLength(s)..];
    CutGood(s);
    ListOpens(s, first, more);
    if rest != "" && rest[0] == ':' {
      ListLits(rest[1..], false, more);
      GoodPlain(":", {PMS});
      OptionLits(val, first, Lit(":", ListSegs(rest[1..], false, more)));
    } else {
      OptionLits(val, first, more);
    }
  }

  /** What stands before the end of the key ends with the key's last character. */
  lemma KeyEnds(s: string, key: string, j: nat)
    requires key != "" && Index(s, key).Some? && j == Index(s, key).value + |key|
    ensures s == s[..j] + s[j..] && s[..j] != "" && s[..j][|s[..j]| - 1] == key[|key| - 1]
  {
    IndexMatches(s, key);
    assert s[j - 1] == s[Index(s, key).value..][..|key|][|key| - 1];
  }

  lemma {:induction false} SubtitleLits(s: string, key: string)
    requires key != "" && key[|key| - 1] == '=' && Good(s, {PMS})
    ensures LitsGood(SubtitleSegs(s, key), {PMS})
    decreases |s|
  {
    var idx := Index(s, key);
    if idx.Some? {
      var j := idx.value + |key|;
      KeyEnds(s, key, j);
      PmsCharacters();
      GoodCut(s[..j], s[j..], {PMS});
      AfterGood(s[j..]);
      SubtitleLits(AfterList(s[j..]), key);
      ListLits(s[j..], true, SubtitleSegs(AfterList(s[j..]), key));
      SubtitleUnfold(s, key, j);
    }
  }

  // ---- the second scan, over text that already holds placeholders ----

  /** A media placeholder at the front is cut at its ':', and found to be one. */
  lemma CutMedia(i: nat, b: string)
    ensures var s := MediaPlaceholder(i) + b;
            var c := MediaPlaceholder(i)[|MEDIA_OPEN|..];
            && CutLength(s) == |MEDIA_OPEN| && s[..|MEDIA_OPEN|] == MEDIA_OPEN && s[|MEDIA_OPEN|..] == c + b
            && MEDIA_OPEN + c == MediaPlaceholder(i)
  {
    var s := MediaPlaceholder(i) + b;
    var c := MediaPlaceholder(i)[|MEDIA_OPEN|..];
    assert c[0] == ':';
    assert MEDIA_OPEN + c == MediaPlaceholder(i);
    assert s == MEDIA_OPEN + (c + b);
    CutAfter(MEDIA_OPEN, c + b);
    assert CutLength(c + b) == 0;
  }

  lemma KeyAt(front: string, tail: string, key: string)
    requires key != "" && |front| >= |key| && Index(front + tail, key) == Some(|front| - |key|)
    ensures KeySegs(front + tail, key)
         == Lit(front, ValueSegs(tail[..CutLength(tail)], KeySegs(tail[CutLength(tail)..], key)))
  {
    var s := front + tail;
    assert s[..|front|] == front && s[|front|..] == tail;
    KeyUnfold(s, key, |front|);
  }

  lemma KeySkipAt(a: string, front: string, tail: string, key: string)
    requires key != "" && key[0] !in a && |front| >= |key| && Index(front + tail, key) == Some(|front| - |key|)
    ensures KeySegs(front + tail, key).Lit?
    ensures KeySegs(a + (front + tail), key) == Lit(a + KeySegs(front + tail, key).text, KeySegs(front + tail, key).more)
  {
    IndexSkip(a, front + tail, key);
    Assoc(a, front, tail);
    KeyAt(front, tail, key);
    KeyAt(a + front, tail, key);
  }

  /** Text that cannot start the key is passed over. */
  lemma KeySkip(a: string, b: string, key: string)
    requires key != "" && key[0] !in a
    ensures KeySegs(b, key).Lit?
    ensures KeySegs(a + b, key) == Lit(a + KeySegs(b, key).text, KeySegs(b, key).more)
  {
    var idx := Index(b, key);
    if idx.Some? {
      var j := idx.value + |key|;
      assert b[..j] + b[j..] == b;
      KeySkipAt(a, b[..j], b[j..], key);
    } else {
      IndexSkip(a, b, key);
    }
  }

  /** A well-made value and what follows it; `o` is what the rest is rendered to. */
  ghost predicate WellMade(o: Out) {
    Good(o.text, Sent(o.table))
  }

  lemma WellMadeFront(a: string, o: Out, table: seq<Media>)
    requires Good(a, Sent(table)) && table <= o.table && WellMade(o)
    ensures WellMade(Out(a + o.text, o.table))
  {
    SentGrows(table, o.table);
    SentPlaceholders(o.table);
    GoodWider(a, Sent(table), Sent(o.table));
    GoodConcat(a, o.text, Sent(o.table));
  }

  /** The second scan keeps the text well made, even where it cuts a placeholder at its ':'. */
  lemma {:induction false} KeyGood(s: string, key: string, dirs: Dirs, table: seq<Media>)
    requires key != "" && key[|key| - 1] == '=' && key[0] == 'f'
    requires NoDup(table) && Good(s, Sent(table))
    ensures WellMade(Render(KeySegs(s, key), dirs, table))
    decreases |s|, 0
  {
    var idx := Index(s, key);
    if idx.None? {
      assert Render(Lit(s, End), dirs, table) == Out(s + "", table);
      assert s + "" == s;
    } else {
      var j := idx.value + |key|;
      var n := CutLength(s[j..]);
      KeyEnds(s, key, j);
      SentCharacters(table);
      SentPlaceholders(table);
      GoodCut(s[..j], s[j..], Sent(table));
      KeyUnfold(s, key, j);
      ValueGood(s[j..], key, dirs, table);
      var more := ValueSegs(s[j..][..n], KeySegs(s[j..][n..], key));
      RenderGrows(more, dirs, table);
      WellMadeFront(s[..j], Render(more, dirs, table), table);
    }
  }

  lemma {:induction false} ValueGood(tail: string, key: string, dirs: Dirs, table: seq<Media>)
    requires key != "" && key[|key| - 1] == '=' && key[0] == 'f'
    requires NoDup(table) && Good(tail, Sent(table))
    ensures WellMade(Render(ValueSegs(tail[..CutLength(tail)], KeySegs(tail[CutLength(tail)..], key)), dirs, table))
    decreases |tail|, 2
  {
    var n := CutLength(tail);
    var val, rest := tail[..n], tail[n..];
    SentPlaceholders(table);
    if MEDIA_OPEN <= val {
      MediaValueGood(tail, key, dirs, table);
    } else {
      GoodTail(tail, n, Sent(table));
      if val == "" {
        KeyGood(rest, key, dirs, table);
        GoodPlain(val, Sent(table));
        RenderGrows(KeySegs(rest, key), dirs, table);
        WellMadeFront(val, Render(KeySegs(rest, key), dirs, table), table);
      } else {
        RefGood(val, rest, key, dirs, table);
      }
    }
  }

  lemma {:induction false} RefGood(val: string, rest: string, key: string, dirs: Dirs, table: seq<Media>)
    requires key != "" && key[|key| - 1] == '=' && key[0] == 'f'
    requires NoDup(table) && Good(rest, Sent(table))
    ensures WellMade(Render(Ref(val, KeySegs(rest, key)), dirs, table))
    decreases |rest|, 1
  {
    var m := SpoolOf(val, dirs);
    var t := Add(table, m);
    AddKeeps(table, m);
    SentGrows(table, t);
    GoodWider(rest, Sent(table), Sent(t));
    KeyGood(rest, key, dirs, t);
    RenderGrows(KeySegs(rest, key), dirs, t);
    PlaceholderGood(t, m);
    WellMadeFront(Placeholder(t, m), Render(KeySegs(rest, key), dirs, t), t);
  }

  lemma PlaceholderGood(table: seq<Media>, m: Media)
    requires m in table
    ensures Good(Placeholder(table, m), Sent(table))
  {
    PlaceholderSent(table, m);
    GoodFront(Placeholder(table, m), "", Sent(table));
    assert Placeholder(table, m) + "" == Placeholder(table, m);
  }

  /** The placeholder at the front of well-made text that starts like a media placeholder. */
  lemma MediaAtFront(s: string, table: seq<Media>) returns (i: nat, b: string)
    requires Good(s, Sent(table)) && MEDIA_OPEN <= s
    ensures i < |table| && s == MediaPlaceholder(i) + b && Good(b, Sent(table))
  {
    var t := PlaceholderAt(s);
    assert s[2] == MEDIA_OPEN[2] == 'M' && s[3] == MEDIA_OPEN[3] == 'E';
    assert t != OUTDIR && t != PMS && t != PLEXDIR;
    assert t in MediaSet(|table|);
    i :| 0 <= i < |table| && t == MediaPlaceholder(i);
    b := s[|t|..];
  }

  lemma {:induction false} MediaValueGood(tail: string, key: string, dirs: Dirs, table: seq<Media>)
    requires key != "" && key[|key| - 1] == '=' && key[0] == 'f'
    requires NoDup(table) && Good(tail, Sent(table)) && MEDIA_OPEN <= tail[..CutLength(tail)]
    ensures WellMade(Render(ValueSegs(tail[..CutLength(tail)], KeySegs(tail[CutLength(tail)..], key)), dirs, table))
    decreases |tail|, 1
  {
    var i, b := MediaAtFront(tail, table);
    CutMedia(i, b);
    KeyGood(b, key, dirs, table);
    var o := Render(KeySegs(b, key), dirs, table);
    RenderGrows(KeySegs(b, key), dirs, table);
    IndexGood(i, table);
    WellMadeFront(MediaPlaceholder(i), o, table);
    RestOfMedia(i, MediaPlaceholder(i)[|MEDIA_OPEN|..], b, key, dirs, table);
  }

  lemma IndexGood(i: nat, table: seq<Media>)
    requires i < |table|
    ensures Good(MediaPlaceholder(i), Sent(table))
  {
    assert MediaPlaceholder(i) in MediaSet(|table|);
    MediaIsPlaceholder(i);
    GoodFront(MediaPlaceholder(i), "", Sent(table));
    assert MediaPlaceholder(i) + "" == MediaPlaceholder(i);
  }

  lemma SkippedRender(open: string, c: string, b: string, key: string, dirs: Dirs, table: seq<Media>)
    requires key != "" && key[0] !in c
    ensures Render(Lit(open, KeySegs(c + b, key)), dirs, table)
         == var o := Render(KeySegs(b, key), dirs, table); Out(open + c + o.text, o.table)
  {
    KeySkip(c, b, key);
    RenderFront(c, KeySegs(b, key), dirs, table);
    var o := Render(KeySegs(b, key), dirs, table);
    assert open + (c + o.text) == open + c + o.text;
  }

  /** The scan cuts the placeholder at its ':', writes the front, and passes over the rest. */
  lemma RestOfMedia(i: nat, c: string, b: string, key: string, dirs: Dirs, table: seq<Media>)
    requires key != "" && key[0] == 'f' && MEDIA_OPEN + c == MediaPlaceholder(i)
    ensures Render(Lit(MEDIA_OPEN, KeySegs(c + b, key)), dirs, table)
         == var o := Render(KeySegs(b, key), dirs, table); Out(MediaPlaceholder(i) + o.text, o.table)
  {
    MediaCharacters(i);
    assert c == MediaPlaceholder(i)[|MEDIA_OPEN|..];
    SkippedRender(MEDIA_OPEN, c, b, key, dirs, table);
  }

  lemma RenderFront(a: string, segs: Segs, dirs: Dirs, table: seq<Media>)
    requires segs.Lit?
    ensures Render(Lit(a + segs.text, segs.more), dirs, table)
         == Out(a + Render(segs, dirs, table).text, Render(segs, dirs, table).table)
  {
    var o := Render(segs.more, dirs, table);
    assert a + segs.text + o.text == a + (segs.text + o.text);
  }

  // ---- whole arguments ----

  lemma NoOpenGood(a: string, table: seq<Media>)
    requires NoOpen(a) && NoDup(table)
    ensures Good(ReplaceAll(a, PMS_URL_PREFIX, PMS), {PMS})
    ensures Good(ReplaceAll(a, PMS_URL_PREFIX, PMS), Sent(table))
  {
    PmsCharacters();
    ReplaceMarks(a, PMS_URL_PREFIX, PMS, map[PMS := PMS_URL_PREFIX]);
    GoodWider(ReplaceAll(a, PMS_URL_PREFIX, PMS), {PMS}, Sent(table));
  }

  lemma KeyShapes()
    ensures SUBTITLES != "" && SUBTITLES[|SUBTITLES| - 1] == '='
    ensures FONTSDIR != "" && FONTSDIR[|FONTSDIR| - 1] == '=' && FONTSDIR[0] == 'f'
  {
  }

  lemma FilterGood(s: string, dirs: Dirs, table: seq<Media>)
    requires NoDup(table) && Good(s, {PMS})
    ensures WellMade(FilterRefs(s, dirs, table))
  {
    KeyShapes();
    GoodWider(s, {PMS}, Sent(table));
    var o := Render(SubtitleSegs(s, SUBTITLES), dirs, table);
    SubtitleLits(s, SUBTITLES);
    RenderGood(SubtitleSegs(s, SUBTITLES), dirs, table);
    RenderGrows(SubtitleSegs(s, SUBTITLES), dirs, table);
    KeyGood(o.text, FONTSDIR, dirs, o.table);
  }

  lemma SwapGood(a: string, dirs: Dirs, table: seq<Media>)
    requires Good(a, Sent(table))
    ensures Good(SwapDir(a, dirs), Sent(table))
  {
    SentPlaceholders(table);
    if dirs.session + "/" <= a {
      SwapTailGood(a, |dirs.session|, OUTDIR, table);
    } else if dirs.plex + "/" <= a {
      SwapTailGood(a, |dirs.plex|, PLEXDIR, table);
    }
  }

  lemma SwapTailGood(a: string, i: nat, t: string, table: seq<Media>)
    requires Good(a, Sent(table)) && i < |a| && a[i] == '/' && t in FIXED
    ensures Good(t + a[i..], Sent(table))
  {
    SentPlaceholders(table);
    GoodTail(a, i, Sent(table));
    GoodFront(t, a[i..], Sent(table));
  }

  lemma TokenGood(a: string, dirs: Dirs, table: seq<Media>)
    requires NoOpen(a) && NoDup(table)
    ensures WellMade(Token(a, dirs, table))
  {
    NoOpenGood(a, table);
    var o := FilterRefs(ReplaceAll(a, PMS_URL_PREFIX, PMS), dirs, table);
    FilterGood(ReplaceAll(a, PMS_URL_PREFIX, PMS), dirs, table);
    SwapGood(o.text, dirs, o.table);
  }

  lemma InputGood(v: string, dirs: Dirs, table: seq<Media>)
    requires NoOpen(v) && NoDup(table)
    ensures WellMade(Input(v, dirs, table))
  {
    NoOpenGood(v, table);
    GoodPlain(v, Sent(table));
    var t := Add(table, InputOf(v, dirs));
    PlaceholderGood(t, InputOf(v, dirs));
  }

  ghost predicate AllNoOpen(args: seq<string>) {
    forall i :: 0 <= i < |args| ==> NoOpen(args[i])
  }

  ghost predicate AllGood(tokens: seq<string>, known: set<string>) {
    forall i :: 0 <= i < |tokens| ==> Good(tokens[i], known)
  }

  /**
   * Every token of a rewritten argv, filter strings included, is plain text with placeholders that
   * the worker knows: the fixed ones, and those of the media table sent with it.
   */
  lemma {:induction false} ArgsGood(args: seq<string>, dirs: Dirs, table: seq<Media>)
    requires AllNoOpen(args) && NoDup(table)
    ensures AllGood(Args(args, dirs, table).tokens, Sent(Args(args, dirs, table).table))
    decreases |args|
  {
    var r := Args(args, dirs, table);
    if args == [] {
    } else if args[0] == "-i" && |args| > 1 {
      var o := Input(args[1], dirs, table);
      InputGood(args[1], dirs, table);
      InputGrows(args[1], dirs, table);
      ArgsGood(args[2..], dirs, o.table);
      ArgsGrow(args[2..], dirs, o.table);
      SentGrows(o.table, r.table);
      GoodWider(o.text, Sent(o.table), Sent(r.table));
      GoodPlain(args[0], Sent(r.table));
      AllGoodFront([args[0], o.text], Args(args[2..], dirs, o.table).tokens, Sent(r.table));
    } else {
      var o := Token(args[0], dirs, table);
      TokenGood(args[0], dirs, table);
      TokenGrows(args[0], dirs, table);
      ArgsGood(args[1..], dirs, o.table);
      ArgsGrow(args[1..], dirs, o.table);
      SentGrows(o.table, r.table);
      GoodWider(o.text, Sent(o.table), Sent(r.table));
      AllGoodFront([o.text], Args(args[1..], dirs, o.table).tokens, Sent(r.table));
    }
  }

  lemma AllGoodFront(a: seq<string>, b: seq<string>, known: set<string>)
    requires AllGood(a, known) && AllGood(b, known)
    ensures AllGood(a + b, known)
  {
  }
}
