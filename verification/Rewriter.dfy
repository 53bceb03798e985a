/** The shim's rewriter object (internal/shim/rewrite.go): its two maps, and its loops. */
module RewriterImpl {
  import opened Prelude
  import opened Text
  import opened Decimal
  import opened Paths
  import opened Placeholders
  import opened Filters
  import opened RewriteSpec

  function ModeName(mode: Mode): string {
    match mode
    case Stream => "stream"
    case Spool => "spool"
  }

  /** The deduplication key: mode, a zero byte, path. */
  function Key(m: Media): string {
    ModeName(m.mode) + "\0" + m.path
  }

  lemma KeyInjective(a: Media, b: Media)
    requires Key(a) == Key(b)
    ensures a == b
  {
    var k := Key(a);
    assert k[0] == 's' && k[1] == ModeName(a.mode)[1] && k[1] == ModeName(b.mode)[1];
    assert k[|ModeName(a.mode)| + 1..] == a.path;
    assert k[|ModeName(b.mode)| + 1..] == b.path;
  }

  function Then(front: string, o: Out): Out {
    Out(front + o.text, o.table)
  }

  lemma ThenLit(b: string, text: string, more: Segs, dirs: Dirs, table: seq<Media>)
    ensures Then(b, Render(Lit(text, more), dirs, table)) == Then(b + text, Render(more, dirs, table))
  {
    Assoc(b, text, Render(more, dirs, table).text);
  }

  lemma ThenRef(b: string, text: string, more: Segs, dirs: Dirs, table: seq<Media>)
    ensures Then(b, Render(Ref(text, more), dirs, table))
         == var m := SpoolOf(text, dirs);
            var t := Add(table, m);
            Then(b + Placeholder(t, m), Render(more, dirs, t))
  {
    var m := SpoolOf(text, dirs);
    var t := Add(table, m);
    Assoc(b, Placeholder(t, m), Render(more, dirs, t).text);
  }

  function Before(front: seq<string>, r: Outs): Outs {
    Outs(front + r.tokens, r.table)
  }

  lemma ArgsInput(out: seq<string>, args: seq<string>, dirs: Dirs, table: seq<Media>, goal: Outs)
    requires |args| > 1 && args[0] == "-i" && goal == Before(out, Args(args, dirs, table))
    ensures var o := Input(args[1], dirs, table);
            goal == Before(out + [args[0], o.text], Args(args[2..], dirs, o.table))
  {
  }

  lemma ArgsToken(out: seq<string>, args: seq<string>, dirs: Dirs, table: seq<Media>, goal: Outs)
    requires args != [] && !(args[0] == "-i" && |args| > 1) && goal == Before(out, Args(args, dirs, table))
    ensures var o := Token(args[0], dirs, table);
            goal == Before(out + [o.text], Args(args[1..], dirs, o.table))
  {
  }

  ghost predicate IsIndex(k: string, n: nat) {
    exists i :: 0 <= i < n && k == Dec(i)
  }

  /** The media map's keys are exactly the numerals of 0..n-1, and it lists the references by index. */
  ghost predicate MediaKeys(media: map<string, Media>, table: seq<Media>) {
    && |media| == |table|
    && (forall i :: 0 <= i < |table| ==> Dec(i) in media && media[Dec(i)] == table[i])
    && (forall k :: k in media ==> IsIndex(k, |table|))
  }

  ghost predicate IsKey(k: string, table: seq<Media>) {
    exists m :: m in table && k == Key(m)
  }

  /** The deduplication map sends exactly the references of the table to their placeholders. */
  ghost predicate PathKeys(byPath: map<string, string>, table: seq<Media>) {
    && (forall m :: m in table ==> Key(m) in byPath && byPath[Key(m)] == Placeholder(table, m))
    && (forall k :: k in byPath ==> IsKey(k, table))
  }

  lemma {:induction false} FindLast(t: seq<Media>, m: Media)
    requires m !in t
    ensures m in t + [m] && Find(t + [m], m) == |t|
    decreases |t|
  {
    assert (t + [m])[|t|] == m;
    if t != [] {
      assert (t + [m])[1..] == t[1..] + [m];
      FindLast(t[1..], m);
    }
  }

  lemma MediaKeysAdd(media: map<string, Media>, table: seq<Media>, m: Media, next: map<string, Media>)
    requires MediaKeys(media, table) && next == media[Dec(|table|) := m]
    ensures MediaKeys(next, table + [m])
  {
    var n := |table|;
    if Dec(n) in media {
      var i :| 0 <= i < n && Dec(n) == Dec(i);
      DecInjective(n, i);
    }
    forall i | 0 <= i < n + 1
      ensures Dec(i) in next && next[Dec(i)] == (table + [m])[i]
    {
      if i < n && Dec(i) == Dec(n) {
        DecInjective(i, n);
      }
    }
    forall k | k in next
      ensures IsIndex(k, n + 1)
    {
      if k == Dec(n) {
        assert 0 <= n < n + 1 && k == Dec(n);
      } else {
        assert IsIndex(k, n);
        var i :| 0 <= i < n && k == Dec(i);
        assert 0 <= i < n + 1 && k == Dec(i);
      }
    }
  }

  lemma PathKeysAdd(byPath: map<string, string>, table: seq<Media>, m: Media, next: map<string, string>)
    requires PathKeys(byPath, table) && m !in table && next == byPath[Key(m) := MediaPlaceholder(|table|)]
    ensures PathKeys(next, table + [m])
  {
    FindLast(table, m);
    var t := table + [m];
    forall x | x in t
      ensures Key(x) in next && next[Key(x)] == Placeholder(t, x)
    {
      if x == m {
      } else {
        assert x in table;
        if Key(x) == Key(m) {
          KeyInjective(x, m);
        }
        PlaceholderStable(table, t, x);
      }
    }
    forall k | k in next
      ensures IsKey(k, t)
    {
      if k == Key(m) {
        assert m in t;
      } else {
        assert IsKey(k, table);
        var x :| x in table && k == Key(x);
        assert x in t;
      }
    }
  }

  ghost predicate Tables(media: map<string, Media>, byPath: map<string, string>, table: seq<Media>) {
    NoDup(table) && MediaKeys(media, table) && PathKeys(byPath, table)
  }

  /** A reference that is known already has its placeholder. */
  lemma Known(media: map<string, Media>, byPath: map<string, string>, table: seq<Media>, m: Media)
    requires Tables(media, byPath, table) && Key(m) in byPath
    ensures m in table && byPath[Key(m)] == Placeholder(table, m)
  {
    var w :| w in table && Key(m) == Key(w);
    KeyInjective(m, w);
  }

  /** A new one gets the next index. */
  lemma Added(media: map<string, Media>, byPath: map<string, string>, table: seq<Media>, m: Media)
    requires Tables(media, byPath, table) && Key(m) !in byPath
    ensures |media| == |table| && m !in table && MediaPlaceholder(|table|) == Placeholder(table + [m], m)
    ensures Tables(media[Dec(|table|) := m], byPath[Key(m) := MediaPlaceholder(|table|)], table + [m])
  {
    AddKeeps(table, m);
    MediaKeysAdd(media, table, m, media[Dec(|table|) := m]);
    PathKeysAdd(byPath, table, m, byPath[Key(m) := MediaPlaceholder(|table|)]);
    FindLast(table, m);
  }

  /** An option that names a file, as text and reference. */
  lemma OptionFile(b: string, val: string, k: string, first: bool, next: Segs, dirs: Dirs, table: seq<Media>)
    requires KeyOf(val) == Some(k) && IsFileKey(k) && |k| < |val|
    ensures
      var m := SpoolOf(val[|k| + 1..], dirs);
      var t := Add(table, m);
      Then(b, Render(OptionSegs(val, first, next), dirs, table))
        == Then(b + (k + "=") + Placeholder(t, m), Render(next, dirs, t))
  {
    var v := val[|k| + 1..];
    ThenLit(b, k + "=", Ref(v, next), dirs, table);
    ThenRef(b + (k + "="), v, next, dirs, table);
  }

  lemma SubtitleOpens(s: string, key: string, head: string, list: string, more: Segs, b: string, dirs: Dirs, table: seq<Media>)
    requires key != "" && SubtitleSegs(s, key) == Lit(head, ListSegs(list, true, more))
    ensures Then(b, Render(SubtitleSegs(s, key), dirs, table)) == Then(b + head, Render(ListSegs(list, true, more), dirs, table))
  {
    ThenLit(b, head, ListSegs(list, true, more), dirs, table);
  }

  lemma SubtitleEnds(s: string, key: string, b: string, dirs: Dirs, table: seq<Media>)
    requires key != "" && Index(s, key).None?
    ensures Then(b, Render(SubtitleSegs(s, key), dirs, table)) == Out(b + s, table)
  {
    assert Render(Lit(s, End), dirs, table).text == s + "";
  }

  lemma KeyOpens(s: string, key: string, j: nat, val: string, rest: string, b: string, dirs: Dirs, table: seq<Media>)
    requires key != "" && Index(s, key).Some? && j == Index(s, key).value + |key|
    requires val == s[j..][..CutLength(s[j..])] && rest == s[j..][CutLength(s[j..])..]
    ensures Then(b, Render(KeySegs(s, key), dirs, table))
         == Then(b + s[..j], Render(ValueSegs(val, KeySegs(rest, key)), dirs, table))
  {
    KeyUnfold(s, key, j);
    ThenLit(b, s[..j], ValueSegs(val, KeySegs(rest, key)), dirs, table);
  }

  lemma KeyStops(s: string, key: string, b: string, dirs: Dirs, table: seq<Media>)
    requires key != "" && Index(s, key).None?
    ensures Then(b, Render(KeySegs(s, key), dirs, table)) == Out(b + s, table)
  {
    assert Render(Lit(s, End), dirs, table) == Out(s + "", table);
    assert s + "" == s;
  }

  class Rewriter {
    const dirs: Dirs
    var media: map<string, Media>
    var byPath: map<string, string>
    ghost var table: seq<Media>

    ghost predicate Valid()
      reads this
    {
      Tables(media, byPath, table)
    }

    constructor (session: string, plex: string)
      ensures Valid() && table == [] && dirs == Dirs(Clean(session), Clean(plex))
    {
      dirs := Dirs(Clean(session), Clean(plex));
      media, byPath, table := map[], map[], [];
    }

    /** addMedia */
    method AddMedia(path: string, mode: Mode) returns (ph: string)
      requires Valid()
      modifies this
      ensures Valid()
      ensures table == Add(old(table), Media(path, mode))
      ensures ph == Placeholder(table, Media(path, mode))
    {
      var m := Media(path, mode);
      var key := Key(m);
      if key in byPath {
        Known(media, byPath, table, m);
        return byPath[key];
      }
      Added(media, byPath, table, m);
      var n := |media|;
      ph := MediaPlaceholder(n);
      media := media[Dec(n) := m];
      byPath := byPath[key := ph];
      table := table + [m];
    }

    /** spoolRef */
    method SpoolRef(v: string) returns (ph: string)
      requires Valid()
      modifies this
      ensures Valid()
      ensures table == Add(old(table), SpoolOf(v, dirs))
      ensures ph == Placeholder(table, SpoolOf(v, dirs))
    {
      var path := UnescapeFilter(v);
      ph := AddMedia(Absolute(dirs.session, path), Spool);
    }

    /** rewriteSubtitlesOpts: one loop over the filters, one over the options of each. */
    method RewriteSubtitlesOpts(text: string, key: string) returns (b: string)
      requires Valid() && key != ""
      modifies this
      ensures Valid()
      ensures Out(b, table) == Render(SubtitleSegs(text, key), dirs, old(table))
    {
      var s := text;
      b := "";
      ghost var goal := Render(SubtitleSegs(text, key), dirs, table);
      var idx := Index(s, key);
      while idx.Some?
        invariant Valid() && idx == Index(s, key)
        invariant goal == Then(b, Render(SubtitleSegs(s, key), dirs, table))
        decreases |s|
      {
        var j := idx.value + |key|;
        var head, list := s[..j], s[j..];
        ghost var more := SubtitleSegs(AfterList(list), key);
        SubtitleUnfold(s, key, j);
        SubtitleOpens(s, key, head, list, more, b, dirs, table);
        b := b + head;
        b, s := RewriteList(b, list, more, goal);
        idx := Index(s, key);
      }
      SubtitleEnds(s, key, b, dirs, table);
      b := b + s;
    }

    /** The inner loop: the option list at the front of `list`, appended to `b0`. */
    method RewriteList(b0: string, list: string, ghost more: Segs, ghost goal: Out) returns (b: string, s: string)
      requires Valid() && goal == Then(b0, Render(ListSegs(list, true, more), dirs, table))
      modifies this
      ensures Valid()
      ensures s == AfterList(list)
      ensures goal == Then(b, Render(more, dirs, table))
    {
      b, s := b0, list;
      var first := true;
      var open := true;
      while open
        invariant Valid()
        invariant open ==> AfterList(s) == AfterList(list)
        invariant open ==> goal == Then(b, Render(ListSegs(s, first, more), dirs, table))
        invariant !open ==> s == AfterList(list) && goal == Then(b, Render(more, dirs, table))
        decreases open, |s|
      {
        var val, rest := CutFilterValue(s);
        ghost var next := if rest != "" && rest[0] == ':' then Lit(":", ListSegs(rest[1..], false, more)) else more;
        ListOpens(s, first, more);
        b := RewriteOption(b, val, first, next, goal);
        first := false;
        s := rest;
        if s == "" || s[0] != ':' {
          open := false;
        } else {
          ThenLit(b, ":", ListSegs(rest[1..], false, more), dirs, table);
          b := b + ":";
          s := s[1..];
        }
      }
    }

    /** The switch on one option. */
    method RewriteOption(b0: string, val: string, first: bool, ghost next: Segs, ghost goal: Out) returns (b: string)
      requires Valid() && goal == Then(b0, Render(OptionSegs(val, first, next), dirs, table))
      modifies this
      ensures Valid() && goal == Then(b, Render(next, dirs, table))
    {
      var k := KeyOf(val);
      if k.Some? && IsFileKey(k.value) {
        OptionFile(b0, val, k.value, first, next, dirs, table);
        var v := val[|k.value| + 1..];
        var ph := SpoolRef(v);
        b := b0 + (k.value + "=") + ph;
      } else if k.None? && first && val != "" {
        ThenRef(b0, val, next, dirs, table);
        var ph := SpoolRef(val);
        b := b0 + ph;
      } else {
        ThenLit(b0, val, next, dirs, table);
        b := b0 + val;
      }
    }

    /** rewriteKeyValues */
    method RewriteKeyValues(text: string, key: string) returns (b: string)
      requires Valid() && key != ""
      modifies this
      ensures Valid()
      ensures Out(b, table) == Render(KeySegs(text, key), dirs, old(table))
    {
      var s := text;
      b := "";
      ghost var goal := Render(KeySegs(text, key), dirs, table);
      var idx := Index(s, key);
      while idx.Some?
        invariant Valid() && idx == Index(s, key)
        invariant goal == Then(b, Render(KeySegs(s, key), dirs, table))
        decreases |s|
      {
        var j := idx.value + |key|;
        var val, rest := CutFilterValue(s[j..]);
        ghost var more := KeySegs(rest, key);
        KeyOpens(s, key, j, val, rest, b, dirs, table);
        b := RewriteValue(b + s[..j], val, more, goal);
        s := rest;
        idx := Index(s, key);
      }
      KeyStops(s, key, b, dirs, table);
      b := b + s;
    }

    /** The branch on one value. */
    method RewriteValue(b0: string, val: string, ghost more: Segs, ghost goal: Out) returns (b: string)
      requires Valid() && goal == Then(b0, Render(ValueSegs(val, more), dirs, table))
      modifies this
      ensures Valid() && goal == Then(b, Render(more, dirs, table))
    {
      if val == "" || MEDIA_OPEN <= val {
        ThenLit(b0, val, more, dirs, table);
        b := b0 + val;
      } else {
        ThenRef(b0, val, more, dirs, table);
        var ph := SpoolRef(val);
        b := b0 + ph;
      }
    }

    method RewriteFilterRefs(s: string) returns (r: string)
      requires Valid()
      modifies this
      ensures Valid()
      ensures Out(r, table) == FilterRefs(s, dirs, old(table))
    {
      if !Contains(s, SUBTITLES) && !Contains(s, FONTSDIR) {
        return s;
      }
      r := RewriteSubtitlesOpts(s, SUBTITLES);
      r := RewriteKeyValues(r, FONTSDIR);
    }

    method RewriteToken(tok: string) returns (r: string)
      requires Valid()
      modifies this
      ensures Valid()
      ensures Out(r, table) == Token(tok, dirs, old(table))
    {
      var a := ReplaceAll(tok, PMS_URL_PREFIX, PMS);
      a := RewriteFilterRefs(a);
      if dirs.session + "/" <= a {
        return OUTDIR + a[|dirs.session|..];
      }
      if dirs.plex + "/" <= a {
        return PLEXDIR + a[|dirs.plex|..];
      }
      return a;
    }

    method RewriteInput(v: string) returns (r: string)
      requires Valid()
      modifies this
      ensures Valid()
      ensures Out(r, table) == Input(v, dirs, old(table))
    {
      if Contains(v, PMS_URL_PREFIX) {
        return ReplaceAll(v, PMS_URL_PREFIX, PMS);
      }
      if Contains(v, "://") {
        return v;
      }
      var abs := Absolute(dirs.session, v);
      var mode := Stream;
      if UnderSession(abs, dirs) {
        mode := Spool;
      }
      r := AddMedia(abs, mode);
    }

    /** rewriteArgs: `-i` takes the next argument with it. */
    method RewriteArgs(args: seq<string>) returns (out: seq<string>)
      requires Valid()
      modifies this
      ensures Valid()
      ensures Outs(out, table) == Args(args, dirs, old(table))
    {
      out := [];
      ghost var goal := Args(args, dirs, table);
      var i := 0;
      while i < |args|
        invariant Valid() && i <= |args|
        invariant goal == Before(out, Args(args[i..], dirs, table))
      {
        var a := args[i];
        ghost var tail := args[i..];
        if a == "-i" && i + 1 < |args| {
          assert tail[2..] == args[i + 2..];
          ghost var t0 := table;
          var v := RewriteInput(args[i + 1]);
          ArgsInput(out, tail, dirs, t0, goal);
          out := out + [a, v];
          i := i + 2;
        } else {
          assert tail[1..] == args[i + 1..];
          ghost var t0 := table;
          var t := RewriteToken(a);
          ArgsToken(out, tail, dirs, t0, goal);
          out := out + [t];
          i := i + 1;
        }
      }
    }
  }
}
