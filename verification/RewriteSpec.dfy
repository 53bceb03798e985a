/**
 * What the shim makes of a transcoder argv (internal/shim/rewrite.go), as functions. A table lists the
 * media references handed out so far; the placeholder of a reference is its index in that table.
 */
module RewriteSpec {
  import opened Prelude
  import opened Text
  import opened Paths
  import opened Placeholders
  import opened Filters

  datatype Mode = Stream | Spool

  /** A media reference: the signed URL of the source stands for the path it names. */
  datatype Media = Media(path: string, mode: Mode)

  /** The two directories whose paths are recognised, both cleaned. */
  datatype Dirs = Dirs(session: string, plex: string)

  /** A rewritten piece of text, and the table after rewriting it. */
  datatype Out = Out(text: string, table: seq<Media>)

  datatype Outs = Outs(tokens: seq<string>, table: seq<Media>)

  function Find(table: seq<Media>, m: Media): (i: nat)
    requires m in table
    ensures i < |table| && table[i] == m
  {
    if table[0] == m then 0 else 1 + Find(table[1..], m)
  }

  function Add(table: seq<Media>, m: Media): (t: seq<Media>)
    ensures table <= t && m in t
  {
    if m in table then table else table + [m]
  }

  function Placeholder(table: seq<Media>, m: Media): string
    requires m in table
  {
    MediaPlaceholder(Find(table, m))
  }

  function SpoolOf(v: string, dirs: Dirs): Media {
    Media(Absolute(dirs.session, Unescape(v)), Spool)
  }

  /** Literal pieces stay; references become placeholders. */
  function Render(segs: Segs, dirs: Dirs, table: seq<Media>): Out {
    match segs
    case End => Out("", table)
    case Lit(text, more) =>
      var r := Render(more, dirs, table);
      Out(text + r.text, r.table)
    case Ref(text, more) =>
      var m := SpoolOf(text, dirs);
      var t := Add(table, m);
      var r := Render(more, dirs, t);
      Out(Placeholder(t, m) + r.text, r.table)
  }

  function FilterRefs(s: string, dirs: Dirs, table: seq<Media>): Out {
    if !Contains(s, SUBTITLES) && !Contains(s, FONTSDIR) then Out(s, table)
    else
      var o := Render(SubtitleSegs(s, SUBTITLES), dirs, table);
      Render(KeySegs(o.text, FONTSDIR), dirs, o.table)
  }

  /** Where a path of the master has to be found on the worker. */
  function SwapDir(a: string, dirs: Dirs): string {
    if dirs.session + "/" <= a then OUTDIR + a[|dirs.session|..]
    else if dirs.plex + "/" <= a then PLEXDIR + a[|dirs.plex|..]
    else a
  }

  function Token(a: string, dirs: Dirs, table: seq<Media>): Out {
    var o := FilterRefs(ReplaceAll(a, PMS_URL_PREFIX, PMS), dirs, table);
    Out(SwapDir(o.text, dirs), o.table)
  }

  predicate UnderSession(abs: string, dirs: Dirs) {
    abs == dirs.session || dirs.session + "/" <= abs
  }

  function InputOf(v: string, dirs: Dirs): Media {
    var abs := Absolute(dirs.session, v);
    Media(abs, if UnderSession(abs, dirs) then Spool else Stream)
  }

  predicate IsFileInput(v: string) {
    !Contains(v, PMS_URL_PREFIX) && !Contains(v, "://")
  }

  function Input(v: string, dirs: Dirs, table: seq<Media>): Out {
    if Contains(v, PMS_URL_PREFIX) then Out(ReplaceAll(v, PMS_URL_PREFIX, PMS), table)
    else if Contains(v, "://") then Out(v, table)
    else
      var t := Add(table, InputOf(v, dirs));
      Out(Placeholder(t, InputOf(v, dirs)), t)
  }

  function Args(args: seq<string>, dirs: Dirs, table: seq<Media>): (r: Outs)
    ensures |r.tokens| == |args|
    decreases |args|
  {
    if args == [] then Outs([], table)
    else if args[0] == "-i" && |args| > 1 then
      var o := Input(args[1], dirs, table);
      var r := Args(args[2..], dirs, o.table);
      Outs([args[0], o.text] + r.tokens, r.table)
    else
      var o := Token(args[0], dirs, table);
      var r := Args(args[1..], dirs, o.table);
      Outs([o.text] + r.tokens, r.table)
  }

  // ---- the table ----

  lemma {:induction false} FindStable(t: seq<Media>, u: seq<Media>, m: Media)
    requires m in t && t <= u
    ensures Find(u, m) == Find(t, m)
    decreases |t|
  {
    if t[0] != m {
      FindStable(t[1..], u[1..], m);
    }
  }

  /** Growing the table keeps the placeholders handed out before. */
  lemma PlaceholderStable(t: seq<Media>, u: seq<Media>, m: Media)
    requires m in t && t <= u
    ensures Placeholder(u, m) == Placeholder(t, m)
  {
    FindStable(t, u, m);
  }

  lemma AddKeeps(table: seq<Media>, m: Media)
    requires NoDup(table)
    ensures NoDup(Add(table, m))
  {
    var t := Add(table, m);
    forall i, j | 0 <= i < j < |t|
      ensures t[i] != t[j]
    {
      if j == |table| {
        assert t[i] in table;
      }
    }
  }

  lemma {:induction false} RenderGrows(segs: Segs, dirs: Dirs, table: seq<Media>)
    requires NoDup(table)
    ensures table <= Render(segs, dirs, table).table && NoDup(Render(segs, dirs, table).table)
  {
    match segs {
      case End =>
      case Lit(_, more) => RenderGrows(more, dirs, table);
      case Ref(text, more) =>
        AddKeeps(table, SpoolOf(text, dirs));
        RenderGrows(more, dirs, Add(table, SpoolOf(text, dirs)));
    }
  }

  lemma FilterGrows(s: string, dirs: Dirs, table: seq<Media>)
    requires NoDup(table)
    ensures table <= FilterRefs(s, dirs, table).table && NoDup(FilterRefs(s, dirs, table).table)
  {
    var o := Render(SubtitleSegs(s, SUBTITLES), dirs, table);
    RenderGrows(SubtitleSegs(s, SUBTITLES), dirs, table);
    RenderGrows(KeySegs(o.text, FONTSDIR), dirs, o.table);
  }

  lemma TokenGrows(a: string, dirs: Dirs, table: seq<Media>)
    requires NoDup(table)
    ensures table <= Token(a, dirs, table).table && NoDup(Token(a, dirs, table).table)
  {
    FilterGrows(ReplaceAll(a, PMS_URL_PREFIX, PMS), dirs, table);
  }

  lemma InputGrows(v: string, dirs: Dirs, table: seq<Media>)
    requires NoDup(table)
    ensures table <= Input(v, dirs, table).table && NoDup(Input(v, dirs, table).table)
  {
    AddKeeps(table, InputOf(v, dirs));
  }

  /** Rewriting only ever appends to the table, and lists no reference twice. */
  lemma {:induction false} ArgsGrow(args: seq<string>, dirs: Dirs, table: seq<Media>)
    requires NoDup(table)
    ensures table <= Args(args, dirs, table).table && NoDup(Args(args, dirs, table).table)
    decreases |args|
  {
    if args == [] {
    } else if args[0] == "-i" && |args| > 1 {
      InputGrows(args[1], dirs, table);
      ArgsGrow(args[2..], dirs, Input(args[1], dirs, table).table);
    } else {
      TokenGrows(args[0], dirs, table);
      ArgsGrow(args[1..], dirs, Token(args[0], dirs, table).table);
    }
  }

  /** A segmentation printed with one fixed table. */
  function Printed(segs: Segs, dirs: Dirs, table: seq<Media>): string
    requires RefsIn(segs, dirs, table)
  {
    match segs
    case End => ""
    case Lit(text, more) => text + Printed(more, dirs, table)
    case Ref(text, more) => Placeholder(table, SpoolOf(text, dirs)) + Printed(more, dirs, table)
  }

  predicate RefsIn(segs: Segs, dirs: Dirs, table: seq<Media>) {
    match segs
    case End => true
    case Lit(_, more) => RefsIn(more, dirs, table)
    case Ref(text, more) => SpoolOf(text, dirs) in table && RefsIn(more, dirs, table)
  }

  /**
   * Only references change: the text that comes out is the segmentation of the input with the same
   * literal pieces, and each reference printed as the placeholder of its unescaped absolute path in
   * the final table.
   */
  lemma {:induction false} RenderPrints(segs: Segs, dirs: Dirs, table: seq<Media>, final: seq<Media>)
    requires NoDup(table) && Render(segs, dirs, table).table <= final
    ensures RefsIn(segs, dirs, final)
    ensures Render(segs, dirs, table).text == Printed(segs, dirs, final)
  {
    match segs {
      case End =>
      case Lit(_, more) => RenderPrints(more, dirs, table, final);
      case Ref(text, more) =>
        var m := SpoolOf(text, dirs);
        var t := Add(table, m);
        AddKeeps(table, m);
        RenderPrints(more, dirs, t, final);
        RenderGrows(more, dirs, t);
        PlaceholderStable(t, final, m);
    }
  }
}
