/**
 * The filter-string scanner of the shim (internal/shim/rewrite.go): where an option value ends, how
 * backslash escapes are undone, and which parts of a filter string are file references.
 */
module Filters {
  import opened Prelude
  import opened Text

  predicate IsMeta(c: char) {
    c == ':' || c == ',' || c == ';' || c == '[' || c == ']'
  }

  /** Length of the value at the front of `s`: up to the first metacharacter not behind a backslash. */
  function CutLength(s: string): (n: nat)
    ensures n <= |s|
    ensures n < |s| ==> IsMeta(s[n])
    decreases |s|
  {
    if s == "" then 0
    else if s[0] == '\\' then
      if |s| == 1 then 1 else 2 + CutLength(s[2..])
    else if IsMeta(s[0]) then 0
    else 1 + CutLength(s[1..])
  }

  /** cutFilterValue: the loop skips the character after each backslash. */
  method CutFilterValue(s: string) returns (val: string, rest: string)
    ensures val == s[..CutLength(s)] && rest == s[CutLength(s)..]
  {
    var i := 0;
    while i < |s|
      invariant i <= |s| ==> CutLength(s) == i + CutLength(s[i..])
      invariant i > |s| ==> CutLength(s) == |s|
      decreases |s| - i
    {
      if s[i] == '\\' {
        assert i + 2 <= |s| ==> s[i..][2..] == s[i + 2..];
        i := i + 1;
      } else if IsMeta(s[i]) {
        return s[..i], s[i..];
      } else {
        assert s[i..][1..] == s[i + 1..];
      }
      i := i + 1;
    }
    return s, "";
  }

  /** unescapeFilter: every backslash with a character after it is dropped, and that character kept. */
  function Unescape(s: string): string
    decreases |s|
  {
    if s == "" then ""
    else if s[0] == '\\' && |s| > 1 then [s[1]] + Unescape(s[2..])
    else [s[0]] + Unescape(s[1..])
  }

  lemma {:induction false} UnescapePlain(s: string)
    requires '\\' !in s
    ensures Unescape(s) == s
    decreases |s|
  {
    if s != "" {
      UnescapePlain(s[1..]);
    }
  }

  lemma {:induction false} UnescapeLacks(s: string, c: char)
    requires c !in s
    ensures c !in Unescape(s)
    decreases |s|
  {
    if s != "" {
      if s[0] == '\\' && |s| > 1 {
        UnescapeLacks(s[2..], c);
      } else {
        UnescapeLacks(s[1..], c);
      }
    }
  }

  method UnescapeFilter(s: string) returns (r: string)
    ensures r == Unescape(s)
  {
    if '\\' !in s {
      UnescapePlain(s);
      return s;
    }
    r := "";
    var i := 0;
    while i < |s|
      invariant i <= |s|
      invariant r + Unescape(s[i..]) == Unescape(s)
    {
      ghost var tail := s[i..];
      if s[i] == '\\' && i + 1 < |s| {
        assert tail[2..] == s[i + 2..];
        i := i + 1;
      } else {
        assert tail[1..] == s[i + 1..];
      }
      assert Unescape(tail) == [s[i]] + Unescape(s[i + 1..]);
      Assoc(r, [s[i]], Unescape(s[i + 1..]));
      r := r + [s[i]];
      i := i + 1;
    }
  }

  // ---- escaping, the caller's side ----

  /** A path as a filter string must spell it: every metacharacter and backslash escaped. */
  function Escape(path: string): string {
    if path == "" then ""
    else (if path[0] == '\\' || IsMeta(path[0]) then ['\\', path[0]] else [path[0]]) + Escape(path[1..])
  }

  /** A value followed by the end of the string or by a metacharacter. */
  predicate Ends(rest: string) {
    rest == "" || IsMeta(rest[0])
  }

  /** Text that the scan reads to its end: every metacharacter escaped, and no backslash left over. */
  predicate Whole(s: string)
    decreases |s|
  {
    if s == "" then true
    else if s[0] == '\\' then |s| > 1 && Whole(s[2..])
    else !IsMeta(s[0]) && Whole(s[1..])
  }

  lemma {:induction false} EscapeWhole(path: string)
    ensures Whole(Escape(path))
    decreases |path|
  {
    if path != "" {
      EscapeWhole(path[1..]);
      var k := if path[0] == '\\' || IsMeta(path[0]) then 2 else 1;
      assert Escape(path)[k..] == Escape(path[1..]);
    }
  }

  lemma {:induction false} CutWhole(s: string, rest: string)
    requires Whole(s) && Ends(rest)
    ensures CutLength(s + rest) == |s|
    decreases |s|
  {
    if s == "" {
      assert s + rest == rest;
    } else {
      var k := if s[0] == '\\' then 2 else 1;
      CutWhole(s[k..], rest);
      assert (s + rest)[k..] == s[k..] + rest;
    }
  }

  /** An escaped path is cut out whole, whatever metacharacters it holds. */
  lemma CutEscaped(path: string, rest: string)
    requires Ends(rest)
    ensures CutLength(Escape(path) + rest) == |Escape(path)|
  {
    EscapeWhole(path);
    CutWhole(Escape(path), rest);
  }

  /** ... and comes back as it was. */
  lemma {:induction false} UnescapeEscape(path: string)
    ensures Unescape(Escape(path)) == path
    decreases |path|
  {
    if path != "" {
      UnescapeEscape(path[1..]);
      var e := Escape(path);
      if path[0] == '\\' || IsMeta(path[0]) {
        assert e[2..] == Escape(path[1..]);
      } else {
        assert e[1..] == Escape(path[1..]);
      }
    }
  }

  lemma {:induction false} EscapeHas(path: string, c: char)
    ensures c != '\\' ==> (c in Escape(path) <==> c in path)
    decreases |path|
  {
    if path != "" {
      EscapeHas(path[1..], c);
      assert path == [path[0]] + path[1..];
    }
  }

  // ---- segmentation ----

  /** A filter string taken apart into literal text and file references (still escaped). */
  datatype Segs = End | Lit(text: string, more: Segs) | Ref(text: string, more: Segs)

  function Source(segs: Segs): string {
    if segs.End? then "" else segs.text + Source(segs.more)
  }

  const SUBTITLES: string := "subtitles="
  const FONTSDIR: string := "fontsdir="
  const MEDIA_OPEN: string := "{{MEDIA"

  predicate IsFileKey(k: string) {
    k == "filename" || k == "f" || k == "fontsdir"
  }

  /** strings.Cut at the first '='. */
  function KeyOf(val: string): Option<string> {
    var e := IndexByte(val, '=');
    if e.Some? then Some(val[..e.value]) else None
  }

  /** One option of a subtitles= list: a file option, a bare path in first place, or anything else. */
  function OptionSegs(val: string, first: bool, more: Segs): Segs {
    var k := KeyOf(val);
    if k.Some? && IsFileKey(k.value) then Lit(k.value + "=", Ref(val[|k.value| + 1..], more))
    else if k.None? && first && val != "" then Ref(val, more)
    else Lit(val, more)
  }

  /** Length of the option list at the front of `s`, which continues only across ':'. */
  function ListLength(s: string): (n: nat)
    ensures n <= |s|
    decreases |s|
  {
    var n := CutLength(s);
    if n < |s| && s[n] == ':' then n + 1 + ListLength(s[n + 1..]) else n
  }

  function AfterList(s: string): (r: string)
    ensures |r| <= |s|
  {
    s[ListLength(s)..]
  }

  function ListSegs(s: string, first: bool, more: Segs): Segs
    decreases |s|
  {
    var n := CutLength(s);
    if n < |s| && s[n] == ':' then OptionSegs(s[..n], first, Lit(":", ListSegs(s[n + 1..], false, more)))
    else OptionSegs(s[..n], first, more)
  }

  /** What rewriteSubtitlesOpts treats as what; its `key` is SUBTITLES. */
  function SubtitleSegs(s: string, key: string): Segs
    requires key != ""
    decreases |s|
  {
    var idx := Index(s, key);
    if idx.None? then Lit(s, End)
    else
      var list := s[idx.value + |key|..];
      Lit(s[..idx.value + |key|], ListSegs(list, true, SubtitleSegs(AfterList(list), key)))
  }

  lemma SubtitleUnfold(s: string, key: string, j: nat)
    requires key != "" && Index(s, key).Some? && j == Index(s, key).value + |key|
    ensures SubtitleSegs(s, key) == Lit(s[..j], ListSegs(s[j..], true, SubtitleSegs(AfterList(s[j..]), key)))
  {
  }

  /** The value after a standalone key: a file reference unless it is empty or a placeholder already. */
  function ValueSegs(val: string, more: Segs): Segs {
    if val == "" || MEDIA_OPEN <= val then Lit(val, more) else Ref(val, more)
  }

  /** What rewriteKeyValues treats as what. */
  function KeySegs(s: string, key: string): Segs
    requires key != ""
    decreases |s|
  {
    var idx := Index(s, key);
    if idx.None? then Lit(s, End)
    else
      var tail := s[idx.value + |key|..];
      var n := CutLength(tail);
      Lit(s[..idx.value + |key|], ValueSegs(tail[..n], KeySegs(tail[n..], key)))
  }

  lemma KeyUnfold(s: string, key: string, j: nat)
    requires key != "" && Index(s, key).Some? && j == Index(s, key).value + |key|
    ensures KeySegs(s, key) == Lit(s[..j], ValueSegs(s[j..][..CutLength(s[j..])], KeySegs(s[j..][CutLength(s[j..])..], key)))
  {
  }

  lemma ThreeParts(s: string, i: nat, n: nat)
    requires i + n <= |s|
    ensures s == s[..i] + (s[i..][..n] + s[i..][n..])
  {
  }

  /** One round of the inner loop. */
  lemma ListOpens(s: string, first: bool, more: Segs)
    ensures var val, rest := s[..CutLength(s)], s[CutLength(s)..];
            var goesOn := rest != "" && rest[0] == ':';
            && ListSegs(s, first, more)
            == OptionSegs(val, first, if goesOn then Lit(":", ListSegs(rest[1..], false, more)) else more)
            && AfterList(s) == (if goesOn then AfterList(rest[1..]) else rest)
  {
    var n := CutLength(s);
    if n < |s| && s[n] == ':' {
      assert s[n..][1..] == s[n + 1..];
      assert AfterList(s) == s[n + 1..][ListLength(s[n + 1..])..];
    }
  }

  lemma OptionSource(val: string, first: bool, more: Segs)
    ensures Source(OptionSegs(val, first, more)) == val + Source(more)
  {
    var k := KeyOf(val);
    if k.Some? && IsFileKey(k.value) {
      assert val == k.value + "=" + val[|k.value| + 1..];
    }
  }

  lemma ListFront(s: string, n: nat, k: nat)
    requires n + 1 + k <= |s| && s[n] == ':'
    ensures s[..n + 1 + k] == s[..n] + ":" + s[n + 1..][..k]
  {
  }

  lemma {:induction false} ListSource(s: string, first: bool, more: Segs)
    ensures Source(ListSegs(s, first, more)) == s[..ListLength(s)] + Source(more)
    decreases |s|
  {
    var n := CutLength(s);
    if n < |s| && s[n] == ':' {
      ListSource(s[n + 1..], false, more);
      ListSourceStep(s, first, more);
    } else {
      OptionSource(s[..n], first, more);
    }
  }

  lemma ListSourceStep(s: string, first: bool, more: Segs)
    requires var n := CutLength(s); n < |s| && s[n] == ':'
    requires var tail := s[CutLength(s) + 1..];
             Source(ListSegs(tail, false, more)) == tail[..ListLength(tail)] + Source(more)
    ensures Source(ListSegs(s, first, more)) == s[..ListLength(s)] + Source(more)
  {
    var n := CutLength(s);
    var tail := s[n + 1..];
    ListSplits(s);
    OptionThen(s[..n], first, ListSegs(tail, false, more), tail[..ListLength(tail)], Source(more));
  }

  lemma ListSplits(s: string)
    requires var n := CutLength(s); n < |s| && s[n] == ':'
    ensures
      var n := CutLength(s);
      var tail := s[n + 1..];
      s[..ListLength(s)] == s[..n] + ":" + tail[..ListLength(tail)]
  {
    var n := CutLength(s);
    ListFront(s, n, ListLength(s[n + 1..]));
  }

  /** An option, the ':' behind it, and the rest of the list. */
  lemma OptionThen(val: string, first: bool, list: Segs, front: string, rest: string)
    requires Source(list) == front + rest
    ensures Source(OptionSegs(val, first, Lit(":", list))) == val + ":" + front + rest
  {
    OptionSource(val, first, Lit(":", list));
    Regroup(val, ":", front, rest);
  }

  /** The pieces make up the text, so everything outside the references is kept as it is. */
  lemma {:induction false} SubtitleSource(s: string, key: string)
    requires key != ""
    ensures Source(SubtitleSegs(s, key)) == s
    decreases |s|
  {
    var idx := Index(s, key);
    if idx.Some? {
      var list := s[idx.value + |key|..];
      var rest := AfterList(list);
      SubtitleSource(rest, key);
      ListSource(list, true, SubtitleSegs(rest, key));
      ThreeParts(s, idx.value + |key|, ListLength(list));
    }
  }

  lemma {:induction false} KeySource(s: string, key: string)
    requires key != ""
    ensures Source(KeySegs(s, key)) == s
    decreases |s|
  {
    var idx := Index(s, key);
    if idx.Some? {
      var tail := s[idx.value + |key|..];
      var n := CutLength(tail);
      KeySource(tail[n..], key);
      ThreeParts(s, idx.value + |key|, n);
    }
  }

  // ---- which option lists are recognised ----

  /** One option as the media server writes it. */
  datatype Opt =
    | Bare(path: string)
    | File(key: string, path: string)
    | Other(text: string)

  function PrintOpt(o: Opt): string {
    match o
    case Bare(path) => Escape(path)
    case File(key, path) => key + "=" + Escape(path)
    case Other(text) => text
  }

  /** A list is printed with ':' between its options. */
  function PrintOpts(opts: seq<Opt>): string {
    if opts == [] then ""
    else if |opts| == 1 then PrintOpt(opts[0])
    else PrintOpt(opts[0]) + ":" + PrintOpts(opts[1..])
  }

  /** A bare path stands first and holds no '='; other options have a different key, and their metacharacters escaped. */
  predicate OptOk(o: Opt, first: bool) {
    match o
    case Bare(path) => first && path != "" && '=' !in path
    case File(key, path) => key in {"filename", "f", "fontsdir"}
    case Other(text) =>
      && Whole(text)
      && (KeyOf(text).Some? ==> KeyOf(text).value !in {"filename", "f", "fontsdir"})
      && (KeyOf(text).None? ==> !first || text == "")
  }

  predicate OptsOk(opts: seq<Opt>, first: bool) {
    if opts == [] then true else OptOk(opts[0], first) && OptsOk(opts[1..], false)
  }

  /** The pieces an option is meant to have. */
  function OptSegs(o: Opt, more: Segs): Segs {
    match o
    case Bare(path) => Ref(Escape(path), more)
    case File(key, path) => Lit(key + "=", Ref(Escape(path), more))
    case Other(text) => Lit(text, more)
  }

  function OptsSegs(opts: seq<Opt>, more: Segs): Segs {
    if opts == [] then more
    else if |opts| == 1 then OptSegs(opts[0], more)
    else OptSegs(opts[0], Lit(":", OptsSegs(opts[1..], more)))
  }

  lemma CutFile(key: string, path: string, rest: string)
    requires IsFileKey(key) && Ends(rest)
    ensures CutLength(key + "=" + Escape(path) + rest) == |key + "=" + Escape(path)|
  {
    CutEscaped(path, rest);
    CutAfter(key + "=", Escape(path) + rest);
    Assoc(key + "=", Escape(path), rest);
  }

  lemma CutOption(o: Opt, first: bool, rest: string)
    requires OptOk(o, first) && Ends(rest)
    ensures CutLength(PrintOpt(o) + rest) == |PrintOpt(o)|
  {
    match o {
      case Bare(path) => CutEscaped(path, rest);
      case File(key, path) => CutFile(key, path, rest);
      case Other(text) => CutWhole(text, rest);
    }
  }

  /** Plain characters in front are part of the value. */
  lemma {:induction false} CutAfter(pre: string, s: string)
    requires forall i :: 0 <= i < |pre| ==> pre[i] != '\\' && !IsMeta(pre[i])
    ensures CutLength(pre + s) == |pre| + CutLength(s)
    decreases |pre|
  {
    if pre == "" {
      assert pre + s == s;
    } else {
      CutAfter(pre[1..], s);
      assert (pre + s)[1..] == pre[1..] + s;
    }
  }

  lemma FileRecognised(key: string, path: string, first: bool, more: Segs)
    requires OptOk(File(key, path), first)
    ensures OptionSegs(PrintOpt(File(key, path)), first, more) == OptSegs(File(key, path), more)
  {
    IndexByteAt(key, '=', Escape(path));
    var val := key + "=" + Escape(path);
    assert val[..|key|] == key && val[|key| + 1..] == Escape(path);
  }

  lemma OptionRecognised(o: Opt, first: bool, more: Segs)
    requires OptOk(o, first)
    ensures OptionSegs(PrintOpt(o), first, more) == OptSegs(o, more)
  {
    match o {
      case Bare(path) =>
        EscapeHas(path, '=');
        assert Escape(path) != "";
      case File(key, path) => FileRecognised(key, path, first, more);
      case Other(text) =>
    }
  }

  lemma ListLast(val: string, rest: string, first: bool, more: Segs)
    requires CutLength(val + rest) == |val| && (rest == "" || rest[0] != ':')
    ensures ListSegs(val + rest, first, more) == OptionSegs(val, first, more)
    ensures ListLength(val + rest) == |val|
  {
    assert (val + rest)[..|val|] == val;
  }

  lemma ListNext(val: string, tail: string, first: bool, more: Segs)
    requires CutLength(val + (":" + tail)) == |val|
    ensures ListSegs(val + (":" + tail), first, more) == OptionSegs(val, first, Lit(":", ListSegs(tail, false, more)))
    ensures ListLength(val + (":" + tail)) == |val| + 1 + ListLength(tail)
  {
    var s := val + (":" + tail);
    assert s[..|val|] == val && s[|val| + 1..] == tail;
  }

  lemma PrintTwo(opts: seq<Opt>, rest: string)
    requires |opts| > 1
    ensures PrintOpts(opts) + rest == PrintOpt(opts[0]) + (":" + (PrintOpts(opts[1..]) + rest))
    ensures |PrintOpts(opts)| == |PrintOpt(opts[0])| + 1 + |PrintOpts(opts[1..])|
  {
    Regroup(PrintOpt(opts[0]), ":", PrintOpts(opts[1..]), rest);
  }

  /** Every file of a well-formed option list is recognised, with its path intact, and nothing else is. */
  lemma {:induction false} ListRecognised(opts: seq<Opt>, first: bool, rest: string, more: Segs)
    requires opts != [] && OptsOk(opts, first)
    requires rest == "" || (IsMeta(rest[0]) && rest[0] != ':')
    ensures ListSegs(PrintOpts(opts) + rest, first, more) == OptsSegs(opts, more)
    ensures ListLength(PrintOpts(opts) + rest) == |PrintOpts(opts)|
    decreases |opts|
  {
    var o := opts[0];
    if |opts| == 1 {
      CutOption(o, first, rest);
      OptionRecognised(o, first, more);
      ListLast(PrintOpt(o), rest, first, more);
    } else {
      var tail := PrintOpts(opts[1..]) + rest;
      PrintTwo(opts, rest);
      CutOption(o, first, ":" + tail);
      ListRecognised(opts[1..], false, rest, more);
      OptionRecognised(o, first, Lit(":", OptsSegs(opts[1..], more)));
      ListNext(PrintOpt(o), tail, first, more);
    }
  }

  lemma SubtitleStep(pre: string, list: string, key: string)
    requires key != "" && Index(pre + key + list, key) == Some(|pre|)
    ensures SubtitleSegs(pre + key + list, key)
         == Lit(pre + key, ListSegs(list, true, SubtitleSegs(AfterList(list), key)))
  {
    var s := pre + key + list;
    assert s[..|pre| + |key|] == pre + key && s[|pre| + |key|..] == list;
  }

  /** The same for a whole filter behind any text that holds no earlier one; scanning goes on after it. */
  lemma FilterRecognised(pre: string, opts: seq<Opt>, rest: string, key: string)
    requires key != "" && Index(pre + key + (PrintOpts(opts) + rest), key) == Some(|pre|)
    requires opts != [] && OptsOk(opts, true)
    requires rest == "" || (IsMeta(rest[0]) && rest[0] != ':')
    ensures SubtitleSegs(pre + key + (PrintOpts(opts) + rest), key)
         == Lit(pre + key, OptsSegs(opts, SubtitleSegs(rest, key)))
  {
    var list := PrintOpts(opts) + rest;
    SubtitleStep(pre, list, key);
    ListRecognised(opts, true, rest, SubtitleSegs(rest, key));
    assert list[|PrintOpts(opts)|..] == rest;
  }
}
