/** The filtergraph rewrite of the worker (internal/workerd/tonemap.go). */
module Tonemap {
  import opened Prelude
  import opened Text
  import opened Decimal

  /** One chain of a filtergraph, with one input and one output label. */
  datatype Chain = Chain(source: string, sink: string, filters: seq<string>)

  function LastIndexByte(s: string, c: char): (r: Option<nat>)
    ensures r.Some? ==> r.value < |s| && s[r.value] == c && c !in s[r.value + 1..]
    ensures r.None? ==> c !in s
    decreases |s|
  {
    if s == "" then None
    else if s[|s| - 1] == c then Some(|s| - 1)
    else
      var r := LastIndexByte(s[..|s| - 1], c);
      assert s == s[..|s| - 1] + [s[|s| - 1]];
      r
  }

  predicate NoBracket(s: string) {
    '[' !in s && ']' !in s
  }

  /** parseFGChain, after the input label. */
  function ParseTail(source: string, rest: string): Option<Chain> {
    if rest == "" || rest[|rest| - 1] != ']' then None
    else
      var open := LastIndexByte(rest, '[');
      if open.None? then None
      else
        var body, sink := rest[..open.value], rest[open.value + 1..|rest| - 1];
        if source == "" || sink == "" || body == "" || !NoBracket(body) then None
        else Some(Chain(source, sink, Split(body, ',')))
  }

  /** parseFGChain */
  function ParseChain(s: string): Option<Chain> {
    if s == "" || s[0] != '[' then None
    else
      var end := IndexByte(s, ']');
      if end.None? then None else ParseTail(s[1..end.value], s[end.value + 1..])
  }

  function Pad(name: string): string {
    "[" + name + "]"
  }

  function PrintChain(c: Chain): string {
    Pad(c.source) + (Join(c.filters, ',') + Pad(c.sink))
  }

  /** What a parsed chain is made of. */
  predicate ChainOk(c: Chain) {
    && c.source != "" && ']' !in c.source
    && c.sink != "" && '[' !in c.sink
    && c.filters != [] && Join(c.filters, ',') != ""
    && forall i :: 0 <= i < |c.filters| ==> ',' !in c.filters[i] && NoBracket(c.filters[i])
  }

  predicate IsUint(s: string) {
    s != "" && AllDigits(s)
  }

  predicate IsVideoInputLabel(pad: string) {
    var parts := Split(pad, ':');
    if |parts| == 2 then IsUint(parts[0]) && (parts[1] == "v" || IsUint(parts[1]))
    else |parts| == 3 && IsUint(parts[0]) && parts[1] == "v" && IsUint(parts[2])
  }

  predicate IsPositiveInt(s: string) {
    Atoi(s).Some? && Atoi(s).value > 0
  }

  // ---- the dimensions of a scale filter ----

  const SCALE: string := "scale="

  /** strings.Cut at '='. */
  function KeyValue(kv: string): Option<(string, string)> {
    var e := IndexByte(kv, '=');
    if e.None? then None else Some((kv[..e.value], kv[e.value + 1..]))
  }

  predicate KnownOption(kv: string) {
    var c := KeyValue(kv);
    c.Some? && (c.value.0 == "w" || c.value.0 == "h" || c.value.0 == "force_divisible_by")
  }

  /** The value of the last option with this key, or "". */
  function LastValue(options: seq<string>, key: string): string {
    if options == [] then ""
    else
      var c := KeyValue(options[|options| - 1]);
      if c.Some? && c.value.0 == key then c.value.1 else LastValue(options[..|options| - 1], key)
  }

  /** A scale filter with known options only, whose last w and last h are positive numbers. */
  predicate ScalesTo(filter: string, w: string, h: string) {
    && SCALE <= filter
    && var options := Split(filter[|SCALE|..], ':');
       && (forall i :: 0 <= i < |options| ==> KnownOption(options[i]))
       && w == LastValue(options, "w") && h == LastValue(options, "h")
       && IsPositiveInt(w) && IsPositiveInt(h)
  }

  lemma LastValueNext(options: seq<string>, i: nat, key: string)
    requires i < |options| && KeyValue(options[i]).Some?
    ensures LastValue(options[..i + 1], key)
         == var c := KeyValue(options[i]).value; if c.0 == key then c.1 else LastValue(options[..i], key)
  {
    assert options[..i + 1][..i] == options[..i];
  }

  /** The option loop of scaleDims: a later option replaces an earlier one with the same key. */
  method ScaleOptions(options: seq<string>) returns (w: string, h: string, ok: bool)
    ensures ok <==> forall i :: 0 <= i < |options| ==> KnownOption(options[i])
    ensures ok ==> w == LastValue(options, "w") && h == LastValue(options, "h")
  {
    w, h := "", "";
    for i := 0 to |options|
      invariant forall j :: 0 <= j < i ==> KnownOption(options[j])
      invariant w == LastValue(options[..i], "w")
      invariant h == LastValue(options[..i], "h")
    {
      var c := KeyValue(options[i]);
      if c.None? {
        assert !KnownOption(options[i]);
        return "", "", false;
      }
      LastValueNext(options, i, "w");
      LastValueNext(options, i, "h");
      if c.value.0 == "w" {
        w := c.value.1;
      } else if c.value.0 == "h" {
        h := c.value.1;
      } else if c.value.0 != "force_divisible_by" {
        assert !KnownOption(options[i]);
        return "", "", false;
      }
    }
    assert options[..|options|] == options;
    ok := true;
  }

  /** scaleDims */
  method ScaleDims(filter: string) returns (w: string, h: string, ok: bool)
    ensures ok ==> ScalesTo(filter, w, h)
    ensures !ok ==> forall x, y :: !ScalesTo(filter, x, y)
  {
    if !(SCALE <= filter) {
      return "", "", false;
    }
    w, h, ok := ScaleOptions(Split(filter[|SCALE|..], ':'));
    if !ok || !IsPositiveInt(w) || !IsPositiveInt(h) {
      return "", "", false;
    }
  }

  // ---- the whole graph ----

  function Flatten(chains: seq<Chain>): seq<string> {
    if chains == [] then [] else Flatten(chains[..|chains| - 1]) + chains[|chains| - 1].filters
  }

  /** Each chain consumes exactly what the one before it produces. */
  predicate Linked(chains: seq<Chain>) {
    forall i :: 0 < i < |chains| ==> chains[i].source == chains[i - 1].sink
  }

  predicate Parsed(parts: seq<string>, chains: seq<Chain>) {
    && |chains| == |parts|
    && forall i :: 0 <= i < |parts| ==> ParseChain(parts[i]) == Some(chains[i])
  }

  const TONEMAP: string := "tonemap="

  predicate IsCurve(filter: string) {
    TONEMAP < filter && ':' !in filter[|TONEMAP|..] && '=' !in filter[|TONEMAP|..]
  }

  predicate FiveFilters(f: seq<string>, w: string, h: string) {
    && |f| == 5
    && ScalesTo(f[0], w, h)
    && f[1] == "format=p010"
    && IsCurve(f[2])
    && f[3] == "format=pix_fmts=nv12"
    && f[4] == "hwupload"
  }

  /** The software tonemap pipeline: one video input, chains linked in a line, the five filters. */
  predicate Known(text: string, chains: seq<Chain>, w: string, h: string) {
    && Parsed(Split(text, ';'), chains)
    && IsVideoInputLabel(chains[0].source)
    && Linked(chains)
    && FiveFilters(Flatten(chains), w, h)
  }

  /** The VAAPI chain that takes the pipeline's place, between the same labels. */
  function NativeChain(source: string, sink: string, w: string, h: string): Chain {
    Chain(source, sink, ["hwupload", ScaleNative(w, h), "tonemap_vaapi=format=nv12"])
  }

  function ScaleNative(w: string, h: string): string {
    "scale_vaapi=w=" + w + ":h=" + h
  }

  function NativeOf(chains: seq<Chain>, w: string, h: string): string
    requires chains != []
  {
    PrintChain(NativeChain(chains[0].source, chains[|chains| - 1].sink, w, h))
  }

  lemma NativeText(scale: string)
    ensures "hwupload," + (scale + ",tonemap_vaapi=format=nv12") == Join(["hwupload", scale, "tonemap_vaapi=format=nv12"], ',')
  {
    var a, c := "hwupload", "tonemap_vaapi=format=nv12";
    assert [a, scale, c][1..] == [scale, c] && [scale, c][1..] == [c];
    assert Join([scale, c], ',') == scale + [','] + c;
    assert scale + [','] + c == scale + ",tonemap_vaapi=format=nv12";
  }

  lemma ParsedUnique(parts: seq<string>, a: seq<Chain>, b: seq<Chain>)
    requires Parsed(parts, a) && Parsed(parts, b)
    ensures a == b
  {
    forall i | 0 <= i < |parts|
      ensures a[i] == b[i]
    {
      assert Some(a[i]) == Some(b[i]);
    }
  }

  /** Splits and parses every chain. */
  method ParseChains(text: string) returns (chains: seq<Chain>, ok: bool)
    ensures ok ==> Parsed(Split(text, ';'), chains) && chains != []
    ensures !ok ==> forall cs :: !Parsed(Split(text, ';'), cs)
  {
    var parts := Split(text, ';');
    chains := [];
    for i := 0 to |parts|
      invariant |chains| == i && forall j :: 0 <= j < i ==> ParseChain(parts[j]) == Some(chains[j])
    {
      var c := ParseChain(parts[i]);
      if c.None? {
        return [], false;
      }
      chains := chains + [c.value];
    }
    ok := true;
  }

  /** Checks the links and collects the filters. */
  method FlattenLinked(chains: seq<Chain>) returns (filters: seq<string>, ok: bool)
    ensures ok <==> Linked(chains)
    ensures ok ==> filters == Flatten(chains)
  {
    filters := [];
    for i := 0 to |chains|
      invariant Linked(chains[..i])
      invariant filters == Flatten(chains[..i])
    {
      assert chains[..i + 1][..i] == chains[..i];
      if i > 0 && chains[i].source != chains[i - 1].sink {
        return [], false;
      }
      filters := filters + chains[i].filters;
    }
    assert chains[..|chains|] == chains;
    ok := true;
  }

  /**
   * rewriteTonemapChain: a change is reported exactly for the known pipeline, with its outer labels
   * and its dimensions; anything else comes back as it was.
   */
  method RewriteTonemapChain(text: string) returns (r: string, changed: bool)
    ensures changed ==> exists chains, w, h :: Known(text, chains, w, h) && r == NativeOf(chains, w, h)
    ensures !changed ==> r == text && forall chains, w, h :: !Known(text, chains, w, h)
  {
    var chains, ok := ParseChains(text);
    if !ok {
      return text, false;
    }
    forall cs, x, y | Known(text, cs, x, y)
      ensures cs == chains
    {
      ParsedUnique(Split(text, ';'), cs, chains);
    }
    if !IsVideoInputLabel(chains[0].source) {
      return text, false;
    }
    var filters;
    filters, ok := FlattenLinked(chains);
    if !ok || |filters| != 5 {
      return text, false;
    }
    var w, h;
    w, h, ok := ScaleDims(filters[0]);
    if !ok || filters[1] != "format=p010" {
      return text, false;
    }
    if !IsCurve(filters[2]) {
      return text, false;
    }
    if filters[3] != "format=pix_fmts=nv12" || filters[4] != "hwupload" {
      return text, false;
    }
    assert Known(text, chains, w, h);
    var source, sink := chains[0].source, chains[|chains| - 1].sink;
    NativeText(ScaleNative(w, h));
    r := Pad(source) + ("hwupload," + (ScaleNative(w, h) + ",tonemap_vaapi=format=nv12") + Pad(sink));
    changed := true;
  }

  // ---- printing and parsing chains ----

  lemma {:induction false} LastIndexAt(a: string, c: char, b: string)
    requires c !in b
    ensures LastIndexByte(a + [c] + b, c) == Some(|a|)
    decreases |b|
  {
    var s := a + [c] + b;
    if b != "" {
      LastIndexAt(a, c, b[..|b| - 1]);
      assert s[..|s| - 1] == a + [c] + b[..|b| - 1];
    }
  }

  lemma {:induction false} JoinBrackets(parts: seq<string>, sep: char, c: char)
    requires c != sep && forall i :: 0 <= i < |parts| ==> c !in parts[i]
    ensures c !in Join(parts, sep)
    decreases |parts|
  {
    if |parts| > 1 {
      JoinBrackets(parts[1..], sep, c);
    }
  }

  /** A printed chain parses back to itself. */
  lemma PrintedParses(c: Chain)
    requires ChainOk(c)
    ensures ParseChain(PrintChain(c)) == Some(c)
  {
    var body := Join(c.filters, ',');
    JoinBrackets(c.filters, ',', '[');
    JoinBrackets(c.filters, ',', ']');
    JoinSplit(c.filters, ',');
    ChainText(c.source, body, c.sink);
  }

  lemma HeadText(source: string, rest: string)
    requires ']' !in source
    ensures ParseChain(Pad(source) + rest) == ParseTail(source, rest)
  {
    var s := Pad(source) + rest;
    assert s == ("[" + source) + [']'] + rest;
    IndexByteAt("[" + source, ']', rest);
    assert s[|source| + 2..] == rest && s[1..|source| + 1] == source;
  }

  lemma TailText(source: string, body: string, sink: string)
    requires source != "" && sink != "" && '[' !in sink && body != "" && NoBracket(body)
    ensures ParseTail(source, body + Pad(sink)) == Some(Chain(source, sink, Split(body, ',')))
  {
    var rest := body + Pad(sink);
    assert rest == body + ['['] + (sink + "]");
    LastIndexAt(body, '[', sink + "]");
    assert rest[..|body|] == body && rest[|body| + 1..|rest| - 1] == sink;
  }

  lemma ChainText(source: string, body: string, sink: string)
    requires source != "" && ']' !in source && sink != "" && '[' !in sink && body != "" && NoBracket(body)
    ensures ParseChain(Pad(source) + (body + Pad(sink))) == Some(Chain(source, sink, Split(body, ',')))
  {
    HeadText(source, body + Pad(sink));
    TailText(source, body, sink);
  }

  lemma ParsedHead(s: string)
    requires s != "" && s[0] == '[' && IndexByte(s, ']').Some?
    ensures IndexByte(s, ']').value > 0
    ensures var end := IndexByte(s, ']').value; s == Pad(s[1..end]) + s[end + 1..] && ']' !in s[1..end]
  {
    var end := IndexByte(s, ']').value;
    assert s[1..end] == s[..end][1..];
  }

  lemma ParsedTail(source: string, rest: string) returns (body: string)
    requires ParseTail(source, rest).Some?
    ensures var c := ParseTail(source, rest).value;
            && c.source == source != "" && c.sink != "" && '[' !in c.sink
            && body != "" && NoBracket(body) && c.filters == Split(body, ',')
            && rest == body + Pad(c.sink)
  {
    var open := LastIndexByte(rest, '[').value;
    body := rest[..open];
    assert rest[open + 1..|rest| - 1] == rest[open + 1..][..|rest| - open - 2];
  }

  /** Parsing succeeds exactly on printed chains, and printing gives back the text. */
  lemma ParsesExactly(s: string, c: Chain)
    ensures ParseChain(s) == Some(c) <==> ChainOk(c) && s == PrintChain(c)
  {
    if ChainOk(c) && s == PrintChain(c) {
      PrintedParses(c);
    }
    if ParseChain(s) == Some(c) {
      var end := IndexByte(s, ']').value;
      ParsedHead(s);
      var body := ParsedTail(s[1..end], s[end + 1..]);
      SplitJoin(body, ',');
      SplitLacksBracket(body);
    }
  }

  lemma {:induction false} SplitLacksBracket(body: string)
    requires NoBracket(body)
    ensures forall i :: 0 <= i < |Split(body, ',')| ==> NoBracket(Split(body, ',')[i])
    decreases |body|
  {
    var i := IndexByte(body, ',');
    if i.Some? {
      SplitLacksBracket(body[i.value + 1..]);
    }
  }

  // ---- the rewritten graph ----

  lemma {:induction false} SplitWhole(s: string, sep: char)
    requires sep !in s
    ensures Split(s, sep) == [s]
  {
  }

  lemma NumberPlain(s: string, c: char)
    requires IsPositiveInt(s) && (c == ';' || c == ',' || c == '[' || c == ']' || c == ':' || c == '=')
    ensures c !in s
  {
    var digits := if s[0] == '+' || s[0] == '-' then s[1..] else s;
    assert forall i :: 0 <= i < |digits| ==> IsDigit(digits[i]);
    assert s == digits || s == [s[0]] + digits;
  }

  lemma PadLacks(c: Chain, x: char)
    requires ParseChain(PrintChain(c)) == Some(c) && x !in PrintChain(c)
    ensures x !in c.source && x !in c.sink
  {
    var s := PrintChain(c);
    var n := |c.source| + 2 + |Join(c.filters, ',')| + 1;
    assert c.source == s[1..|c.source| + 1];
    assert c.sink == s[n..n + |c.sink|];
  }

  /** Every chain of a known graph is well made and free of ';'. */
  lemma KnownChain(text: string, chains: seq<Chain>, w: string, h: string, i: nat)
    requires Known(text, chains, w, h) && i < |chains|
    ensures ChainOk(chains[i]) && ';' !in chains[i].source && ';' !in chains[i].sink
  {
    var parts := Split(text, ';');
    SplitJoin(text, ';');
    assert ParseChain(parts[i]) == Some(chains[i]);
    ParsesExactly(parts[i], chains[i]);
    PadLacks(chains[i], ';');
  }

  predicate PlainFilter(f: string) {
    f != "" && ',' !in f && ';' !in f && NoBracket(f)
  }

  lemma PlainConcat(a: string, b: string)
    requires PlainFilter(a) && PlainFilter(b)
    ensures PlainFilter(a + b)
  {
  }

  lemma NumberFilter(s: string)
    requires IsPositiveInt(s)
    ensures PlainFilter(s)
  {
    NumberPlain(s, ';');
    NumberPlain(s, ',');
    NumberPlain(s, '[');
    NumberPlain(s, ']');
  }

  lemma ScalePlain(w: string, h: string)
    requires IsPositiveInt(w) && IsPositiveInt(h)
    ensures PlainFilter(ScaleNative(w, h))
  {
    NumberFilter(w);
    NumberFilter(h);
    PlainConcat("scale_vaapi=w=", w);
    PlainConcat("scale_vaapi=w=" + w, ":h=");
    PlainConcat("scale_vaapi=w=" + w + ":h=", h);
  }

  lemma OneChain(c: Chain)
    requires ChainOk(c) && ';' !in c.source && ';' !in c.sink
    requires forall i :: 0 <= i < |c.filters| ==> ';' !in c.filters[i]
    ensures Parsed(Split(PrintChain(c), ';'), [c])
  {
    PrintedParses(c);
    JoinBrackets(c.filters, ',', ';');
    SplitWhole(PrintChain(c), ';');
  }

  lemma PlainChain(c: Chain)
    requires c.source != "" && ']' !in c.source && c.sink != "" && '[' !in c.sink
    requires c.filters != [] && forall i :: 0 <= i < |c.filters| ==> PlainFilter(c.filters[i])
    ensures ChainOk(c)
  {
    assert PlainFilter(c.filters[0]);
  }

  lemma PlainThree(a: string, b: string, c: string)
    requires PlainFilter(a) && PlainFilter(b) && PlainFilter(c)
    ensures forall i :: 0 <= i < 3 ==> PlainFilter([a, b, c][i])
  {
  }

  lemma NativePlain(source: string, sink: string, w: string, h: string)
    requires IsPositiveInt(w) && IsPositiveInt(h)
    ensures forall i :: 0 <= i < 3 ==> PlainFilter(NativeChain(source, sink, w, h).filters[i])
  {
    ScalePlain(w, h);
    PlainThree("hwupload", ScaleNative(w, h), "tonemap_vaapi=format=nv12");
  }

  /**
   * The rewritten graph is one chain between the old outer labels that uploads, scales to the old
   * dimensions and maps tones.
   */
  lemma RewrittenParses(text: string, chains: seq<Chain>, w: string, h: string)
    requires Known(text, chains, w, h)
    ensures Parsed(Split(NativeOf(chains, w, h), ';'), [NativeChain(chains[0].source, chains[|chains| - 1].sink, w, h)])
  {
    KnownChain(text, chains, w, h, 0);
    KnownChain(text, chains, w, h, |chains| - 1);
    NativePlain(chains[0].source, chains[|chains| - 1].sink, w, h);
    PlainChain(NativeChain(chains[0].source, chains[|chains| - 1].sink, w, h));
    OneChain(NativeChain(chains[0].source, chains[|chains| - 1].sink, w, h));
  }

  /** Rewriting the output again changes nothing. */
  lemma RewrittenIsStable(text: string, chains: seq<Chain>, w: string, h: string)
    requires Known(text, chains, w, h)
    ensures forall cs, x, y :: !Known(NativeOf(chains, w, h), cs, x, y)
  {
    var out := NativeOf(chains, w, h);
    var n := NativeChain(chains[0].source, chains[|chains| - 1].sink, w, h);
    RewrittenParses(text, chains, w, h);
    forall cs, x, y | Known(out, cs, x, y)
      ensures false
    {
      ParsedUnique(Split(out, ';'), cs, [n]);
      FlattenOne(n);
    }
  }

  lemma FlattenOne(c: Chain)
    ensures Flatten([c]) == c.filters
  {
    assert [c][..0] == [];
  }

  /** A graph is the known pipeline in at most one way, so what the rewrite gives is determined. */
  lemma KnownUnique(text: string, a: seq<Chain>, b: seq<Chain>, w: string, h: string, x: string, y: string)
    requires Known(text, a, w, h) && Known(text, b, x, y)
    ensures a == b && w == x && h == y
  {
    ParsedUnique(Split(text, ';'), a, b);
  }

  // ---- exactly the printed pipelines ----

  function PrintAll(chains: seq<Chain>): (parts: seq<string>)
    ensures |parts| == |chains| && forall i :: 0 <= i < |chains| ==> parts[i] == PrintChain(chains[i])
  {
    if chains == [] then [] else [PrintChain(chains[0])] + PrintAll(chains[1..])
  }

  function PrintGraph(chains: seq<Chain>): string {
    Join(PrintAll(chains), ';')
  }

  /** A chain that a graph can hold: well made, and without the separator of chains. */
  predicate InGraph(c: Chain) {
    ChainOk(c) && ';' !in PrintChain(c)
  }

  predicate Pipeline(chains: seq<Chain>, w: string, h: string) {
    && chains != [] && (forall i :: 0 <= i < |chains| ==> InGraph(chains[i]))
    && IsVideoInputLabel(chains[0].source) && Linked(chains) && FiveFilters(Flatten(chains), w, h)
  }

  /**
   * The texts that are rewritten are exactly the printed pipelines: the five filters in order, however
   * they are spread over linked chains and whatever the labels between them are.
   */
  lemma KnownExactly(text: string, chains: seq<Chain>, w: string, h: string)
    ensures Known(text, chains, w, h) <==> Pipeline(chains, w, h) && text == PrintGraph(chains)
  {
    if Known(text, chains, w, h) {
      KnownIsPrinted(text, chains, w, h);
    }
    if Pipeline(chains, w, h) && text == PrintGraph(chains) {
      PrintedIsParsed(chains);
    }
  }

  lemma KnownIsPrinted(text: string, chains: seq<Chain>, w: string, h: string)
    requires Known(text, chains, w, h)
    ensures Pipeline(chains, w, h) && text == PrintGraph(chains)
  {
    var parts := Split(text, ';');
    SplitJoin(text, ';');
    forall i | 0 <= i < |parts|
      ensures InGraph(chains[i]) && parts[i] == PrintChain(chains[i])
    {
      ParsesExactly(parts[i], chains[i]);
    }
    assert PrintAll(chains) == parts;
  }

  lemma PrintedIsParsed(chains: seq<Chain>)
    requires chains != [] && forall i :: 0 <= i < |chains| ==> InGraph(chains[i])
    ensures Parsed(Split(PrintGraph(chains), ';'), chains)
  {
    var parts := PrintAll(chains);
    forall i | 0 <= i < |parts|
      ensures ';' !in parts[i]
    {
      assert InGraph(chains[i]);
    }
    JoinSplit(parts, ';');
    forall i | 0 <= i < |parts|
      ensures ParseChain(parts[i]) == Some(chains[i])
    {
      assert InGraph(chains[i]);
      PrintedParses(chains[i]);
    }
  }

  // ---- what the options of a filter say ----

  /** Of the options behind `name`, the last one for `key` has the value `v`. */
  ghost predicate Gives(filter: string, name: string, key: string, v: string) {
    name <= filter && LastIs(Split(filter[|name|..], ':'), key, v)
  }

  ghost predicate LastIs(options: seq<string>, key: string, v: string) {
    exists k :: LastAt(options, key, v, k)
  }

  ghost predicate LastAt(options: seq<string>, key: string, v: string, k: int) {
    0 <= k < |options| && options[k] == key + "=" + v && forall j :: k < j < |options| ==> !(key + "=" <= options[j])
  }

  lemma LastIsUnique(options: seq<string>, key: string, v: string, u: string)
    requires LastIs(options, key, v) && LastIs(options, key, u)
    ensures v == u
  {
    var i :| LastAt(options, key, v, i);
    var k :| LastAt(options, key, u, k);
    assert key + "=" <= options[i] && key + "=" <= options[k];
    assert (key + "=" + v)[|key| + 1..] == v && (key + "=" + u)[|key| + 1..] == u;
  }

  lemma KeyOfOption(kv: string, key: string)
    requires '=' !in key && KeyValue(kv).Some?
    ensures KeyValue(kv).value.0 == key <==> key + "=" <= kv
    ensures key + "=" <= kv ==> kv == key + "=" + KeyValue(kv).value.1
  {
    var e := IndexByte(kv, '=').value;
    assert kv == kv[..e] + "=" + kv[e + 1..];
    if key + "=" <= kv {
      assert kv == key + ['='] + kv[|key| + 1..];
      IndexByteAt(key, '=', kv[|key| + 1..]);
    }
  }

  /** The value that the option loop keeps for a key is that of its last option. */
  lemma {:induction false} LastValueIs(options: seq<string>, key: string)
    requires '=' !in key && LastValue(options, key) != ""
    requires forall i :: 0 <= i < |options| ==> KeyValue(options[i]).Some?
    ensures LastIs(options, key, LastValue(options, key))
    decreases |options|
  {
    var n := |options| - 1;
    KeyOfOption(options[n], key);
    if key + "=" <= options[n] {
      assert options[n] == key + "=" + LastValue(options, key);
      assert LastAt(options, key, LastValue(options, key), n);
    } else {
      LastValueIs(options[..n], key);
      LastStays(options, key, LastValue(options, key));
    }
  }

  lemma LastStays(options: seq<string>, key: string, v: string)
    requires options != [] && LastIs(options[..|options| - 1], key, v) && !(key + "=" <= options[|options| - 1])
    ensures LastIs(options, key, v)
  {
    var p := options[..|options| - 1];
    var k :| LastAt(p, key, v, k);
    assert forall j :: 0 <= j < |p| ==> options[j] == p[j];
    assert LastAt(options, key, v, k);
  }

  /** What the input's scale filter gives. */
  lemma ScaleGives(filter: string, w: string, h: string)
    requires ScalesTo(filter, w, h)
    ensures Gives(filter, "scale=", "w", w) && Gives(filter, "scale=", "h", h)
  {
    var options := Split(filter[|SCALE|..], ':');
    assert forall i :: 0 <= i < |options| ==> KnownOption(options[i]);
    LastValueIs(options, "w");
    LastValueIs(options, "h");
  }

  lemma GivesUnique(filter: string, name: string, key: string, v: string, u: string)
    requires Gives(filter, name, key, v) && Gives(filter, name, key, u)
    ensures v == u
  {
    LastIsUnique(Split(filter[|name|..], ':'), key, v, u);
  }

  lemma LacksConcat(a: string, b: string, c: char)
    requires c !in a && c !in b
    ensures c !in a + b
  {
  }

  /** What the rewritten scale filter gives. */
  lemma NativeGives(w: string, h: string)
    requires IsPositiveInt(w) && IsPositiveInt(h)
    ensures Gives(ScaleNative(w, h), "scale_vaapi=", "w", w) && Gives(ScaleNative(w, h), "scale_vaapi=", "h", h)
  {
    NativeOptions(w, h);
    var options := ["w=" + w, "h=" + h];
    assert "w" + "=" == "w=" && "h" + "=" == "h=";
    assert !("w=" <= options[1]) by {
      assert options[1][0] == 'h';
    }
    assert LastAt(options, "w", w, 0);
    assert LastAt(options, "h", h, 1);
  }

  lemma NativeOptions(w: string, h: string)
    requires IsPositiveInt(w) && IsPositiveInt(h)
    ensures "scale_vaapi=" <= ScaleNative(w, h)
    ensures Split(ScaleNative(w, h)[|"scale_vaapi="|..], ':') == ["w=" + w, "h=" + h]
  {
    var a, b := "w=" + w, "h=" + h;
    NumberPlain(w, ':');
    NumberPlain(h, ':');
    LacksConcat("w=", w, ':');
    LacksConcat("h=", h, ':');
    assert [a, b][1..] == [b];
    assert Join([a, b], ':') == a + [':'] + b;
    JoinSplit([a, b], ':');
    NativeParts(w, h);
  }

  lemma NativeParts(w: string, h: string)
    ensures ScaleNative(w, h) == "scale_vaapi=" + ("w=" + w + [':'] + ("h=" + h))
  {
    assert "scale_vaapi=w=" == "scale_vaapi=" + "w=";
    assert ":h=" == [':'] + "h=";
  }

  /**
   * What the worker runs instead, read back from its text: one chain from the pipeline's input label to
   * its last output label, which uploads, scales and maps tones, and whose scale filter gives exactly
   * the width and the height that the pipeline's own scale filter gives.
   */
  lemma RewrittenKeepsSize(text: string, chains: seq<Chain>, w: string, h: string) returns (n: Chain)
    requires Known(text, chains, w, h)
    ensures chains != [] && Flatten(chains) != []
    ensures Split(NativeOf(chains, w, h), ';') == [PrintChain(n)] && ParseChain(PrintChain(n)) == Some(n)
    ensures MapsLike(n, chains[0].source, chains[|chains| - 1].sink, Flatten(chains)[0])
  {
    n := NativeChain(chains[0].source, chains[|chains| - 1].sink, w, h);
    RewrittenParses(text, chains, w, h);
    OneParsed(NativeOf(chains, w, h), n);
    KnownFive(text, chains, w, h);
    NativeMaps(chains[0].source, chains[|chains| - 1].sink, Flatten(chains), w, h);
  }

  /** Between these labels the chain uploads, scales to the size that the software filter gives, and maps tones. */
  ghost predicate MapsLike(n: Chain, source: string, sink: string, software: string) {
    && n.source == source && n.sink == sink
    && |n.filters| == 3 && n.filters[0] == "hwupload" && "tonemap_vaapi=" <= n.filters[2]
    && SameSize(software, n.filters[1])
  }

  lemma KnownFive(text: string, chains: seq<Chain>, w: string, h: string)
    requires Known(text, chains, w, h)
    ensures chains != [] && FiveFilters(Flatten(chains), w, h)
  {
  }

  lemma NativeMaps(source: string, sink: string, filters: seq<string>, w: string, h: string)
    requires FiveFilters(filters, w, h)
    ensures MapsLike(NativeChain(source, sink, w, h), source, sink, filters[0])
  {
    NativeSize(filters, w, h);
    assert "tonemap_vaapi=format=nv12"[..14] == "tonemap_vaapi=";
  }

  lemma OneParsed(text: string, n: Chain)
    requires Parsed(Split(text, ';'), [n])
    ensures Split(text, ';') == [PrintChain(n)] && ParseChain(PrintChain(n)) == Some(n)
  {
    var parts := Split(text, ';');
    assert ParseChain(parts[0]) == Some([n][0]);
    ParsesExactly(parts[0], n);
  }

  lemma NativeSize(filters: seq<string>, w: string, h: string)
    requires FiveFilters(filters, w, h)
    ensures SameSize(filters[0], ScaleNative(w, h))
  {
    ScaleGives(filters[0], w, h);
    NativeGives(w, h);
    SizesAgree(filters[0], ScaleNative(w, h), w, h);
  }

  /** The VAAPI filter gives a width and a height, and they are those that the software filter gives. */
  ghost predicate SameSize(software: string, native: string) {
    && (exists w :: Gives(native, "scale_vaapi=", "w", w))
    && (exists h :: Gives(native, "scale_vaapi=", "h", h))
    && (forall w :: Gives(software, "scale=", "w", w) <==> Gives(native, "scale_vaapi=", "w", w))
    && (forall h :: Gives(software, "scale=", "h", h) <==> Gives(native, "scale_vaapi=", "h", h))
  }

  lemma SizesAgree(software: string, native: string, w: string, h: string)
    requires Gives(software, "scale=", "w", w) && Gives(software, "scale=", "h", h)
    requires Gives(native, "scale_vaapi=", "w", w) && Gives(native, "scale_vaapi=", "h", h)
    ensures SameSize(software, native)
  {
    forall x
      ensures Gives(software, "scale=", "w", x) <==> Gives(native, "scale_vaapi=", "w", x)
      ensures Gives(software, "scale=", "h", x) <==> Gives(native, "scale_vaapi=", "h", x)
    {
      OneValue(software, "scale=", native, "scale_vaapi=", "w", w, x);
      OneValue(software, "scale=", native, "scale_vaapi=", "h", h, x);
    }
  }

  lemma OneValue(f: string, fname: string, g: string, gname: string, key: string, v: string, x: string)
    requires Gives(f, fname, key, v) && Gives(g, gname, key, v)
    ensures Gives(f, fname, key, x) <==> Gives(g, gname, key, x)
  {
    if Gives(f, fname, key, x) {
      GivesUnique(f, fname, key, v, x);
    }
    if Gives(g, gname, key, x) {
      GivesUnique(g, gname, key, v, x);
    }
  }
}
