/**
 * The rewrite as internal/workerd/tonemap.go documents it: the filtergraph that the media server writes,
 * for all labels, sizes and curves, and the one that takes its place.
 */
module TonemapDocumented {
  import opened Prelude
  import opened Text
  import opened Decimal
  import opened Tonemap

  predicate Numeral(s: string) {
    s != "" && forall i :: 0 <= i < |s| ==> '0' <= s[i] <= '9'
  }

  /** The label is a:b, a:v or a:v:b with numerals a and b. */
  predicate Labelled(pad: string, a: string, b: string) {
    && Numeral(a)
    && (pad == Join([a, "v"], ':') || (Numeral(b) && (pad == Join([a, b], ':') || pad == Join([a, "v", b], ':'))))
  }

  lemma NumeralLacks(s: string, c: char)
    requires Numeral(s) && !('0' <= c <= '9')
    ensures c !in s
  {
  }

  /** Which labels are taken for those of a single video input. */
  lemma VideoLabels(pad: string)
    ensures IsVideoInputLabel(pad) <==> exists a, b :: Labelled(pad, a, b)
  {
    if IsVideoInputLabel(pad) {
      var parts := Split(pad, ':');
      SplitJoin(pad, ':');
      if |parts| == 2 {
        assert parts == [parts[0], parts[1]];
        assert Labelled(pad, parts[0], parts[1]);
      } else {
        assert parts == [parts[0], parts[1], parts[2]];
        assert Labelled(pad, parts[0], parts[2]);
      }
    }
    forall a, b | Labelled(pad, a, b)
      ensures IsVideoInputLabel(pad)
    {
      LabelSplits(pad, a, b);
    }
  }

  lemma LabelSplits(pad: string, a: string, b: string)
    requires Labelled(pad, a, b)
    ensures IsVideoInputLabel(pad)
  {
    NumeralLacks(a, ':');
    if pad == Join([a, "v"], ':') {
      JoinSplit([a, "v"], ':');
    } else {
      NumeralLacks(b, ':');
      if pad == Join([a, b], ':') {
        JoinSplit([a, b], ':');
      } else {
        JoinSplit([a, "v", b], ':');
      }
    }
  }

  /** Text that can stand for a label or an option value. */
  predicate Word(s: string) {
    s != "" && ';' !in s && ',' !in s && ':' !in s && '=' !in s && NoBracket(s)
  }

  predicate Pin(s: string) {
    s != "" && NoBracket(s) && ';' !in s
  }

  function Written(source: string, filters: string, sink: string): string {
    "[" + source + "]" + filters + "[" + sink + "]"
  }

  lemma WrittenIsPrinted(source: string, filters: seq<string>, sink: string)
    ensures Written(source, Join(filters, ','), sink) == PrintChain(Chain(source, sink, filters))
  {
    var body := Join(filters, ',');
    Assoc(Pad(source), body, Pad(sink));
    Regroup(Pad(source), body, "[" + sink, "]");
    assert Written(source, body, sink) == Pad(source) + body + Pad(sink);
  }

  function ScaleSoftware(w: string, h: string, n: string): string {
    "scale=" + Join(["w=" + w, "h=" + h, "force_divisible_by=" + n], ':')
  }

  lemma OptionKey(key: string, v: string)
    requires '=' !in key
    ensures KeyValue(key + "=" + v) == Some((key, v))
  {
    assert key + "=" + v == key + ['='] + v;
    IndexByteAt(key, '=', v);
    var s := key + "=" + v;
    assert s[..|key|] == key && s[|key| + 1..] == v;
  }

  lemma SoftwareOptions(w: string, h: string, n: string)
    requires IsPositiveInt(w) && IsPositiveInt(h) && Word(n)
    ensures SCALE <= ScaleSoftware(w, h, n)
    ensures Split(ScaleSoftware(w, h, n)[|SCALE|..], ':') == ["w=" + w, "h=" + h, "force_divisible_by=" + n]
  {
    var options := ["w=" + w, "h=" + h, "force_divisible_by=" + n];
    NumberPlain(w, ':');
    NumberPlain(h, ':');
    LacksConcat("w=", w, ':');
    LacksConcat("h=", h, ':');
    LacksConcat("force_divisible_by=", n, ':');
    JoinSplit(options, ':');
    assert ScaleSoftware(w, h, n)[|SCALE|..] == Join(options, ':');
  }

  /** A scale filter as the media server writes it. */
  lemma SoftwareScales(w: string, h: string, n: string)
    requires IsPositiveInt(w) && IsPositiveInt(h) && Word(n)
    ensures ScalesTo(ScaleSoftware(w, h, n), w, h)
  {
    var options := ["w=" + w, "h=" + h, "force_divisible_by=" + n];
    SoftwareOptions(w, h, n);
    ThreeKeys(w, h, n);
    ThreeKnown(options, w, h, n);
    LastOfThree(options, w, h, n);
  }

  lemma ThreeKeys(w: string, h: string, n: string)
    ensures KeyValue("w=" + w) == Some(("w", w)) && KeyValue("h=" + h) == Some(("h", h))
    ensures KeyValue("force_divisible_by=" + n) == Some(("force_divisible_by", n))
  {
    OptionKey("w", w);
    OptionKey("h", h);
    OptionKey("force_divisible_by", n);
    assert "w" + "=" == "w=" && "h" + "=" == "h=" && "force_divisible_by" + "=" == "force_divisible_by=";
  }

  lemma ThreeKnown(options: seq<string>, w: string, h: string, n: string)
    requires |options| == 3
    requires KeyValue(options[0]) == Some(("w", w)) && KeyValue(options[1]) == Some(("h", h))
    requires KeyValue(options[2]) == Some(("force_divisible_by", n))
    ensures forall i :: 0 <= i < |options| ==> KnownOption(options[i])
  {
    assert KnownOption(options[0]) && KnownOption(options[1]) && KnownOption(options[2]);
  }

  lemma LastOfThree(options: seq<string>, w: string, h: string, n: string)
    requires |options| == 3
    requires KeyValue(options[0]) == Some(("w", w)) && KeyValue(options[1]) == Some(("h", h))
    requires KeyValue(options[2]) == Some(("force_divisible_by", n))
    ensures LastValue(options, "w") == w && LastValue(options, "h") == h
  {
    assert options[..2][..1] == options[..1] && options[..2][1] == options[1] && options[..1][0] == options[0];
    assert LastValue(options, "h") == LastValue(options[..2], "h") == h;
    assert LastValue(options, "w") == LastValue(options[..2], "w") == LastValue(options[..1], "w") == w;
  }

  /** The five filters as the media server spreads them over four chains. */
  function SoftwareChains(source: string, a: string, b: string, c: string, sink: string,
                          w: string, h: string, n: string, curve: string): seq<Chain>
  {
    [Chain(source, a, [ScaleSoftware(w, h, n)]),
     Chain(a, b, ["format=p010", "tonemap=" + curve]),
     Chain(b, c, ["format=pix_fmts=nv12"]),
     Chain(c, sink, ["hwupload"])]
  }

  lemma FlattenMore(chains: seq<Chain>, c: Chain)
    ensures Flatten(chains + [c]) == Flatten(chains) + c.filters
  {
    assert (chains + [c])[..|chains|] == chains;
  }

  lemma FlattenFour(a: Chain, b: Chain, c: Chain, d: Chain)
    ensures Flatten([a, b, c, d]) == a.filters + b.filters + c.filters + d.filters
  {
    FlattenOne(a);
    FlattenMore([a], b);
    FlattenMore([a, b], c);
    FlattenMore([a, b, c], d);
    assert [a] + [b] == [a, b] && [a, b] + [c] == [a, b, c] && [a, b, c] + [d] == [a, b, c, d];
  }

  lemma PartLacks(part: string, c: char)
    requires (IsUint(part) || part == "v") && (c == '[' || c == ']' || c == ';')
    ensures c !in part
  {
    if IsUint(part) {
      assert forall i :: 0 <= i < |part| ==> IsDigit(part[i]);
    }
  }

  lemma LabelLacks(parts: seq<string>, c: char)
    requires |parts| == 2 || |parts| == 3
    requires forall i :: 0 <= i < |parts| ==> IsUint(parts[i]) || parts[i] == "v"
    requires c == '[' || c == ']' || c == ';'
    ensures c !in Join(parts, ':')
  {
    forall i | 0 <= i < |parts|
      ensures c !in parts[i]
    {
      PartLacks(parts[i], c);
    }
    JoinBrackets(parts, ':', c);
  }

  lemma LabelWord(pad: string)
    requires IsVideoInputLabel(pad)
    ensures Pin(pad)
  {
    var parts := Split(pad, ':');
    SplitJoin(pad, ':');
    assert forall i :: 0 <= i < |parts| ==> IsUint(parts[i]) || parts[i] == "v";
    LabelLacks(parts, '[');
    LabelLacks(parts, ']');
    LabelLacks(parts, ';');
  }

  lemma PlainInGraph(c: Chain)
    requires Pin(c.source) && Pin(c.sink)
    requires c.filters != [] && forall i :: 0 <= i < |c.filters| ==> PlainFilter(c.filters[i])
    ensures InGraph(c)
  {
    PlainChain(c);
    JoinBrackets(c.filters, ',', ';');
  }

  lemma PrefixesPlain()
    ensures PlainFilter("w=") && PlainFilter("h=") && PlainFilter("scale=")
  {
  }

  lemma DivisorPlain()
    ensures PlainFilter("force_divisible_by=")
  {
  }

  lemma ThreePlain(x: string, y: string, z: string)
    requires PlainFilter(x) && PlainFilter(y) && PlainFilter(z)
    ensures PlainFilter(Join([x, y, z], ':'))
  {
    JoinBrackets([x, y, z], ':', ',');
    JoinBrackets([x, y, z], ':', ';');
    JoinBrackets([x, y, z], ':', '[');
    JoinBrackets([x, y, z], ':', ']');
  }

  lemma ScaleIsPlain(w: string, h: string, n: string)
    requires IsPositiveInt(w) && IsPositiveInt(h) && Word(n)
    ensures PlainFilter(ScaleSoftware(w, h, n))
  {
    PrefixesPlain();
    DivisorPlain();
    NumberFilter(w);
    NumberFilter(h);
    PlainConcat("w=", w);
    PlainConcat("h=", h);
    PlainConcat("force_divisible_by=", n);
    ThreePlain("w=" + w, "h=" + h, "force_divisible_by=" + n);
    PlainConcat("scale=", Join(["w=" + w, "h=" + h, "force_divisible_by=" + n], ':'));
  }

  lemma CurvePlain(curve: string)
    requires Word(curve)
    ensures PlainFilter("tonemap=" + curve) && IsCurve("tonemap=" + curve)
  {
    PlainConcat("tonemap=", curve);
    assert ("tonemap=" + curve)[|TONEMAP|..] == curve;
  }

  lemma SoftwareInGraph(source: string, a: string, b: string, c: string, sink: string,
                        w: string, h: string, n: string, curve: string)
    requires IsVideoInputLabel(source) && Word(a) && Word(b) && Word(c) && Word(sink)
    requires IsPositiveInt(w) && IsPositiveInt(h) && Word(n) && Word(curve)
    ensures forall i :: 0 <= i < 4 ==> InGraph(SoftwareChains(source, a, b, c, sink, w, h, n, curve)[i])
  {
    LabelWord(source);
    ScaleIsPlain(w, h, n);
    CurvePlain(curve);
    FormatPlain();
    PixelsPlain();
    UploadPlain();
    OneInGraph(source, a, ScaleSoftware(w, h, n));
    TwoInGraph(a, b, "format=p010", "tonemap=" + curve);
    OneInGraph(b, c, "format=pix_fmts=nv12");
    OneInGraph(c, sink, "hwupload");
  }

  lemma FormatPlain()
    ensures PlainFilter("format=p010")
  {
  }

  lemma PixelsPlain()
    ensures PlainFilter("format=pix_fmts=nv12")
  {
  }

  lemma UploadPlain()
    ensures PlainFilter("hwupload")
  {
  }

  lemma OneInGraph(source: string, sink: string, f: string)
    requires Pin(source) && Pin(sink) && PlainFilter(f)
    ensures InGraph(Chain(source, sink, [f]))
  {
    PlainInGraph(Chain(source, sink, [f]));
  }

  lemma TwoInGraph(source: string, sink: string, f: string, g: string)
    requires Pin(source) && Pin(sink) && PlainFilter(f) && PlainFilter(g)
    ensures InGraph(Chain(source, sink, [f, g]))
  {
    PlainInGraph(Chain(source, sink, [f, g]));
  }

  lemma SoftwareFilters(source: string, a: string, b: string, c: string, sink: string,
                        w: string, h: string, n: string, curve: string)
    requires IsPositiveInt(w) && IsPositiveInt(h) && Word(n) && Word(curve)
    ensures FiveFilters(Flatten(SoftwareChains(source, a, b, c, sink, w, h, n, curve)), w, h)
  {
    var chains := SoftwareChains(source, a, b, c, sink, w, h, n, curve);
    FlattenFour(chains[0], chains[1], chains[2], chains[3]);
    SoftwareScales(w, h, n);
    CurvePlain(curve);
  }

  lemma SoftwarePipeline(source: string, a: string, b: string, c: string, sink: string,
                         w: string, h: string, n: string, curve: string)
    requires IsVideoInputLabel(source) && Word(a) && Word(b) && Word(c) && Word(sink)
    requires IsPositiveInt(w) && IsPositiveInt(h) && Word(n) && Word(curve)
    ensures Pipeline(SoftwareChains(source, a, b, c, sink, w, h, n, curve), w, h)
  {
    SoftwareInGraph(source, a, b, c, sink, w, h, n, curve);
    SoftwareFilters(source, a, b, c, sink, w, h, n, curve);
  }

  /**
   * The documented rewrite, for all labels, sizes and curves: the pipeline that the media server writes is
   * known, and in its place comes the VAAPI chain with the same outer labels, width and height.
   */
  lemma DocumentedRewrite(source: string, a: string, b: string, c: string, sink: string,
                          w: string, h: string, n: string, curve: string) returns (chains: seq<Chain>)
    requires IsVideoInputLabel(source) && Word(a) && Word(b) && Word(c) && Word(sink)
    requires IsPositiveInt(w) && IsPositiveInt(h) && Word(n) && Word(curve)
    ensures
      var size := Join(["w=" + w, "h=" + h, "force_divisible_by=" + n], ':');
      var text := Join([Written(source, "scale=" + size, a),
                        Written(a, "format=p010,tonemap=" + curve, b),
                        Written(b, "format=pix_fmts=nv12", c),
                        Written(c, "hwupload", sink)], ';');
      Known(text, chains, w, h)
    ensures NativeOf(chains, w, h)
         == Written(source, "hwupload,scale_vaapi=w=" + w + ":h=" + h + ",tonemap_vaapi=format=nv12", sink)
  {
    chains := SoftwareChains(source, a, b, c, sink, w, h, n, curve);
    SoftwarePipeline(source, a, b, c, sink, w, h, n, curve);
    SoftwareText(source, a, b, c, sink, w, h, n, curve);
    KnownExactly(PrintGraph(chains), chains, w, h);
    NativeReads(source, sink, w, h);
  }

  lemma SoftwareText(source: string, a: string, b: string, c: string, sink: string,
                     w: string, h: string, n: string, curve: string)
    ensures PrintAll(SoftwareChains(source, a, b, c, sink, w, h, n, curve))
         == [Written(source, ScaleSoftware(w, h, n), a), Written(a, "format=p010,tonemap=" + curve, b),
             Written(b, "format=pix_fmts=nv12", c), Written(c, "hwupload", sink)]
  {
    WrittenIsPrinted(source, [ScaleSoftware(w, h, n)], a);
    CurveText(curve);
    WrittenIsPrinted(a, ["format=p010", "tonemap=" + curve], b);
    WrittenIsPrinted(b, ["format=pix_fmts=nv12"], c);
    WrittenIsPrinted(c, ["hwupload"], sink);
  }

  lemma CurveText(curve: string)
    ensures Join(["format=p010", "tonemap=" + curve], ',') == "format=p010,tonemap=" + curve
  {
    assert ["format=p010", "tonemap=" + curve][1..] == ["tonemap=" + curve];
    assert "format=p010" + [','] + ("tonemap=" + curve) == "format=p010,tonemap=" + curve;
  }

  lemma NativeReads(source: string, sink: string, w: string, h: string)
    ensures PrintChain(NativeChain(source, sink, w, h))
         == Written(source, "hwupload,scale_vaapi=w=" + w + ":h=" + h + ",tonemap_vaapi=format=nv12", sink)
  {
    var scale := ScaleNative(w, h);
    NativeText(scale);
    WrittenIsPrinted(source, ["hwupload", scale, "tonemap_vaapi=format=nv12"], sink);
    NativeLetters(w, h);
  }

  lemma NativeLetters(w: string, h: string)
    ensures "hwupload," + (ScaleNative(w, h) + ",tonemap_vaapi=format=nv12")
         == "hwupload,scale_vaapi=w=" + w + ":h=" + h + ",tonemap_vaapi=format=nv12"
  {
    assert "hwupload,scale_vaapi=w=" == "hwupload," + "scale_vaapi=w=";
  }

  // ---- what is accepted, spelled out ----

  predicate OptionOf(kv: string, key: string) {
    key + "=" <= kv
  }

  lemma KnownOptionIs(kv: string)
    ensures KnownOption(kv) <==> OptionOf(kv, "w") || OptionOf(kv, "h") || OptionOf(kv, "force_divisible_by")
  {
    if KeyValue(kv).Some? {
      KeyOfOption(kv, "w");
      KeyOfOption(kv, "h");
      KeyOfOption(kv, "force_divisible_by");
    } else {
      NoEquals(kv, "w");
      NoEquals(kv, "h");
      NoEquals(kv, "force_divisible_by");
    }
  }

  lemma NoEquals(kv: string, key: string)
    requires '=' !in kv
    ensures !OptionOf(kv, key)
  {
    if OptionOf(kv, key) {
      HasEquals(kv, key);
    }
  }

  lemma HasEquals(kv: string, key: string)
    requires OptionOf(kv, key)
    ensures '=' in kv
  {
    assert kv[|key|] == '=';
  }

  /**
   * Which scale filters are accepted, and for which size: those whose options are all for w, h or
   * force_divisible_by, and whose last w and last h are positive numbers.
   */
  lemma ScaleExactly(filter: string, w: string, h: string)
    ensures ScalesTo(filter, w, h) <==>
              && "scale=" <= filter
              && (forall kv :: kv in Split(filter[6..], ':') ==>
                    OptionOf(kv, "w") || OptionOf(kv, "h") || OptionOf(kv, "force_divisible_by"))
              && LastIs(Split(filter[6..], ':'), "w", w) && LastIs(Split(filter[6..], ':'), "h", h)
              && IsPositiveInt(w) && IsPositiveInt(h)
  {
    if "scale=" <= filter {
      var options := Split(filter[6..], ':');
      OptionsKnown(options);
      if forall i :: 0 <= i < |options| ==> KnownOption(options[i]) {
        LastIsKept(options, "w", w);
        LastIsKept(options, "h", h);
      }
    }
  }

  lemma OptionsKnown(options: seq<string>)
    ensures (forall i :: 0 <= i < |options| ==> KnownOption(options[i])) <==>
              forall kv :: kv in options ==> OptionOf(kv, "w") || OptionOf(kv, "h") || OptionOf(kv, "force_divisible_by")
  {
    forall i | 0 <= i < |options|
      ensures KnownOption(options[i]) <==>
                OptionOf(options[i], "w") || OptionOf(options[i], "h") || OptionOf(options[i], "force_divisible_by")
    {
      KnownOptionIs(options[i]);
    }
  }

  /** A non-empty value is the kept one exactly if it is that of the last option for the key. */
  lemma LastIsKept(options: seq<string>, key: string, v: string)
    requires '=' !in key && forall i :: 0 <= i < |options| ==> KeyValue(options[i]).Some?
    ensures v != "" ==> (v == LastValue(options, key) <==> LastIs(options, key, v))
  {
    if LastIs(options, key, v) && v != "" {
      LastIsValue(options, key, v);
    }
    if LastValue(options, key) != "" {
      LastValueIs(options, key);
    }
  }

  lemma {:induction false} LastIsValue(options: seq<string>, key: string, v: string)
    requires '=' !in key && forall i :: 0 <= i < |options| ==> KeyValue(options[i]).Some?
    requires LastIs(options, key, v)
    ensures LastValue(options, key) == v
    decreases |options|
  {
    var n := |options| - 1;
    var k :| LastAt(options, key, v, k);
    KeyOfOption(options[n], key);
    if k == n {
      OptionKey(key, v);
    } else {
      assert LastAt(options[..n], key, v, k);
      LastIsValue(options[..n], key, v);
    }
  }

  /** A tone map is accepted with a bare curve only. */
  lemma CurveIs(filter: string)
    ensures IsCurve(filter) <==> exists curve :: Bare(curve) && filter == "tonemap=" + curve
  {
    if IsCurve(filter) {
      var curve := filter[8..];
      assert Bare(curve) && filter == "tonemap=" + curve;
    }
    forall curve | Bare(curve) && filter == "tonemap=" + curve
      ensures IsCurve(filter)
    {
      assert filter[8..] == curve;
    }
  }

  predicate Bare(curve: string) {
    curve != "" && ':' !in curve && '=' !in curve
  }
}
