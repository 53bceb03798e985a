/**
 * Resolving the placeholders of a dispatched argv on the worker (internal/workerd/subst.go).
 * The loop over the media map runs in an unspecified order, which may differ from token to token.
 */
module Substitute {
  import opened Prelude
  import opened Text
  import opened Placeholders

  predicate Usable(order: seq<string>, media: map<string, string>) {
    forall i :: 0 <= i < |order| ==> order[i] in media && order[i] != ""
  }

  /** The media replacements of one token, in one iteration order. */
  function InOrder(s: string, order: seq<string>, media: map<string, string>): string
    requires Usable(order, media)
    decreases |order|
  {
    if order == [] then s
    else InOrder(ReplaceAll(s, order[0], media[order[0]]), order[1..], media)
  }

  /** `order` lists every key of the media map once. */
  ghost predicate IsOrder(order: seq<string>, media: map<string, string>) {
    && NoDup(order)
    && Usable(order, media)
    && (forall k :: k in media ==> k in order)
  }

  function Elements(s: seq<string>): set<string> {
    set k | k in s
  }

  function Local(tok: string, outDir: string, proxyBase: string, plexDir: string): string {
    ReplaceAll(ReplaceAll(ReplaceAll(tok, OUTDIR, outDir), PMS, proxyBase), PLEXDIR, plexDir)
  }

  function SubstituteOne(tok: string, outDir: string, proxyBase: string, plexDir: string,
                         order: seq<string>, media: map<string, string>): string
    requires Usable(order, media)
  {
    InOrder(Local(tok, outDir, proxyBase, plexDir), order, media)
  }

  lemma {:induction false} InOrderSnoc(s: string, order: seq<string>, k: string, media: map<string, string>)
    requires Usable(order, media)
    requires k in media && k != ""
    ensures InOrder(s, order + [k], media) == ReplaceAll(InOrder(s, order, media), k, media[k])
    decreases |order|
  {
    if order == [] {
      assert order + [k] == [k];
      assert [k][1..] == [];
    } else {
      assert (order + [k])[1..] == order[1..] + [k];
      InOrderSnoc(ReplaceAll(s, order[0], media[order[0]]), order[1..], k, media);
    }
  }

  /** `out` is what the inner loop makes of a token, in some order over the map. */
  ghost predicate Replaced(tok: string, out: string, media: map<string, string>) {
    exists order :: IsOrder(order, media) && out == InOrder(tok, order, media)
  }

  /** The inner loop: one replacement per key. */
  method SubstituteMedia(tok: string, media: map<string, string>) returns (r: string)
    requires forall k :: k in media ==> k != ""
    ensures Replaced(tok, r, media)
  {
    r := tok;
    ghost var order := [];
    var todo := media.Keys;
    while todo != {}
      invariant todo <= media.Keys && NoDup(order)
      invariant forall k :: k in media ==> (k in todo <==> k !in order)
      invariant Usable(order, media)
      invariant r == InOrder(tok, order, media)
      decreases todo
    {
      var ph :| ph in todo;
      todo := todo - {ph};
      r := ReplaceAll(r, ph, media[ph]);
      InOrderSnoc(tok, order, ph, media);
      order := order + [ph];
    }
    assert IsOrder(order, media);
  }

  /** `out` is what the loop over the argv makes of one token. */
  ghost predicate Substituted(tok: string, out: string, outDir: string, proxyBase: string, plexDir: string,
                              media: map<string, string>)
  {
    Replaced(Local(tok, outDir, proxyBase, plexDir), out, media)
  }

  /**
   * substituteArgv: every token with its placeholders replaced and no media reference left, or the
   * index of the first token that has one left.
   */
  method SubstituteArgv(argv: seq<string>, outDir: string, proxyBase: string, plexDir: string, media: map<string, string>)
    returns (r: Result<seq<string>, nat>)
    requires forall k :: k in media ==> k != ""
    ensures r.Ok? ==> |r.value| == |argv| && forall i :: 0 <= i < |argv| ==>
              Substituted(argv[i], r.value[i], outDir, proxyBase, plexDir, media) && !Contains(r.value[i], MEDIA_PREFIX)
    ensures r.Err? ==> r.error < |argv| && exists out ::
              Substituted(argv[r.error], out, outDir, proxyBase, plexDir, media) && Contains(out, MEDIA_PREFIX)
  {
    var out: seq<string> := [];
    for i := 0 to |argv|
      invariant |out| == i
      invariant forall j :: 0 <= j < i ==>
        Substituted(argv[j], out[j], outDir, proxyBase, plexDir, media) && !Contains(out[j], MEDIA_PREFIX)
    {
      var tok := argv[i];
      tok := ReplaceAll(tok, OUTDIR, outDir);
      tok := ReplaceAll(tok, PMS, proxyBase);
      tok := ReplaceAll(tok, PLEXDIR, plexDir);
      tok := SubstituteMedia(tok, media);
      assert Substituted(argv[i], tok, outDir, proxyBase, plexDir, media);
      if Contains(tok, MEDIA_PREFIX) {
        r := Err(i);
        return;
      }
      out := out + [tok];
    }
    r := Ok(out);
  }

  // ---- the order does not matter ----

  const FIXED: set<string> := {OUTDIR, PMS, PLEXDIR}

  lemma FixedArePlaceholders()
    ensures AllPlaceholders(FIXED)
  {
    assert OUTDIR[2..|OUTDIR| - 2] == "OUTDIR";
    assert PMS[2..|PMS| - 2] == "PMS";
    assert PLEXDIR[2..|PLEXDIR| - 2] == "PLEXDIR";
  }

  /** A media map as the worker builds it: placeholder keys, and values without '{'. */
  ghost predicate MediaOk(media: map<string, string>) {
    && AllPlaceholders(media.Keys)
    && media.Keys !! FIXED
    && forall k :: k in media ==> NoOpen(media[k])
  }

  function AllValues(outDir: string, proxyBase: string, plexDir: string, media: map<string, string>): map<string, string> {
    media[OUTDIR := outDir][PMS := proxyBase][PLEXDIR := plexDir]
  }

  lemma {:induction false} InOrderResolves(s: string, known: set<string>, order: seq<string>, media: map<string, string>,
                                           values: map<string, string>)
    requires AllPlaceholders(known) && Good(s, known)
    requires Usable(order, media)
    requires forall i :: 0 <= i < |order| ==> IsPlaceholder(order[i]) && NoOpen(media[order[i]])
    requires forall i :: 0 <= i < |order| ==> order[i] in values && values[order[i]] == media[order[i]]
    requires known <= values.Keys
    ensures Good(InOrder(s, order, media), known - Elements(order))
    ensures Resolve(InOrder(s, order, media), values) == Resolve(s, values)
    decreases |order|
  {
    if order == [] {
      assert known - Elements(order) == known;
    } else {
      var t := order[0];
      var s1 := ReplaceAll(s, t, media[t]);
      ReplaceGood(s, known, t, media[t]);
      ReplaceThenResolve(s, known, t, media[t], values);
      assert values[t := media[t]] == values;
      InOrderResolves(s1, known - {t}, order[1..], media, values);
      assert known - {t} - Elements(order[1..]) == known - Elements(order);
    }
  }

  /** The three fixed replacements are the first three of one long order. */
  lemma ThreeInOrder(tok: string, order: seq<string>, both: map<string, string>)
    requires OUTDIR in both && PMS in both && PLEXDIR in both && Usable(order, both)
    ensures InOrder(tok, [OUTDIR, PMS, PLEXDIR] + order, both)
         == InOrder(Local(tok, both[OUTDIR], both[PMS], both[PLEXDIR]), order, both)
  {
    var full := [OUTDIR, PMS, PLEXDIR] + order;
    var t1 := ReplaceAll(tok, OUTDIR, both[OUTDIR]);
    var t2 := ReplaceAll(t1, PMS, both[PMS]);
    assert full[1..] == [PMS, PLEXDIR] + order;
    assert ([PMS, PLEXDIR] + order)[1..] == [PLEXDIR] + order;
    assert ([PLEXDIR] + order)[1..] == order;
    assert InOrder(tok, full, both) == InOrder(t1, [PMS, PLEXDIR] + order, both);
    assert InOrder(t1, [PMS, PLEXDIR] + order, both) == InOrder(t2, [PLEXDIR] + order, both);
  }

  lemma LocalResolves(tok: string, known: set<string>, outDir: string, proxyBase: string, plexDir: string,
                      values: map<string, string>)
    requires AllPlaceholders(known) && Good(tok, known) && known <= values.Keys
    requires NoOpen(outDir) && NoOpen(proxyBase) && NoOpen(plexDir)
    requires OUTDIR in values && values[OUTDIR] == outDir
    requires PMS in values && values[PMS] == proxyBase
    requires PLEXDIR in values && values[PLEXDIR] == plexDir
    ensures Good(Local(tok, outDir, proxyBase, plexDir), known - FIXED)
    ensures Resolve(Local(tok, outDir, proxyBase, plexDir), values) == Resolve(tok, values)
  {
    FixedArePlaceholders();
    var fixed := map[OUTDIR := outDir, PMS := proxyBase, PLEXDIR := plexDir];
    var order := [OUTDIR, PMS, PLEXDIR];
    InOrderResolves(tok, known, order, fixed, values);
    ThreeInOrder(tok, [], fixed);
    assert order + [] == order;
    assert known - Elements(order) == known - FIXED;
  }

  /**
   * Order does not matter: for a token made of plain text and known placeholders, with values free
   * of '{', every iteration order over the media map gives the token with all placeholders replaced
   * at once, and nothing is left to replace.
   */
  lemma AnyOrderResolves(tok: string, outDir: string, proxyBase: string, plexDir: string,
                         order: seq<string>, media: map<string, string>)
    requires MediaOk(media) && IsOrder(order, media)
    requires NoOpen(outDir) && NoOpen(proxyBase) && NoOpen(plexDir)
    requires Good(tok, FIXED + media.Keys)
    ensures SubstituteOne(tok, outDir, proxyBase, plexDir, order, media)
         == Resolve(tok, AllValues(outDir, proxyBase, plexDir, media))
    ensures NoOpen(SubstituteOne(tok, outDir, proxyBase, plexDir, order, media))
  {
    FixedArePlaceholders();
    var values := AllValues(outDir, proxyBase, plexDir, media);
    var known := FIXED + media.Keys;
    LocalResolves(tok, known, outDir, proxyBase, plexDir, values);
    var s := Local(tok, outDir, proxyBase, plexDir);
    InOrderResolves(s, known - FIXED, order, media, values);
    var r := InOrder(s, order, media);
    assert known - FIXED - Elements(order) == {};
    GoodEmpty(r);
    ResolveNothing(r, values);
  }

  /** The same without naming the order: what the loop gives is determined. */
  lemma SubstitutedIs(tok: string, out: string, outDir: string, proxyBase: string, plexDir: string, media: map<string, string>)
    requires MediaOk(media) && Substituted(tok, out, outDir, proxyBase, plexDir, media)
    requires NoOpen(outDir) && NoOpen(proxyBase) && NoOpen(plexDir)
    requires Good(tok, FIXED + media.Keys)
    ensures out == Resolve(tok, AllValues(outDir, proxyBase, plexDir, media)) && NoOpen(out)
  {
    var order :| IsOrder(order, media) && out == InOrder(Local(tok, outDir, proxyBase, plexDir), order, media);
    AnyOrderResolves(tok, outDir, proxyBase, plexDir, order, media);
  }

  // ---- a missing media entry is always reported ----

  /** What is left after one replacement was there before it. */
  lemma {:induction false} ReplaceGoodBack(s: string, known: set<string>, small: set<string>, t: string, v: string)
    requires AllPlaceholders(known) && AllPlaceholders(small) && IsPlaceholder(t) && NoOpen(v)
    requires Good(s, known) && Good(ReplaceAll(s, t, v), small)
    ensures Good(s, small + {t})
    decreases |s|
  {
    if s != "" {
      if s[0] != '{' {
        assert ReplaceAll(s, t, v) == [s[0]] + ReplaceAll(s[1..], t, v);
        assert ReplaceAll(s, t, v)[1..] == ReplaceAll(s[1..], t, v);
        ReplaceGoodBack(s[1..], known, small, t, v);
      } else {
        var u := PlaceholderAt(s);
        var b := s[|u|..];
        assert s == u + b;
        if u == t {
          GoodAfter(v, ReplaceAll(b, t, v), small);
          ReplaceGoodBack(b, known, small, t, v);
        } else {
          ReplacePassesOver(u, b, t, v);
          PlaceholderUnique(u + ReplaceAll(b, t, v), u);
          assert (u + ReplaceAll(b, t, v))[|u|..] == ReplaceAll(b, t, v);
          ReplaceGoodBack(b, known, small, t, v);
        }
      }
    }
  }

  lemma {:induction false} GoodAfter(a: string, b: string, known: set<string>)
    requires NoOpen(a) && Good(a + b, known)
    ensures Good(b, known)
    decreases |a|
  {
    if a == "" {
      assert a + b == b;
    } else {
      assert (a + b)[1..] == a[1..] + b;
      GoodAfter(a[1..], b, known);
    }
  }

  lemma {:induction false} InOrderBack(s: string, known: set<string>, order: seq<string>, media: map<string, string>)
    requires AllPlaceholders(known) && Good(s, known)
    requires Usable(order, media)
    requires forall i :: 0 <= i < |order| ==> IsPlaceholder(order[i]) && NoOpen(media[order[i]])
    requires NoOpen(InOrder(s, order, media))
    ensures Good(s, Elements(order))
    decreases |order|
  {
    if order == [] {
      GoodPlain(s, Elements(order));
    } else {
      var t := order[0];
      ReplaceGood(s, known, t, media[t]);
      InOrderBack(ReplaceAll(s, t, media[t]), known - {t}, order[1..], media);
      ReplaceGoodBack(s, known, Elements(order[1..]), t, media[t]);
      assert Elements(order[1..]) + {t} == Elements(order);
    }
  }

  /** Text with a media placeholder in it contains the prefix that the check looks for. */
  lemma {:induction false} LeftoverIsSeen(s: string, known: set<string>)
    requires Good(s, known) && !NoOpen(s)
    requires forall t :: t in known ==> MEDIA_PREFIX <= t
    ensures Contains(s, MEDIA_PREFIX)
    decreases |s|
  {
    if s[0] != '{' {
      assert !NoOpen(s[1..]) by {
        var i :| 0 <= i < |s| && s[i] == '{';
        assert s[1..][i - 1] == '{';
      }
      LeftoverIsSeen(s[1..], known);
    } else {
      var t := PlaceholderAt(s);
      assert s[..|MEDIA_PREFIX|] == t[..|MEDIA_PREFIX|];
      assert MEDIA_PREFIX <= s;
    }
  }

  lemma {:induction false} PlainHasNoPrefix(s: string)
    requires NoOpen(s)
    ensures !Contains(s, MEDIA_PREFIX)
    decreases |s|
  {
    if s != "" {
      PlainHasNoPrefix(s[1..]);
      assert MEDIA_PREFIX[0] == '{';
    }
  }

  /**
   * An unresolved media reference is always an error, and only that is: a token made of plain text,
   * the fixed placeholders and media placeholders is refused, in every iteration order, exactly when
   * it references a media placeholder outside the map.
   */
  lemma RefusedExactlyWhenMissing(tok: string, all: set<string>, outDir: string, proxyBase: string, plexDir: string,
                                  order: seq<string>, media: map<string, string>)
    requires MediaOk(media) && IsOrder(order, media)
    requires NoOpen(outDir) && NoOpen(proxyBase) && NoOpen(plexDir)
    requires AllPlaceholders(all) && media.Keys <= all && all !! FIXED && forall t :: t in all ==> MEDIA_PREFIX <= t
    requires Good(tok, FIXED + all)
    ensures Contains(SubstituteOne(tok, outDir, proxyBase, plexDir, order, media), MEDIA_PREFIX)
      <==> !Good(tok, FIXED + media.Keys)
  {
    FixedArePlaceholders();
    var r := SubstituteOne(tok, outDir, proxyBase, plexDir, order, media);
    if Good(tok, FIXED + media.Keys) {
      AnyOrderResolves(tok, outDir, proxyBase, plexDir, order, media);
      PlainHasNoPrefix(r);
    } else {
      var fixed := map[OUTDIR := outDir, PMS := proxyBase, PLEXDIR := plexDir];
      var full := [OUTDIR, PMS, PLEXDIR] + order;
      var both := media[OUTDIR := outDir][PMS := proxyBase][PLEXDIR := plexDir];
      InOrderFixed(tok, order, media, both);
      LeftoverGood(tok, all, full, both);
      assert !NoOpen(r) by {
        if NoOpen(r) {
          InOrderBack(tok, FIXED + all, full, both);
          GoodWider(tok, Elements(full), FIXED + media.Keys);
        }
      }
      LeftoverIsSeen(r, all - Elements(full));
    }
  }

  lemma InOrderFixed(tok: string, order: seq<string>, media: map<string, string>, both: map<string, string>)
    requires IsOrder(order, media) && media.Keys !! FIXED
    requires OUTDIR in both && PMS in both && PLEXDIR in both
    requires forall k :: k in media ==> k in both && both[k] == media[k]
    ensures InOrder(tok, [OUTDIR, PMS, PLEXDIR] + order, both)
         == InOrder(Local(tok, both[OUTDIR], both[PMS], both[PLEXDIR]), order, media)
  {
    ThreeInOrder(tok, order, both);
    InOrderSame(Local(tok, both[OUTDIR], both[PMS], both[PLEXDIR]), order, media, both);
  }

  lemma {:induction false} InOrderSame(s: string, order: seq<string>, m1: map<string, string>, m2: map<string, string>)
    requires Usable(order, m1) && Usable(order, m2)
    requires forall i :: 0 <= i < |order| ==> m1[order[i]] == m2[order[i]]
    ensures InOrder(s, order, m1) == InOrder(s, order, m2)
    decreases |order|
  {
    if order != [] {
      InOrderSame(ReplaceAll(s, order[0], m1[order[0]]), order[1..], m1, m2);
    }
  }

  lemma LeftoverGood(tok: string, all: set<string>, full: seq<string>, both: map<string, string>)
    requires AllPlaceholders(FIXED + all) && Good(tok, FIXED + all)
    requires Usable(full, both)
    requires forall i :: 0 <= i < |full| ==> IsPlaceholder(full[i]) && NoOpen(both[full[i]])
    requires FIXED <= Elements(full)
    ensures Good(InOrder(tok, full, both), all - Elements(full))
  {
    var values := map k | k in FIXED + all + both.Keys :: if k in both then both[k] else "";
    InOrderResolves(tok, FIXED + all, full, both, values);
    assert FIXED + all - Elements(full) == all - Elements(full);
  }
}
