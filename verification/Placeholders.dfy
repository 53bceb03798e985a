/**
 * The argv placeholders (internal/protocol/protocol.go): how they print and parse, and why
 * replacing them one after the other, in any order, is the same as replacing them all at once.
 */
module Placeholders {
  import opened Prelude
  import opened Text
  import opened Decimal

  const OUTDIR: string := "{{OUTDIR}}"
  const PMS: string := "{{PMS}}"
  const PLEXDIR: string := "{{PLEXDIR}}"
  const PMS_URL_PREFIX: string := "http://127.0.0.1:32400"
  const MEDIA_PREFIX: string := "{{MEDIA:"
  const MEDIA_SUFFIX: string := "}}"

  function MediaPlaceholder(n: nat): string {
    MEDIA_PREFIX + Dec(n) + MEDIA_SUFFIX
  }

  function ParseMediaPlaceholder(s: string): Option<nat> {
    if !(MEDIA_PREFIX <= s) then None
    else
      var inner := s[|MEDIA_PREFIX|..];
      if |inner| < 2 || inner[|inner| - 2..] != MEDIA_SUFFIX then None
      else
        var digits := inner[..|inner| - 2];
        if digits == "" || !AllDigits(digits) || Value(digits) > MAX_INT64 then None
        else Some(Value(digits))
  }

  /** Every printed index that fits a Go int parses back. */
  lemma ParsePrinted(n: nat)
    ensures ParseMediaPlaceholder(MediaPlaceholder(n)) == if n <= MAX_INT64 then Some(n) else None
  {
    var s := MediaPlaceholder(n);
    assert s[|MEDIA_PREFIX|..] == Dec(n) + MEDIA_SUFFIX;
    assert (Dec(n) + MEDIA_SUFFIX)[..|Dec(n)|] == Dec(n);
    ValueOfDec(n);
  }

  /**
   * The comment on ParseMediaPlaceholder says that it matches only what MediaPlaceholder prints. It
   * also matches indices with leading zeros: a match is the printed form exactly when there are none.
   */
  lemma ParsedIsPrinted(s: string)
    requires ParseMediaPlaceholder(s).Some?
    ensures |s| > |MEDIA_PREFIX| + 2
    ensures s == MediaPlaceholder(ParseMediaPlaceholder(s).value)
      <==> |s| == |MEDIA_PREFIX| + 3 || s[|MEDIA_PREFIX|] != '0'
  {
    var inner := s[|MEDIA_PREFIX|..];
    var digits := inner[..|inner| - 2];
    var n := Value(digits);
    assert s == MEDIA_PREFIX + digits + MEDIA_SUFFIX;
    DecOfValue(digits);
    if s == MediaPlaceholder(n) {
      assert digits == s[|MEDIA_PREFIX|..|s| - 2];
      assert Dec(n) == s[|MEDIA_PREFIX|..|s| - 2];
    }
  }

  lemma LeadingZeroParses()
    ensures ParseMediaPlaceholder("{{MEDIA:07}}") == Some(7) && MediaPlaceholder(7) == "{{MEDIA:7}}"
  {
    var s := "{{MEDIA:07}}";
    assert s[|MEDIA_PREFIX|..] == "07}}";
    assert "07}}"[..2] == "07" && "07"[..1] == "0" && "0"[..0] == "";
    assert Value("0") == 0 && Value("07") == 7;
  }

  // ---- placeholders as pieces of text ----

  predicate NoBrace(s: string) {
    forall i :: 0 <= i < |s| ==> s[i] != '{' && s[i] != '}'
  }

  predicate NoOpen(s: string) {
    forall i :: 0 <= i < |s| ==> s[i] != '{'
  }

  /** `{{` + something without braces + `}}`. */
  predicate IsPlaceholder(t: string) {
    && |t| >= 5
    && t[0] == '{' && t[1] == '{' && t[|t| - 2] == '}' && t[|t| - 1] == '}'
    && NoBrace(t[2..|t| - 2])
  }

  /** The only placeholder that can start at the front of `s`, or "". */
  function PlaceholderAt(s: string): (t: string)
    ensures t <= s
  {
    var e := IndexByte(s, '}');
    if e.Some? && e.value + 2 <= |s| then s[..e.value + 2] else ""
  }

  /** No placeholder is the beginning of another, nor starts anywhere inside one. */
  lemma PlaceholderUnique(s: string, t: string)
    requires IsPlaceholder(t) && t <= s
    ensures PlaceholderAt(s) == t
  {
    var e := IndexByte(s, '}').value;
    assert s[|t| - 2] == '}';
    assert e >= |t| - 2 by {
      assert forall i :: 2 <= i < |t| - 2 ==> t[i] == t[2..|t| - 2][i - 2];
    }
    IndexByteLeast(s, '}', |t| - 2);
    assert s[..|t|] == t;
  }

  lemma MediaIsPlaceholder(n: nat)
    ensures IsPlaceholder(MediaPlaceholder(n))
  {
    var t := MediaPlaceholder(n);
    assert t[2..|t| - 2] == "MEDIA:" + Dec(n);
  }

  /** Different indices print differently. */
  lemma MediaInjective(m: nat, n: nat)
    requires MediaPlaceholder(m) == MediaPlaceholder(n)
    ensures m == n
  {
    assert MediaPlaceholder(m)[|MEDIA_PREFIX|..|MediaPlaceholder(m)| - 2] == Dec(m);
    assert MediaPlaceholder(n)[|MEDIA_PREFIX|..|MediaPlaceholder(n)| - 2] == Dec(n);
    DecInjective(m, n);
  }

  // ---- text built from plain characters and known placeholders ----

  /** Every '{' of `s` starts one of the placeholders in `known`. */
  predicate Good(s: string, known: set<string>)
    decreases |s|
  {
    if s == "" then true
    else if s[0] != '{' then Good(s[1..], known)
    else
      var t := PlaceholderAt(s);
      t != "" && t in known && Good(s[|t|..], known)
  }

  /** All placeholders replaced at once. */
  function Resolve(s: string, values: map<string, string>): string
    decreases |s|
  {
    if s == "" then ""
    else if s[0] != '{' then [s[0]] + Resolve(s[1..], values)
    else
      var t := PlaceholderAt(s);
      if t != "" && t in values then values[t] + Resolve(s[|t|..], values)
      else [s[0]] + Resolve(s[1..], values)
  }

  lemma {:induction false} GoodWider(s: string, known: set<string>, more: set<string>)
    requires Good(s, known) && known <= more
    ensures Good(s, more)
    decreases |s|
  {
    if s != "" {
      if s[0] != '{' {
        GoodWider(s[1..], known, more);
      } else {
        GoodWider(s[|PlaceholderAt(s)|..], known, more);
      }
    }
  }

  lemma {:induction false} GoodPlain(s: string, known: set<string>)
    requires NoOpen(s)
    ensures Good(s, known)
    decreases |s|
  {
    if s != "" {
      GoodPlain(s[1..], known);
    }
  }

  lemma {:induction false} GoodEmpty(s: string)
    requires Good(s, {})
    ensures NoOpen(s)
    decreases |s|
  {
    if s != "" {
      GoodEmpty(s[1..]);
      assert forall i :: 0 < i < |s| ==> s[i] == s[1..][i - 1];
    }
  }

  lemma GoodFront(t: string, b: string, known: set<string>)
    requires IsPlaceholder(t) && t in known && Good(b, known)
    ensures Good(t + b, known)
  {
    PlaceholderUnique(t + b, t);
    assert (t + b)[|t|..] == b;
  }

  ghost predicate AllPlaceholders(known: set<string>) {
    forall t :: t in known ==> IsPlaceholder(t)
  }

  lemma {:induction false} GoodConcat(a: string, b: string, known: set<string>)
    requires AllPlaceholders(known) && Good(a, known) && Good(b, known)
    ensures Good(a + b, known)
    decreases |a|
  {
    if a == "" {
      assert a + b == b;
    } else if a[0] != '{' {
      GoodConcat(a[1..], b, known);
      assert (a + b)[1..] == a[1..] + b;
    } else {
      var t := PlaceholderAt(a);
      GoodConcat(a[|t|..], b, known);
      GoodFront(t, a[|t|..] + b, known);
      Assoc(t, a[|t|..], b);
      assert t + a[|t|..] == a;
    }
  }

  /** Text before the first possible match is passed over. */
  lemma {:induction false} ReplaceSkips(a: string, b: string, t: string, v: string)
    requires t != "" && t[0] == '{' && NoOpen(a)
    ensures ReplaceAll(a + b, t, v) == a + ReplaceAll(b, t, v)
    decreases |a|
  {
    if a == "" {
      assert a + b == b;
    } else {
      ReplaceSkips(a[1..], b, t, v);
      assert (a + b)[1..] == a[1..] + b;
      assert (a + b)[0] != '{';
    }
  }

  /** A placeholder other than `t` is passed over whole: `t` matches neither it nor inside it. */
  lemma ReplacePassesOver(u: string, b: string, t: string, v: string)
    requires IsPlaceholder(u) && IsPlaceholder(t) && u != t
    ensures ReplaceAll(u + b, t, v) == u + ReplaceAll(b, t, v)
  {
    var s := u + b;
    if t <= s {
      PlaceholderUnique(s, t);
      PlaceholderUnique(s, u);
    }
    var s1 := s[1..];
    assert s1[0] == '{' && s1[1] != '{' by {
      assert u[2] == u[2..|u| - 2][0];
    }
    var rest := u[2..];
    assert s1[1..] == rest + b;
    assert NoOpen(rest) by {
      forall i | 0 <= i < |rest|
        ensures rest[i] != '{'
      {
        if i < |u| - 4 {
          assert rest[i] == u[2..|u| - 2][i];
        }
      }
    }
    ReplaceSkips(rest, b, t, v);
    assert ReplaceAll(s, t, v) == ['{'] + (['{'] + (rest + ReplaceAll(b, t, v)));
    assert u == ['{'] + (['{'] + rest);
  }

  /** Replacing one placeholder by text without '{' removes it and leaves the others. */
  lemma {:induction false} ReplaceGood(s: string, known: set<string>, t: string, v: string)
    requires AllPlaceholders(known) && IsPlaceholder(t) && Good(s, known) && NoOpen(v)
    ensures Good(ReplaceAll(s, t, v), known - {t})
    decreases |s|
  {
    if s != "" {
      if s[0] != '{' {
        ReplaceGood(s[1..], known, t, v);
      } else {
        var u := PlaceholderAt(s);
        var b := s[|u|..];
        assert s == u + b;
        ReplaceGood(b, known, t, v);
        if u == t {
          GoodPlain(v, known - {t});
          GoodConcat(v, ReplaceAll(b, t, v), known - {t});
        } else {
          ReplacePassesOver(u, b, t, v);
          GoodFront(u, ReplaceAll(b, t, v), known - {t});
        }
      }
    }
  }

  lemma {:induction false} ResolvePlain(a: string, b: string, values: map<string, string>)
    requires NoOpen(a)
    ensures Resolve(a + b, values) == a + Resolve(b, values)
    decreases |a|
  {
    if a == "" {
      assert a + b == b;
    } else {
      ResolvePlain(a[1..], b, values);
      assert (a + b)[1..] == a[1..] + b;
    }
  }

  lemma ResolveFront(t: string, b: string, values: map<string, string>)
    requires IsPlaceholder(t) && t in values
    ensures Resolve(t + b, values) == values[t] + Resolve(b, values)
  {
    PlaceholderUnique(t + b, t);
    assert (t + b)[|t|..] == b;
  }

  /** Replacing one placeholder first makes no difference to replacing them all. */
  lemma {:induction false} ReplaceThenResolve(s: string, known: set<string>, t: string, v: string, values: map<string, string>)
    requires AllPlaceholders(known) && IsPlaceholder(t) && Good(s, known) && NoOpen(v)
    requires known <= values.Keys + {t} && (t in values ==> values[t] == v)
    ensures Resolve(ReplaceAll(s, t, v), values) == Resolve(s, values[t := v])
    decreases |s|
  {
    if s != "" {
      if s[0] != '{' {
        ReplaceThenResolve(s[1..], known, t, v, values);
      } else {
        var u := PlaceholderAt(s);
        var b := s[|u|..];
        assert s == u + b;
        ReplaceThenResolve(b, known, t, v, values);
        if u == t {
          ResolvePlain(v, ReplaceAll(b, t, v), values);
        } else {
          ReplacePassesOver(u, b, t, v);
          ResolveFront(u, ReplaceAll(b, t, v), values);
        }
      }
    }
  }

  lemma {:induction false} ResolveNothing(s: string, values: map<string, string>)
    requires NoOpen(s)
    ensures Resolve(s, values) == s
  {
    ResolvePlain(s, "", values);
    assert s + "" == s;
  }
}
