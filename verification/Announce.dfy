/** Which chunk names an announce body references (internal/workerd/proxy.go). */
module Announce {
  import opened Prelude
  import opened Text

  predicate IsAlnum(c: char) {
    'A' <= c <= 'Z' || 'a' <= c <= 'z' || '0' <= c <= '9'
  }

  /** The characters of a chunk name, template markers included. */
  predicate IsNameChar(c: char) {
    IsAlnum(c) || c == '_' || c == '$' || c == '%' || c == '.' || c == '-'
  }

  predicate AllNameChars(s: string) {
    forall i :: 0 <= i < |s| ==> IsNameChar(s[i])
  }

  /** The alternatives that a chunk name starts with. */
  const PREFIXES: seq<string> := ["sub-chunk-", "chunk-", "init-", "media-"]

  /** The first alternative that stands at the front of `s`, or "". */
  function Front(s: string, ps: seq<string>): (p: string)
    ensures p <= s && (p == "" || p in ps)
  {
    if ps == [] then "" else if ps[0] <= s then ps[0] else Front(s, ps[1..])
  }

  /** Alternatives made of name characters, starting alphanumeric; none begins another. */
  ghost predicate Apart(ps: seq<string>) {
    && (forall i :: 0 <= i < |ps| ==> ps[i] != "" && AllNameChars(ps[i]) && IsAlnum(ps[i][0]))
    && (forall i, j :: 0 <= i < |ps| && 0 <= j < |ps| && i != j ==> !(ps[i] <= ps[j]))
  }

  /** The language of the pattern: a prefix, then name characters of which the last is alphanumeric. */
  predicate IsReference(t: string, ps: seq<string>) {
    var p := Front(t, ps);
    0 < |p| < |t| && AllNameChars(t[|p|..]) && IsAlnum(t[|t| - 1])
  }

  function RunLength(s: string): (n: nat)
    ensures n <= |s| && AllNameChars(s[..n])
    ensures n < |s| ==> !IsNameChar(s[n])
    decreases |s|
  {
    if s == "" || !IsNameChar(s[0]) then 0
    else
      var n := RunLength(s[1..]);
      assert s[..n + 1] == [s[0]] + s[1..][..n];
      n + 1
  }

  /** The longest beginning of `s` that ends alphanumeric. */
  function TrimLength(s: string): (n: nat)
    ensures n <= |s|
    ensures n > 0 ==> IsAlnum(s[n - 1])
    ensures forall i :: n <= i < |s| ==> !IsAlnum(s[i])
    decreases |s|
  {
    if s == "" then 0
    else if IsAlnum(s[|s| - 1]) then |s|
    else TrimLength(s[..|s| - 1])
  }

  /** The match at the front of `s`: the greedy tail backs off to its last alphanumeric character. */
  function MatchLength(s: string, ps: seq<string>): (n: nat)
    ensures n <= |s|
  {
    var p := |Front(s, ps)|;
    if p == 0 then 0
    else
      var k := TrimLength(s[p..][..RunLength(s[p..])]);
      if k == 0 then 0 else p + k
  }

  /** All matches, leftmost first and without overlap. */
  function FindAll(s: string, ps: seq<string>): seq<string>
    decreases |s|
  {
    if s == "" then []
    else
      var n := MatchLength(s, ps);
      if n > 0 then [s[..n]] + FindAll(s[n..], ps) else FindAll(s[1..], ps)
  }

  /** The distinct elements, by first appearance. */
  function Distinct(s: seq<string>): (d: seq<string>)
    decreases |s|
  {
    if s == [] then []
    else
      var d := Distinct(s[..|s| - 1]);
      var x := s[|s| - 1];
      if x in d then d else d + [x]
  }

  function References(body: string): seq<string> {
    Distinct(FindAll(body, PREFIXES))
  }

  /** referencedChunks: `seen` guards against listing a name twice. */
  method ReferencedChunks(body: string) returns (names: seq<string>)
    ensures names == References(body)
  {
    var matches := FindAll(body, PREFIXES);
    var seen: set<string> := {};
    names := [];
    for i := 0 to |matches|
      invariant seen == set x | x in names
      invariant names == Distinct(matches[..i])
    {
      assert matches[..i + 1][..i] == matches[..i];
      var s := matches[i];
      if s !in seen {
        seen := seen + {s};
        names := names + [s];
      }
    }
    assert matches[..|matches|] == matches;
  }

  // ---- the pattern ----

  lemma PrefixesApart()
    ensures Apart(PREFIXES)
  {
    assert forall i :: 0 <= i < |PREFIXES| ==> IsAlnum(PREFIXES[i][0]);
    assert PREFIXES[0][0] == 's' && PREFIXES[1][0] == 'c' && PREFIXES[2][0] == 'i' && PREFIXES[3][0] == 'm';
  }

  lemma {:induction false} FrontIs(s: string, ps: seq<string>, k: nat)
    requires Apart(ps) && k < |ps| && ps[k] <= s
    ensures Front(s, ps) == ps[k]
  {
    if ps[0] <= s {
      if k != 0 {
        PrefixesCompare(ps[0], ps[k], s);
        assert false;
      }
    } else {
      FrontIs(s, ps[1..], k - 1);
    }
  }

  lemma PrefixesCompare(a: string, b: string, s: string)
    requires a <= s && b <= s
    ensures a <= b || b <= a
  {
  }

  /** Text that agrees up to the prefix has the same one. */
  lemma FrontShared(s: string, t: string, ps: seq<string>)
    requires Apart(ps) && Front(s, ps) != "" && Front(s, ps) <= t
    ensures Front(t, ps) == Front(s, ps)
  {
    var k :| 0 <= k < |ps| && ps[k] == Front(s, ps);
    FrontIs(t, ps, k);
  }

  lemma MatchIsReference(s: string, ps: seq<string>)
    requires Apart(ps) && MatchLength(s, ps) > 0
    ensures IsReference(s[..MatchLength(s, ps)], ps)
  {
    var n := MatchLength(s, ps);
    var p := |Front(s, ps)|;
    var run := s[p..][..RunLength(s[p..])];
    FrontShared(s, s[..n], ps);
    forall i | p <= i < n
      ensures IsNameChar(s[i])
    {
      assert s[i] == run[i - p];
    }
    assert s[n - 1] == run[n - p - 1];
  }

  /** The match is the longest beginning of the text that is a reference. */
  lemma MatchLongest(s: string, k: nat, ps: seq<string>)
    requires Apart(ps) && k <= |s| && IsReference(s[..k], ps)
    ensures k <= MatchLength(s, ps)
  {
    var t := s[..k];
    FrontShared(t, s, ps);
    var p := |Front(s, ps)|;
    var r := RunLength(s[p..]);
    forall i | p <= i < k
      ensures IsNameChar(s[i])
    {
      assert s[i] == t[p..][i - p];
    }
    assert k <= p + r;
    assert s[p..][..r][k - p - 1] == t[k - 1];
  }

  // ---- nothing is missed ----

  lemma ReferenceChars(tok: string, ps: seq<string>)
    requires Apart(ps) && IsReference(tok, ps)
    ensures AllNameChars(tok)
  {
    var p := Front(tok, ps);
    forall i | 0 <= i < |tok|
      ensures IsNameChar(tok[i])
    {
      if i < |p| {
        assert tok[i] == p[i];
      } else {
        assert tok[i] == tok[|p|..][i - |p|];
      }
    }
  }

  /** A match never crosses a character that no name holds. */
  lemma MatchStops(a: string, b: string, ps: seq<string>)
    requires Apart(ps) && (b == "" || !IsNameChar(b[0]))
    ensures MatchLength(a + b, ps) <= |a|
  {
    var n := MatchLength(a + b, ps);
    if b != "" && n > 0 {
      MatchIsReference(a + b, ps);
      ReferenceChars((a + b)[..n], ps);
      assert (a + b)[|a|] == b[0];
    }
  }

  /** What stands before such a character decides the matches before it. */
  lemma MatchLocal(a: string, b: string, ps: seq<string>)
    requires Apart(ps) && (b == "" || !IsNameChar(b[0]))
    ensures MatchLength(a + b, ps) == MatchLength(a, ps)
  {
    MatchShorter(a, b, ps);
    MatchLonger(a, b, ps);
  }

  lemma MatchShorter(a: string, b: string, ps: seq<string>)
    requires Apart(ps) && (b == "" || !IsNameChar(b[0]))
    ensures MatchLength(a + b, ps) <= MatchLength(a, ps)
  {
    var n := MatchLength(a + b, ps);
    MatchStops(a, b, ps);
    if n > 0 {
      MatchIsReference(a + b, ps);
      assert (a + b)[..n] == a[..n];
      MatchLongest(a, n, ps);
    }
  }

  lemma MatchLonger(a: string, b: string, ps: seq<string>)
    requires Apart(ps)
    ensures MatchLength(a, ps) <= MatchLength(a + b, ps)
  {
    var m := MatchLength(a, ps);
    if m > 0 {
      MatchIsReference(a, ps);
      assert (a + b)[..m] == a[..m];
      MatchLongest(a + b, m, ps);
    }
  }

  /** One step of the search, on text in two parts. */
  lemma FindStep(a: string, b: string, ps: seq<string>, n: nat)
    requires a != "" && n == MatchLength(a + b, ps) <= |a|
    ensures n > 0 ==> FindAll(a + b, ps) == [a[..n]] + FindAll(a[n..] + b, ps)
    ensures n == 0 ==> FindAll(a + b, ps) == FindAll(a[1..] + b, ps)
  {
    if n > 0 {
      assert (a + b)[n..] == a[n..] + b;
      assert (a + b)[..n] == a[..n];
    } else {
      assert (a + b)[1..] == a[1..] + b;
    }
  }

  /** The matches on the two sides of such a character are independent. */
  lemma {:induction false} FindSplit(a: string, b: string, ps: seq<string>)
    requires Apart(ps) && (b == "" || !IsNameChar(b[0]))
    ensures FindAll(a + b, ps) == FindAll(a, ps) + FindAll(b, ps)
    decreases |a|
  {
    if a == "" {
      assert a + b == b;
    } else {
      var n := MatchLength(a, ps);
      MatchLocal(a, b, ps);
      FindStep(a, b, ps, n);
      FindOwn(a, ps, n);
      if n > 0 {
        FindSplit(a[n..], b, ps);
        Prepended(a[..n], FindAll(a[n..], ps), FindAll(b, ps));
      } else {
        FindSplit(a[1..], b, ps);
      }
    }
  }

  lemma Prepended(x: string, y: seq<string>, z: seq<string>)
    ensures [x] + (y + z) == [x] + y + z
  {
  }

  lemma FindOwn(a: string, ps: seq<string>, n: nat)
    requires a != "" && n == MatchLength(a, ps)
    ensures n > 0 ==> FindAll(a, ps) == [a[..n]] + FindAll(a[n..], ps)
    ensures n == 0 ==> FindAll(a, ps) == FindAll(a[1..], ps)
  {
  }

  lemma FrontStarts(s: string, ps: seq<string>)
    requires Apart(ps) && Front(s, ps) != ""
    ensures IsAlnum(s[0])
  {
    assert Front(s, ps)[0] == s[0];
  }

  lemma FrontNone(s: string, ps: seq<string>)
    requires Apart(ps) && s != "" && !IsAlnum(s[0])
    ensures Front(s, ps) == ""
  {
    if Front(s, ps) != "" {
      FrontStarts(s, ps);
      assert false;
    }
  }

  lemma {:induction false} FindNothing(b: string, ps: seq<string>)
    requires Apart(ps) && forall i :: 0 <= i < |b| ==> !IsAlnum(b[i])
    ensures FindAll(b, ps) == []
    decreases |b|
  {
    if b != "" {
      FrontNone(b, ps);
      FindNothing(b[1..], ps);
    }
  }

  lemma MatchExact(tok: string, tail: string, ps: seq<string>)
    requires Apart(ps) && IsReference(tok, ps) && AllNameChars(tail)
    requires forall i :: 0 <= i < |tail| ==> !IsAlnum(tail[i])
    ensures MatchLength(tok + tail, ps) == |tok|
  {
    var s := tok + tail;
    assert s[..|tok|] == tok;
    MatchLongest(s, |tok|, ps);
    MatchIsReference(s, ps);
    forall i | |tok| <= i < |s|
      ensures !IsAlnum(s[i])
    {
      assert s[i] == tail[i - |tok|];
    }
  }

  /** A run of name characters that starts with a prefix is matched up to its last alphanumeric one. */
  lemma RunMatches(tok: string, tail: string, ps: seq<string>)
    requires Apart(ps) && IsReference(tok, ps) && AllNameChars(tail)
    requires forall i :: 0 <= i < |tail| ==> !IsAlnum(tail[i])
    ensures FindAll(tok + tail, ps) == [tok]
  {
    MatchExact(tok, tail, ps);
    FindStep(tok, tail, ps, |tok|);
    assert tok[..|tok|] == tok && tok[|tok|..] + tail == tail;
    FindNothing(tail, ps);
  }

  lemma StepOver(c: char, b: string, ps: seq<string>)
    requires Apart(ps) && !IsNameChar(c)
    ensures FindAll([c] + b, ps) == FindAll(b, ps)
  {
    FrontNone([c] + b, ps);
    assert ([c] + b)[1..] == b;
  }

  /** The same boundary seen from the other side: the character stands at the end of the first part. */
  lemma FindAfter(a: string, c: char, b: string, ps: seq<string>)
    requires Apart(ps) && !IsNameChar(c)
    ensures FindAll(a + ([c] + b), ps) == FindAll(a, ps) + FindAll(b, ps)
  {
    FindSplit(a, [c] + b, ps);
    StepOver(c, b, ps);
  }

  lemma FindEnd(a: string, c: char, ps: seq<string>)
    requires Apart(ps) && !IsNameChar(c)
    ensures FindAll(a + [c], ps) == FindAll(a, ps)
  {
    FindAfter(a, c, "", ps);
    assert [c] + "" == [c];
  }

  lemma FindBoth(a: string, c: char, b: string, ps: seq<string>)
    requires Apart(ps) && !IsNameChar(c)
    ensures FindAll(a + [c] + b, ps) == FindAll(a + [c], ps) + FindAll(b, ps)
  {
    FindAfter(a, c, b, ps);
    FindEnd(a, c, ps);
    Assoc(a, [c], b);
  }

  lemma SplitLast(s: string) returns (a: string, c: char)
    requires s != ""
    ensures s == a + [c] && c == s[|s| - 1]
  {
    a, c := s[..|s| - 1], s[|s| - 1];
  }

  lemma FindPast(pre: string, b: string, ps: seq<string>)
    requires Apart(ps) && (pre == "" || !IsNameChar(pre[|pre| - 1]))
    ensures FindAll(pre + b, ps) == FindAll(pre, ps) + FindAll(b, ps)
  {
    if pre == "" {
      assert pre + b == b;
    } else {
      var a, c := SplitLast(pre);
      FindBoth(a, c, b, ps);
    }
  }

  /**
   * Parsing misses nothing: every maximal run of name characters that starts with a prefix and has an
   * alphanumeric character after it is matched as one whole name, without its trailing punctuation;
   * the text before and after it is parsed as if the run were not there.
   */
  lemma RunIsFound(pre: string, tok: string, tail: string, post: string, ps: seq<string>)
    requires Apart(ps) && IsReference(tok, ps) && AllNameChars(tail)
    requires forall i :: 0 <= i < |tail| ==> !IsAlnum(tail[i])
    requires pre == "" || !IsNameChar(pre[|pre| - 1])
    requires post == "" || !IsNameChar(post[0])
    ensures FindAll(pre + (tok + tail + post), ps) == FindAll(pre, ps) + ([tok] + FindAll(post, ps))
  {
    RunMatches(tok, tail, ps);
    FindSplit(tok + tail, post, ps);
    FindPast(pre, tok + tail + post, ps);
  }

  lemma {:induction false} OnlyReferences(s: string, ps: seq<string>)
    requires Apart(ps)
    ensures forall i :: 0 <= i < |FindAll(s, ps)| ==> IsReference(FindAll(s, ps)[i], ps)
    decreases |s|
  {
    if s != "" {
      var n := MatchLength(s, ps);
      if n > 0 {
        MatchIsReference(s, ps);
      }
      OnlyReferences(if n > 0 then s[n..] else s[1..], ps);
    }
  }

  // ---- the result ----

  function First(s: seq<string>, x: string): (i: nat)
    requires x in s
    ensures i < |s| && s[i] == x && x !in s[..i]
  {
    if s[0] == x then 0 else 1 + First(s[1..], x)
  }

  lemma {:induction false} FirstStable(s: seq<string>, y: string, x: string)
    requires x in s
    ensures First(s + [y], x) == First(s, x)
    decreases |s|
  {
    assert (s + [y])[0] == s[0];
    if s[0] != x {
      assert (s + [y])[1..] == s[1..] + [y];
      FirstStable(s[1..], y, x);
    }
  }

  lemma {:induction false} FirstNew(s: seq<string>, x: string)
    requires x !in s
    ensures First(s + [x], x) == |s|
    decreases |s|
  {
    if s != [] {
      assert (s + [x])[1..] == s[1..] + [x];
      FirstNew(s[1..], x);
    }
  }

  /** The result holds the matches, each once, by first appearance in the body. */
  lemma {:induction false} DistinctMeans(s: seq<string>)
    ensures forall x :: x in Distinct(s) <==> x in s
    ensures NoDup(Distinct(s))
    ensures forall i, j :: 0 <= i < j < |Distinct(s)| ==> First(s, Distinct(s)[i]) < First(s, Distinct(s)[j])
    decreases |s|
  {
    if s != [] {
      var t, x := s[..|s| - 1], s[|s| - 1];
      var d := Distinct(t);
      DistinctMeans(t);
      assert s == t + [x];
      forall y | y in t
        ensures First(s, y) == First(t, y)
      {
        FirstStable(t, x, y);
      }
      if x !in d {
        FirstNew(t, x);
        assert forall i :: 0 <= i < |d| ==> d[i] in t;
      }
    }
  }

  /** What the gate waits for: every whole chunk name of the body, and nothing but names. */
  lemma NameIsReferenced(pre: string, tok: string, tail: string, post: string)
    requires IsReference(tok, PREFIXES) && AllNameChars(tail) && forall i :: 0 <= i < |tail| ==> !IsAlnum(tail[i])
    requires pre == "" || !IsNameChar(pre[|pre| - 1])
    requires post == "" || !IsNameChar(post[0])
    ensures tok in References(pre + (tok + tail + post))
  {
    PrefixesApart();
    var body := pre + (tok + tail + post);
    RunIsFound(pre, tok, tail, post, PREFIXES);
    DistinctMeans(FindAll(body, PREFIXES));
  }

  lemma ReferencesAreNames(body: string)
    ensures NoDup(References(body))
    ensures forall n :: n in References(body) ==> IsReference(n, PREFIXES)
  {
    PrefixesApart();
    DistinctMeans(FindAll(body, PREFIXES));
    OnlyReferences(body, PREFIXES);
  }

  // ---- the pattern, spelled out ----

  predicate LetterOrDigit(c: char) {
    'A' <= c <= 'Z' || 'a' <= c <= 'z' || '0' <= c <= '9'
  }

  /** `t` is the prefix and then letters, digits, '_', '$', '%', '.' and '-', the last one a letter or digit. */
  predicate Spelled(t: string, prefix: string) {
    && prefix <= t && |prefix| < |t| && LetterOrDigit(t[|t| - 1])
    && forall i :: |prefix| <= i < |t| ==> LetterOrDigit(t[i]) || t[i] in {'_', '$', '%', '.', '-'}
  }

  lemma TailChars(t: string, prefix: string)
    requires prefix <= t && |prefix| < |t|
    ensures AllNameChars(t[|prefix|..]) && IsAlnum(t[|t| - 1]) <==> Spelled(t, prefix)
  {
    var tail := t[|prefix|..];
    assert forall i :: |prefix| <= i < |t| ==> t[i] == tail[i - |prefix|];
    assert forall i :: 0 <= i < |tail| ==> tail[i] == t[i + |prefix|];
  }

  /** The names that count as references are exactly the texts of the pattern. */
  lemma PatternIs(t: string)
    ensures IsReference(t, PREFIXES) <==>
              Spelled(t, "sub-chunk-") || Spelled(t, "chunk-") || Spelled(t, "init-") || Spelled(t, "media-")
  {
    PrefixesApart();
    if IsReference(t, PREFIXES) {
      TailChars(t, Front(t, PREFIXES));
    }
    SpelledIs(t, 0);
    SpelledIs(t, 1);
    SpelledIs(t, 2);
    SpelledIs(t, 3);
  }

  lemma SpelledIs(t: string, k: nat)
    requires Apart(PREFIXES) && k < 4
    ensures Spelled(t, PREFIXES[k]) ==> IsReference(t, PREFIXES)
  {
    if Spelled(t, PREFIXES[k]) {
      FrontIs(t, PREFIXES, k);
      TailChars(t, PREFIXES[k]);
    }
  }
}
