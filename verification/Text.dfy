/** The string operations of Go's standard library that the argv code is written with. */
module Text {
  import opened Prelude

  lemma TwoParts(s: string, i: nat)
    requires i <= |s|
    ensures s[..i] + s[i..] == s
  {
  }

  lemma Regroup(a: string, b: string, c: string, d: string)
    ensures a + b + c + d == a + (b + (c + d))
  {
  }

  lemma Assoc(a: string, b: string, c: string)
    ensures a + (b + c) == a + b + c
  {
  }

  /** strings.Index: where `key` first occurs. */
  function Index(s: string, key: string): (r: Option<nat>)
    ensures r.Some? ==> r.value + |key| <= |s|
    decreases |s|
  {
    if key <= s then Some(0)
    else if s == "" then None
    else
      var r := Index(s[1..], key);
      if r.Some? then Some(r.value + 1) else None
  }

  /** The key stands where Index finds it. */
  lemma {:induction false} IndexMatches(s: string, key: string)
    requires Index(s, key).Some?
    ensures s[Index(s, key).value..][..|key|] == key
    decreases |s|
  {
    var i := Index(s, key).value;
    if !(key <= s) {
      IndexMatches(s[1..], key);
      assert s[i..] == s[1..][i - 1..];
    }
  }

  predicate Contains(s: string, key: string) {
    Index(s, key).Some?
  }

  function IndexByte(s: string, c: char): (r: Option<nat>)
    ensures r.Some? ==> r.value < |s| && s[r.value] == c && c !in s[..r.value]
    ensures r.None? ==> c !in s
    decreases |s|
  {
    if s == "" then None
    else if s[0] == c then Some(0)
    else
      var r := IndexByte(s[1..], c);
      if r.Some? then Some(r.value + 1) else None
  }

  lemma {:induction false} IndexByteLeast(s: string, c: char, i: nat)
    requires i < |s| && s[i] == c
    ensures IndexByte(s, c).Some? && IndexByte(s, c).value <= i
    decreases |s|
  {
    if s[0] != c {
      IndexByteLeast(s[1..], c, i - 1);
    }
  }

  /** strings.ReplaceAll for a non-empty `old`: leftmost occurrences first, without overlap. */
  function ReplaceAll(s: string, target: string, repl: string): string
    requires target != ""
    decreases |s|
  {
    if s == "" then ""
    else if target <= s then repl + ReplaceAll(s[|target|..], target, repl)
    else [s[0]] + ReplaceAll(s[1..], target, repl)
  }

  /** strings.Split on one byte. */
  function Split(s: string, sep: char): (parts: seq<string>)
    ensures |parts| > 0
    decreases |s|
  {
    var i := IndexByte(s, sep);
    if i.None? then [s] else [s[..i.value]] + Split(s[i.value + 1..], sep)
  }

  /** strings.Join on one byte. */
  function Join(parts: seq<string>, sep: char): string {
    if parts == [] then ""
    else if |parts| == 1 then parts[0]
    else parts[0] + [sep] + Join(parts[1..], sep)
  }

  lemma {:induction false} SplitJoin(s: string, sep: char)
    ensures Join(Split(s, sep), sep) == s
    ensures forall i :: 0 <= i < |Split(s, sep)| ==> sep !in Split(s, sep)[i]
    decreases |s|
  {
    var i := IndexByte(s, sep);
    if i.Some? {
      SplitJoin(s[i.value + 1..], sep);
      assert s == s[..i.value] + [sep] + s[i.value + 1..];
    }
  }

  lemma {:induction false} JoinSplit(parts: seq<string>, sep: char)
    requires |parts| > 0 && forall i :: 0 <= i < |parts| ==> sep !in parts[i]
    ensures Split(Join(parts, sep), sep) == parts
    decreases |parts|
  {
    var s := Join(parts, sep);
    if |parts| == 1 {
      assert sep !in parts[0];
    } else {
      JoinSplit(parts[1..], sep);
      IndexByteAt(parts[0], sep, Join(parts[1..], sep));
      assert s[..|parts[0]|] == parts[0];
      assert s[|parts[0]| + 1..] == Join(parts[1..], sep);
    }
  }

  lemma {:induction false} IndexByteAt(a: string, c: char, b: string)
    requires c !in a
    ensures IndexByte(a + [c] + b, c) == Some(|a|)
    decreases |a|
  {
    if a != "" {
      IndexByteAt(a[1..], c, b);
      assert (a + [c] + b)[1..] == a[1..] + [c] + b;
    }
  }
}

/** Decimal numerals as fmt and strconv print and read them. */
module Decimal {
  import opened Prelude

  function Digit(n: nat): char
    requires n < 10
  {
    '0' + n as char
  }

  predicate IsDigit(c: char) {
    '0' <= c <= '9'
  }

  predicate AllDigits(s: string) {
    forall i :: 0 <= i < |s| ==> IsDigit(s[i])
  }

  /** The numeral of n, without leading zeros. */
  function Dec(n: nat): (s: string)
    ensures s != "" && AllDigits(s)
  {
    if n < 10 then [Digit(n)] else Dec(n / 10) + [Digit(n % 10)]
  }

  function DigitValue(c: char): nat
    requires IsDigit(c)
  {
    (c - '0') as nat
  }

  function Value(s: string): nat
    requires AllDigits(s)
  {
    if s == "" then 0 else 10 * Value(s[..|s| - 1]) + DigitValue(s[|s| - 1])
  }

  lemma {:induction false} ValueOfDec(n: nat)
    ensures Value(Dec(n)) == n
    decreases n
  {
    if n >= 10 {
      ValueOfDec(n / 10);
      assert Dec(n)[..|Dec(n)| - 1] == Dec(n / 10);
    } else {
      assert Dec(n)[..0] == "";
    }
  }

  /** No two numbers share a numeral. */
  lemma DecInjective(m: nat, n: nat)
    requires Dec(m) == Dec(n)
    ensures m == n
  {
    ValueOfDec(m);
    ValueOfDec(n);
  }

  lemma {:induction false} NoLeadingZero(n: nat)
    ensures |Dec(n)| > 1 ==> Dec(n)[0] != '0'
    ensures n > 0 ==> Dec(n)[0] != '0'
    decreases n
  {
    if n >= 10 {
      NoLeadingZero(n / 10);
    }
  }

  lemma TenTimes(v: nat, d: nat)
    requires d < 10
    ensures (10 * v + d) / 10 == v && (10 * v + d) % 10 == d
    ensures v > 0 ==> 10 * v + d >= 10
  {
  }

  lemma {:induction false} DecOfCanonical(s: string)
    requires s != "" && AllDigits(s) && (|s| == 1 || s[0] != '0')
    ensures Dec(Value(s)) == s
    ensures s[0] != '0' ==> Value(s) > 0
    decreases |s|
  {
    var t := s[..|s| - 1];
    var d := s[|s| - 1];
    assert Digit(DigitValue(d)) == d;
    assert s == t + [d];
    if |s| == 1 {
      assert t == "";
    } else {
      assert t[0] == s[0];
      DecOfCanonical(t);
      TenTimes(Value(t), DigitValue(d));
      assert Dec(Value(s)) == Dec(Value(t)) + [Digit(DigitValue(d))];
    }
  }

  /** A numeral is the printed form of its value exactly when it has no superfluous leading zero. */
  lemma DecOfValue(s: string)
    requires s != "" && AllDigits(s)
    ensures Dec(Value(s)) == s <==> |s| == 1 || s[0] != '0'
  {
    if |s| == 1 || s[0] != '0' {
      DecOfCanonical(s);
    } else {
      NoLeadingZero(Value(s));
    }
  }

  const MAX_INT64: nat := 0x7fff_ffff_ffff_ffff

  /** strconv.Atoi on a 64-bit machine: an optional sign and decimal digits, in range. */
  function Atoi(s: string): Option<int> {
    var digits := if s != "" && (s[0] == '+' || s[0] == '-') then s[1..] else s;
    if digits == "" || !AllDigits(digits) then None
    else if s[0] == '-' then
      var v: int := Value(digits);
      if v <= MAX_INT64 + 1 then Some(-v) else None
    else
      if Value(digits) <= MAX_INT64 then Some(Value(digits)) else None
  }

  /** What Itoa prints, Atoi reads. */
  lemma AtoiDec(n: nat)
    requires n <= MAX_INT64
    ensures Atoi(Dec(n)) == Some(n)
  {
    ValueOfDec(n);
    assert IsDigit(Dec(n)[0]);
  }
}
