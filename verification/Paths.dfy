/** Slash-separated paths as Go's path/filepath treats them on Unix. */
module Paths {
  import opened Text

  predicate IsAbs(p: string) {
    p != "" && p[0] == '/'
  }

  /** One path element met while cleaning, on the stack of elements kept so far. */
  function Step(kept: seq<string>, e: string, rooted: bool): seq<string> {
    if e == "" || e == "." then kept
    else if e == ".." then
      if kept != [] && kept[|kept| - 1] != ".." then kept[..|kept| - 1]
      else if rooted then kept
      else kept + [e]
    else kept + [e]
  }

  function Kept(elements: seq<string>, rooted: bool): seq<string> {
    if elements == [] then []
    else Step(Kept(elements[..|elements| - 1], rooted), elements[|elements| - 1], rooted)
  }

  /** filepath.Clean. */
  function Clean(p: string): (r: string)
    ensures r != ""
    ensures IsAbs(p) ==> IsAbs(r)
  {
    if p == "" then "."
    else
      var kept := Kept(Split(p, '/'), IsAbs(p));
      if IsAbs(p) then "/" + Join(kept, '/')
      else if Join(kept, '/') == "" then "."
      else Join(kept, '/')
  }

  /** filepath.Join of a non-empty directory and a path. */
  function JoinPath(dir: string, p: string): string {
    Clean(dir + "/" + p)
  }

  /** The shim's abs: a path resolved against the session dir, and cleaned. */
  function Absolute(dir: string, p: string): string {
    Clean(if IsAbs(p) then p else JoinPath(dir, p))
  }

  // ---- cleaning an absolute path ----

  predicate Plain(e: string) {
    e != "" && e != "." && e != ".." && '/' !in e
  }

  predicate AllPlain(es: seq<string>) {
    forall i :: 0 <= i < |es| ==> Plain(es[i])
  }

  lemma {:induction false} KeptPlain(es: seq<string>)
    requires forall i :: 0 <= i < |es| ==> '/' !in es[i]
    ensures AllPlain(Kept(es, true))
    decreases |es|
  {
    if es != [] {
      KeptPlain(es[..|es| - 1]);
    }
  }

  lemma {:induction false} KeptAll(es: seq<string>)
    requires AllPlain(es)
    ensures Kept(es, true) == es
    decreases |es|
  {
    if es != [] {
      KeptAll(es[..|es| - 1]);
    }
  }

  lemma {:induction false} KeptFront(es: seq<string>)
    ensures Kept([""] + es, true) == Kept(es, true)
    decreases |es|
  {
    var s := [""] + es;
    if es == [] {
      assert s[..0] == [];
    } else {
      assert s[..|s| - 1] == [""] + es[..|es| - 1];
      KeptFront(es[..|es| - 1]);
    }
  }

  lemma SplitRooted(rest: string)
    ensures Split("/" + rest, '/') == [""] + Split(rest, '/')
  {
    var p := "/" + rest;
    assert IndexByte(p, '/').value == 0;
    assert p[..0] == "" && p[1..] == rest;
  }

  /** What cleaning an absolute path gives: '/' and plain elements, none empty, '.' or '..'. */
  lemma CleanRooted(p: string) returns (es: seq<string>)
    requires IsAbs(p)
    ensures AllPlain(es) && Clean(p) == "/" + Join(es, '/')
  {
    es := Kept(Split(p, '/'), true);
    SplitJoin(p, '/');
    KeptPlain(Split(p, '/'));
  }

  lemma PlainIsClean(es: seq<string>)
    requires AllPlain(es)
    ensures Clean("/" + Join(es, '/')) == "/" + Join(es, '/')
  {
    var rest := Join(es, '/');
    SplitRooted(rest);
    KeptFront(Split(rest, '/'));
    if es == [] {
      assert Split(rest, '/') == [""];
      assert [""][..0] == [];
      assert Kept([""], true) == [];
    } else {
      JoinSplit(es, '/');
      KeptAll(es);
    }
  }

  /** Cleaning twice changes nothing more. */
  lemma CleanIdempotent(p: string)
    requires IsAbs(p)
    ensures Clean(Clean(p)) == Clean(p)
  {
    var es := CleanRooted(p);
    PlainIsClean(es);
  }

  /** Against an absolute session dir, every path becomes absolute and clean. */
  lemma AbsoluteIsClean(dir: string, p: string)
    requires IsAbs(dir)
    ensures IsAbs(Absolute(dir, p)) && Clean(Absolute(dir, p)) == Absolute(dir, p)
  {
    if IsAbs(p) {
      CleanIdempotent(p);
    } else {
      CleanIdempotent(JoinPath(dir, p));
    }
  }

  /** A path is used as it stands exactly when it is absolute and clean. */
  lemma AbsoluteKeeps(dir: string, p: string)
    requires IsAbs(dir)
    ensures Absolute(dir, p) == p <==> IsAbs(p) && Clean(p) == p
  {
    AbsoluteIsClean(dir, p);
  }

  lemma {:induction false} JoinNoBrace(es: seq<string>, c: char)
    requires c != '/' && forall i :: 0 <= i < |es| ==> c !in es[i]
    ensures c !in Join(es, '/')
    decreases |es|
  {
    if |es| > 1 {
      JoinNoBrace(es[1..], c);
    }
  }

  lemma {:induction false} SplitLacks(s: string, c: char, sep: char)
    requires c !in s
    ensures forall i :: 0 <= i < |Split(s, sep)| ==> c !in Split(s, sep)[i]
    decreases |s|
  {
    var i := IndexByte(s, sep);
    if i.Some? {
      SplitLacks(s[i.value + 1..], c, sep);
    }
  }

  lemma {:induction false} KeptLacks(es: seq<string>, rooted: bool, c: char)
    requires forall i :: 0 <= i < |es| ==> c !in es[i]
    ensures forall i :: 0 <= i < |Kept(es, rooted)| ==> c !in Kept(es, rooted)[i]
    decreases |es|
  {
    if es != [] {
      KeptLacks(es[..|es| - 1], rooted, c);
    }
  }

  /** Cleaning brings in no character but '/' and '.'. */
  lemma CleanLacks(p: string, c: char)
    requires c !in p && c != '/' && c != '.'
    ensures c !in Clean(p)
  {
    if p != "" {
      var es := Split(p, '/');
      SplitLacks(p, c, '/');
      KeptLacks(es, IsAbs(p), c);
      JoinNoBrace(Kept(es, IsAbs(p)), c);
    }
  }

  lemma AbsoluteLacks(dir: string, p: string, c: char)
    requires c !in p && c !in dir && c != '/' && c != '.'
    ensures c !in Absolute(dir, p)
  {
    CleanLacks(dir + "/" + p, c);
    CleanLacks(if IsAbs(p) then p else JoinPath(dir, p), c);
  }

  // ---- the last element survives cleaning ----

  function LastElement(p: string): string {
    Split(p, '/')[|Split(p, '/')| - 1]
  }

  predicate Special(e: string) {
    e == "" || e == "." || e == ".."
  }

  lemma KeptLast(es: seq<string>, rooted: bool)
    requires es != [] && !Special(es[|es| - 1])
    ensures Kept(es, rooted) != [] && Kept(es, rooted)[|Kept(es, rooted)| - 1] == es[|es| - 1]
  {
  }

  lemma SplitSlashless(p: string)
    ensures forall i :: 0 <= i < |Split(p, '/')| ==> '/' !in Split(p, '/')[i]
  {
    SplitJoin(p, '/');
  }

  lemma {:induction false} KeptSlashless(es: seq<string>, rooted: bool)
    requires forall i :: 0 <= i < |es| ==> '/' !in es[i]
    ensures forall i :: 0 <= i < |Kept(es, rooted)| ==> '/' !in Kept(es, rooted)[i]
    decreases |es|
  {
    if es != [] {
      KeptSlashless(es[..|es| - 1], rooted);
    }
  }

  lemma LastJoined(es: seq<string>)
    requires es != [] && es[|es| - 1] != "" && forall i :: 0 <= i < |es| ==> '/' !in es[i]
    ensures Join(es, '/') != "" && LastElement(Join(es, '/')) == es[|es| - 1]
    ensures LastElement("/" + Join(es, '/')) == es[|es| - 1]
  {
    JoinSplit(es, '/');
    SplitRooted(Join(es, '/'));
    assert Split("", '/') == [""];
  }

  lemma CleanKeepsLast(p: string)
    requires !Special(LastElement(p))
    ensures LastElement(Clean(p)) == LastElement(p)
  {
    var es := Split(p, '/');
    var kept := Kept(es, IsAbs(p));
    SplitSlashless(p);
    KeptLast(es, IsAbs(p));
    KeptSlashless(es, IsAbs(p));
    LastJoined(kept);
  }

  lemma {:induction false} LastAfterSlash(a: string, b: string)
    ensures LastElement(a + "/" + b) == LastElement(b)
    decreases |a|
  {
    var s := a + "/" + b;
    var i := IndexByte(a, '/');
    if i.None? {
      IndexByteAt(a, '/', b);
      assert s[|a| + 1..] == b;
    } else {
      var k := i.value;
      IndexByteAt(a[..k], '/', a[k + 1..] + "/" + b);
      assert s == a[..k] + "/" + (a[k + 1..] + "/" + b);
      assert s[k + 1..] == a[k + 1..] + "/" + b;
      LastAfterSlash(a[k + 1..], b);
    }
  }

  /** A path whose last element is a real name keeps it when it is made absolute. */
  lemma AbsoluteKeepsLast(dir: string, p: string)
    requires !Special(LastElement(p))
    ensures LastElement(Absolute(dir, p)) == LastElement(p)
  {
    if IsAbs(p) {
      CleanKeepsLast(p);
    } else {
      LastAfterSlash(dir, p);
      CleanKeepsLast(dir + "/" + p);
      CleanKeepsLast(JoinPath(dir, p));
    }
  }

  /** Text without '/' at the end of a path is at the end of its last element. */
  lemma {:induction false} LastEndsWith(w: string, x: string)
    requires '/' !in x && x != ""
    ensures |LastElement(w + x)| >= |x|
    ensures LastElement(w + x)[|LastElement(w + x)| - |x|..] == x
    decreases |w|
  {
    var s := w + x;
    var i := IndexByte(w, '/');
    if i.None? {
      assert '/' !in s;
      assert Split(s, '/') == [s];
      assert s[|s| - |x|..] == x;
    } else {
      var k := i.value;
      IndexByteAt(w[..k], '/', w[k + 1..] + x);
      assert s == w[..k] + "/" + (w[k + 1..] + x);
      assert s[k + 1..] == w[k + 1..] + x;
      LastEndsWith(w[k + 1..], x);
    }
  }

  lemma {:induction false} LastIsPart(p: string, c: char)
    requires c in LastElement(p)
    ensures c in p
    decreases |p|
  {
    var i := IndexByte(p, '/');
    if i.Some? {
      LastIsPart(p[i.value + 1..], c);
    }
  }

  // ---- what cleaning means ----

  /** The absolute path with these elements, as they stand. */
  function Rooted(es: seq<string>): string {
    "/" + Join(es, '/')
  }

  predicate Slashless(es: seq<string>) {
    forall i :: 0 <= i < |es| ==> '/' !in es[i]
  }

  lemma CleanIsKept(es: seq<string>)
    requires Slashless(es)
    ensures Clean(Rooted(es)) == Rooted(Kept(es, true))
  {
    var rest := Join(es, '/');
    SplitRooted(rest);
    KeptFront(Split(rest, '/'));
    if es == [] {
      assert Split(rest, '/') == [""];
      assert [""][..0] == [];
      assert Kept([""], true) == [];
    } else {
      JoinSplit(es, '/');
    }
  }

  /** Elements that leave the same behind leave the same with more to follow. */
  lemma {:induction false} KeptTail(a: seq<string>, b: seq<string>, tail: seq<string>)
    requires Kept(a, true) == Kept(b, true)
    ensures Kept(a + tail, true) == Kept(b + tail, true)
    decreases |tail|
  {
    if tail == [] {
      assert a + tail == a && b + tail == b;
    } else {
      var n := |tail| - 1;
      KeptTail(a, b, tail[..n]);
      assert (a + tail)[..|a + tail| - 1] == a + tail[..n];
      assert (b + tail)[..|b + tail| - 1] == b + tail[..n];
    }
  }

  lemma KeptOne(a: seq<string>, e: string)
    ensures Kept(a + [e], true) == Step(Kept(a, true), e, true)
  {
    assert (a + [e])[..|a|] == a;
  }

  /**
   * What cleaning means: an empty element, a '.', a name followed by '..' and a '..' at the root make no
   * difference to the path that comes out, wherever they stand; and a path without any of them stays.
   */
  lemma CleanLaws(a: seq<string>, e: string, b: seq<string>)
    requires Slashless(a) && Slashless(b)
    ensures Clean(Rooted(a + [""] + b)) == Clean(Rooted(a + b))
    ensures Clean(Rooted(a + ["."] + b)) == Clean(Rooted(a + b))
    ensures Plain(e) ==> Clean(Rooted(a + [e, ".."] + b)) == Clean(Rooted(a + b))
    ensures Clean(Rooted([".."] + b)) == Clean(Rooted(b))
    ensures AllPlain(a) ==> Clean(Rooted(a)) == Rooted(a)
  {
    NothingGoes(a, "", b);
    NothingGoes(a, ".", b);
    RootStays(b);
    if Plain(e) {
      NameGoes(a, e, b);
    }
    if AllPlain(a) {
      PlainIsClean(a);
    }
  }

  lemma NothingGoes(a: seq<string>, e: string, b: seq<string>)
    requires Slashless(a) && Slashless(b) && (e == "" || e == ".")
    ensures Clean(Rooted(a + [e] + b)) == Clean(Rooted(a + b))
  {
    KeptOne(a, e);
    KeptTail(a + [e], a, b);
    CleanIsKept(a + [e] + b);
    CleanIsKept(a + b);
  }

  lemma RootStays(b: seq<string>)
    requires Slashless(b)
    ensures Clean(Rooted([".."] + b)) == Clean(Rooted(b))
  {
    KeptOne([], "..");
    assert [] + [".."] == [".."] && [] + b == b;
    KeptTail([".."], [], b);
    CleanIsKept([".."] + b);
    CleanIsKept(b);
  }

  lemma NameGoes(a: seq<string>, e: string, b: seq<string>)
    requires Slashless(a) && Slashless(b) && Plain(e)
    ensures Clean(Rooted(a + [e, ".."] + b)) == Clean(Rooted(a + b))
  {
    KeptOne(a, e);
    KeptOne(a + [e], "..");
    assert a + [e] + [".."] == a + [e, ".."];
    KeptTail(a + [e, ".."], a, b);
    CleanIsKept(a + [e, ".."] + b);
    CleanIsKept(a + b);
  }

  /** A relative path is taken from the session dir. */
  lemma AbsoluteOf(dir: seq<string>, p: seq<string>)
    requires Slashless(dir) && Slashless(p) && dir != [] && p != [] && p[0] != ""
    ensures Absolute(Rooted(dir), Join(p, '/')) == Clean(Rooted(dir + p))
    ensures Absolute(Rooted(dir), Rooted(p)) == Clean(Rooted(p))
  {
    JoinRooted(dir, p);
    CleanIdempotent(Rooted(dir + p));
    assert Join(p, '/')[0] == p[0][0];
  }

  lemma {:induction false} JoinRooted(a: seq<string>, b: seq<string>)
    requires a != [] && b != []
    ensures Join(a, '/') + "/" + Join(b, '/') == Join(a + b, '/')
    ensures Rooted(a) + "/" + Join(b, '/') == Rooted(a + b)
    decreases |a|
  {
    if |a| > 1 {
      JoinRooted(a[1..], b);
      assert (a + b)[1..] == a[1..] + b;
    } else {
      assert (a + b)[1..] == b;
    }
    assert Rooted(a) + "/" + Join(b, '/') == "/" + (Join(a, '/') + "/" + Join(b, '/'));
  }
}
