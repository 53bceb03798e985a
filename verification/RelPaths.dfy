/**
 * Which relative paths masterd and the worker accept as file names (safeRelPath in
 * internal/masterd/sessions.go and internal/workerd/provision.go), and where they lead.
 */
module RelPaths {
  import opened Prelude
  import opened Text
  import opened Paths
  import Provision

  /** safeRelPath of masterd: the cleaned path, or none. */
  function PutPath(rel: string): Option<string> {
    if rel == "" || '\0' in rel || IsAbs(rel) then None
    else
      var clean := Clean(rel);
      if clean == "." || clean == ".." || "../" <= clean then None else Some(clean)
  }

  /** isUnder */
  predicate IsUnder(root: string, p: string) {
    if root == "/" then p != "/" && "/" <= p else root + "/" <= p
  }

  /** What is left of a relative path: some '..' in front, then plain names. */
  predicate UpThenPlain(ks: seq<string>) {
    && (forall i :: 0 <= i < |ks| ==> ks[i] == ".." || Plain(ks[i]))
    && (forall i, j :: 0 <= i < j < |ks| && ks[j] == ".." ==> ks[i] == "..")
  }

  lemma {:induction false} KeptRelative(es: seq<string>)
    requires Slashless(es)
    ensures UpThenPlain(Kept(es, false))
    decreases |es|
  {
    if es != [] {
      KeptRelative(es[..|es| - 1]);
    }
  }

  lemma {:induction false} KeptPlainRelative(es: seq<string>)
    requires AllPlain(es)
    ensures Kept(es, false) == es
    decreases |es|
  {
    if es != [] {
      KeptPlainRelative(es[..|es| - 1]);
    }
  }

  /** What cleaning a relative path gives. */
  lemma CleanRelative(p: string) returns (ks: seq<string>)
    requires p != "" && !IsAbs(p)
    ensures UpThenPlain(ks) && Slashless(ks) && Clean(p) == if ks == [] then "." else Join(ks, '/')
  {
    var es := Split(p, '/');
    SplitJoin(p, '/');
    KeptRelative(es);
    KeptSlashless(es, false);
    ks := Kept(es, false);
    if ks != [] {
      JoinNonEmpty(ks);
    }
  }

  lemma JoinNonEmpty(ks: seq<string>)
    requires ks != [] && ks[0] != ""
    ensures Join(ks, '/') != ""
  {
  }

  /** A path of plain names, as a relative path. */
  predicate Names(p: string, es: seq<string>) {
    es != [] && AllPlain(es) && p == Join(es, '/')
  }

  lemma HeadUp(es: seq<string>)
    requires es != [] && Slashless(es)
    ensures "../" <= Join(es, '/') <==> es[0] == ".." && |es| > 1
  {
    var p := Join(es, '/');
    if es[0] == ".." && |es| > 1 {
      var rest := Join(es[1..], '/');
      assert p == ".." + ['/'] + rest;
    }
    if "../" <= p {
      UpSplits(p);
      JoinSplit(es, '/');
    }
  }

  lemma UpSplits(p: string)
    requires "../" <= p
    ensures |Split(p, '/')| > 1 && Split(p, '/')[0] == ".."
  {
    assert p == ".." + ['/'] + p[3..];
    IndexByteAt("..", '/', p[3..]);
    assert p[..2] == "..";
  }

  lemma HeadWhole(es: seq<string>, name: string)
    requires es != [] && Slashless(es) && '/' !in name
    ensures Join(es, '/') == name <==> es == [name]
  {
    JoinSplit(es, '/');
    JoinSplit([name], '/');
  }

  /** The first element of a joined path, read off the text. */
  lemma Heads(es: seq<string>)
    requires es != [] && Slashless(es)
    ensures "../" <= Join(es, '/') <==> es[0] == ".." && |es| > 1
    ensures Join(es, '/') == ".." <==> es == [".."]
    ensures Join(es, '/') == "." <==> es == ["."]
  {
    HeadUp(es);
    HeadWhole(es, "..");
    HeadWhole(es, ".");
  }

  lemma NamesClean(p: string, es: seq<string>)
    requires Names(p, es)
    ensures p != "" && !IsAbs(p) && Clean(p) == p
    ensures p != "." && p != ".." && !("../" <= p)
  {
    JoinNonEmpty(es);
    JoinSplit(es, '/');
    KeptPlainRelative(es);
    assert p[0] == es[0][0];
    Heads(es);
  }

  lemma DotIsClean()
    ensures Clean(".") == "."
  {
    assert Split(".", '/') == ["."];
    assert ["."][..0] == [];
    assert Kept(["."], false) == [];
  }

  /** A cleaned relative path that does not lead up is made of plain names. */
  lemma NotUp(ks: seq<string>)
    requires UpThenPlain(ks) && Slashless(ks) && ks != [] && Join(ks, '/') != ".." && !("../" <= Join(ks, '/'))
    ensures AllPlain(ks)
  {
    Heads(ks);
    assert ks[0] != "..";
  }

  /**
   * What the worker accepts: exactly the paths of plain names, none of them empty, '.' or '..', as they
   * are written; and ".".
   */
  lemma WorkerAccepts(p: string)
    ensures Provision.SafeRelPath(p) <==> p == "." || exists es :: Names(p, es)
  {
    DotIsClean();
    if Provision.SafeRelPath(p) && p != "." {
      var ks := CleanRelative(p);
      NotUp(ks);
      assert Names(p, ks);
    }
    forall es | Names(p, es)
      ensures Provision.SafeRelPath(p)
    {
      NamesClean(p, es);
    }
  }

  /** What masterd makes of a PUT's path: the names that are left when it is cleaned, unless it leads nowhere or up. */
  lemma MasterAccepts(rel: string)
    ensures PutPath(rel).Some? ==> PutPath(rel).value == Clean(rel)
    ensures PutPath(rel).Some? <==> rel != "" && '\0' !in rel && !IsAbs(rel) && exists es :: Names(Clean(rel), es)
  {
    if rel != "" && !IsAbs(rel) {
      var ks := CleanRelative(rel);
      if ks != [] && Clean(rel) != ".." && !("../" <= Clean(rel)) {
        NotUp(ks);
        assert Names(Clean(rel), ks);
      }
      forall es | Names(Clean(rel), es)
        ensures Clean(rel) != "." && Clean(rel) != ".." && !("../" <= Clean(rel))
      {
        Heads(es);
      }
    }
  }

  /**
   * Where an accepted path leads: joined to a clean absolute dir it is that dir's path with the names
   * behind it, as they stand. So it lies below the dir, and the second check that masterd makes of it
   * never refuses.
   */
  lemma AcceptedStaysBelow(dir: seq<string>, rel: string, es: seq<string>)
    requires AllPlain(dir) && dir != [] && Names(rel, es)
    ensures JoinPath(Rooted(dir), rel) == Rooted(dir) + "/" + rel
    ensures IsUnder(Rooted(dir), JoinPath(Rooted(dir), rel))
  {
    JoinRooted(dir, es);
    PlainIsClean(dir + es);
    var full := Rooted(dir) + "/" + rel;
    assert full == Rooted(dir + es);
    assert Rooted(dir) + "/" <= full;
    JoinNonEmpty(dir);
  }
}
