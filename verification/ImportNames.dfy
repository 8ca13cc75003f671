/** What an import names, piece by piece (src/control/file_config.rs:361-398). */
module ImportNames {
  import opened Basics
  import opened Text
  import opened Composition

  /** The text of an import is fit to be followed at all. */
  predicate IsFit(imp: string) {
    imp != [] && |imp| <= MAX_NAME_BYTES && imp[0] != '/' && !ContainsAny(imp, "\\:") && !HasControl(imp)
  }

  predicate IsPlain(piece: string) { piece !in ["", ".", ".."] }

  predicate AllPlain(pieces: seq<string>) { forall k :: 0 <= k < |pieces| ==> IsPlain(pieces[k]) }

  /** `k` steps up. */
  function Ups(k: nat): seq<string> { seq(k, _ => "..") }

  function WithoutDots(pieces: seq<string>): seq<string> {
    if pieces == [] then [] else (if pieces[0] == "." then [] else [pieces[0]]) + WithoutDots(pieces[1..])
  }

  /** The file with these components, if that is a configuration name. */
  function Named(components: seq<string>): Option<string> {
    if components != [] && IsConfigName(Join(components, '/')) then Some(Join(components, '/')) else None
  }

  // ----- following pieces -----

  lemma {:induction false} FollowAppend(d: seq<string>, a: seq<string>, b: seq<string>)
    ensures Follow(d, a + b) == var mid := Follow(d, a); if mid.None? then None else Follow(mid.value, b)
    decreases |a|
  {
    if a == [] {
      assert a + b == b;
    } else {
      assert (a + b)[0] == a[0] && (a + b)[1..] == a[1..] + b;
      if a[0] == "." { FollowAppend(d, a[1..], b); }
      else if a[0] == ".." { if d != [] { FollowAppend(d[..|d| - 1], a[1..], b); } }
      else if a[0] != "" { FollowAppend(d + [a[0]], a[1..], b); }
    }
  }

  lemma {:induction false} FollowUps(d: seq<string>, k: nat)
    ensures Follow(d, Ups(k)) == if k <= |d| then Some(d[..|d| - k]) else None
  {
    if k == 0 {
      assert d[..|d|] == d;
    } else {
      assert Ups(k)[0] == ".." && Ups(k)[1..] == Ups(k - 1);
      if d != [] {
        FollowUps(d[..|d| - 1], k - 1);
        if k <= |d| { assert d[..|d| - 1][..|d| - k] == d[..|d| - k]; }
      }
    }
  }

  lemma {:induction false} FollowPlain(d: seq<string>, q: seq<string>)
    requires AllPlain(q)
    ensures Follow(d, q) == Some(d + q)
    decreases |q|
  {
    if q == [] {
      assert d + q == d;
    } else {
      assert IsPlain(q[0]);
      FollowPlain(d + [q[0]], q[1..]);
      assert d + [q[0]] + q[1..] == d + q;
    }
  }

  lemma {:induction false} FollowWithoutDots(d: seq<string>, pieces: seq<string>)
    ensures Follow(d, WithoutDots(pieces)) == Follow(d, pieces)
    decreases |pieces|
  {
    if pieces != [] {
      var rest := WithoutDots(pieces[1..]);
      if pieces[0] == "." {
        assert WithoutDots(pieces) == rest;
        FollowWithoutDots(d, pieces[1..]);
      } else {
        assert WithoutDots(pieces)[0] == pieces[0] && WithoutDots(pieces)[1..] == rest;
        if pieces[0] == ".." { if d != [] { FollowWithoutDots(d[..|d| - 1], pieces[1..]); } }
        else if pieces[0] != "" { FollowWithoutDots(d + [pieces[0]], pieces[1..]); }
      }
    }
  }

  lemma {:induction false} FollowEmptyPiece(d: seq<string>, pieces: seq<string>)
    requires "" in pieces
    ensures Follow(d, pieces).None?
    decreases |pieces|
  {
    if pieces[0] != "" {
      assert "" in pieces[1..];
      if pieces[0] == "." { FollowEmptyPiece(d, pieces[1..]); }
      else if pieces[0] == ".." { if d != [] { FollowEmptyPiece(d[..|d| - 1], pieces[1..]); } }
      else { FollowEmptyPiece(d + [pieces[0]], pieces[1..]); }
    }
  }

  lemma ResolvesAs(importing: string, imp: string)
    ensures ResolveImport(importing, imp) ==
            var c := Follow(Parent(importing), Split(imp, '/'));
            if IsFit(imp) && c.Some? then Named(c.value) else None
  {
    hide IsConfigName; hide Follow; hide Split; hide Join;
  }

  // ----- the laws -----

  predicate NoSlashes(pieces: seq<string>) { forall k :: 0 <= k < |pieces| ==> '/' !in pieces[k] }

  lemma ParentOf(d: seq<string>, file: string)
    requires NoSlashes(d + [file])
    ensures Parent(Join(d + [file], '/')) == d
  {
    SplitJoin(d + [file], '/');
  }

  /**
   From the file with components `d + [file]`, `k` steps up and then plain components, with dots anywhere: the import
   names these components below the directory `k` levels above the importing file, and nothing if there are fewer.
   */
  lemma ResolvesRelative(d: seq<string>, file: string, imp: string, k: nat, q: seq<string>)
    requires NoSlashes(d + [file]) && WithoutDots(Split(imp, '/')) == Ups(k) + q && AllPlain(q)
    ensures ResolveImport(Join(d + [file], '/'), imp) == if IsFit(imp) && k <= |d| then Named(d[..|d| - k] + q) else None
  {
    hide Parent; hide Named; hide IsFit; hide Follow; hide Split; hide WithoutDots; hide Join;
    ParentOf(d, file);
    ResolvesAs(Join(d + [file], '/'), imp);
    hide ResolveImport;
    FollowWithoutDots(d, Split(imp, '/'));
    FollowAppend(d, Ups(k), q);
    FollowUps(d, k);
    if k <= |d| { FollowPlain(d[..|d| - k], q); }
  }

  lemma FollowCancels(d: seq<string>, a: seq<string>, x: string, b: seq<string>)
    requires IsPlain(x)
    ensures Follow(d, a + [x, ".."] + b) == Follow(d, a + b)
  {
    assert a + [x, ".."] + b == a + ([x, ".."] + b);
    FollowAppend(d, a, [x, ".."] + b);
    FollowAppend(d, a, b);
    if Follow(d, a).Some? {
      var m := Follow(d, a).value;
      FollowAppend(m, [x, ".."], b);
      FollowThere(m, x);
    }
  }

  lemma FollowThere(m: seq<string>, x: string)
    requires IsPlain(x)
    ensures Follow(m, [x, ".."]) == Some(m)
  {
    assert [x, ".."][1..] == [".."] && [".."][1..] == [];
    assert (m + [x])[..|m|] == m;
  }

  /** A step up undoes the plain component before it. */
  lemma StepUpCancels(importing: string, a: seq<string>, x: string, b: seq<string>)
    requires a + b != [] && NoSlashes(a + [x, ".."] + b) && IsPlain(x)
    requires IsFit(Join(a + [x, ".."] + b, '/')) && IsFit(Join(a + b, '/'))
    ensures ResolveImport(importing, Join(a + [x, ".."] + b, '/')) == ResolveImport(importing, Join(a + b, '/'))
  {
    hide ResolveImport; hide Parent; hide Named; hide IsFit; hide Split; hide Join; hide Follow; hide IsPlain;
    var long, short := a + [x, ".."] + b, a + b;
    SplitJoin(long, '/');
    forall k | 0 <= k < |short| ensures '/' !in short[k] { assert short[k] == long[if k < |a| then k else k + 2]; }
    SplitJoin(short, '/');
    ResolvesAs(importing, Join(long, '/'));
    ResolvesAs(importing, Join(short, '/'));
    FollowCancels(Parent(importing), a, x, b);
  }

  /** An empty piece, as in `a//b` or a final slash, is refused. */
  lemma EmptyPieceRefused(importing: string, imp: string)
    requires "" in Split(imp, '/')
    ensures ResolveImport(importing, imp).None?
  {
    ResolvesAs(importing, imp);
    FollowEmptyPiece(Parent(importing), Split(imp, '/'));
  }

  /** Whatever an import resolves to is a configuration name: it stays inside the directory. */
  lemma ResolvedIsName(importing: string, imp: string)
    requires ResolveImport(importing, imp).Some?
    ensures IsConfigName(ResolveImport(importing, imp).value)
    ensures forall k :: 0 <= k < |Split(ResolveImport(importing, imp).value, '/')| ==>
                          IsPlain(Split(ResolveImport(importing, imp).value, '/')[k])
  {
    ResolvesAs(importing, imp);
    hide ResolveImport; hide Follow; hide Split; hide Join; hide HasControl;
  }
}
