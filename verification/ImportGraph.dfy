/**
 Depth-first walks of an import graph, without limits or file contents: the reference that
 composition (src/control/file_config.rs:104-244) is compared with.
 */
module ImportGraph {
  import opened Basics

  /** The imports of each file, in order. Names outside the map import nothing. */
  type Graph = map<string, seq<string>>

  function Imports(g: Graph, n: string): seq<string> { if n in g then g[n] else [] }

  function Names(path: seq<string>): set<string> { set n | n in path }

  function Max(a: nat, b: nat): nat { if a >= b then a else b }

  /** Files in the order in which they are finished, whether a cycle was met, and the longest stack. */
  datatype Walk = Walk(order: seq<string>, cyclic: bool, deepest: nat)

  const START := Walk([], false, 0)

  /** Visits `n` below the files on `path`. */
  function Visit(g: Graph, path: seq<string>, n: string, w: Walk): Walk
    decreases |g.Keys - Names(path)|, 0
  {
    if n in path then w.(cyclic := true)
    else if n in w.order then w
    else
      var w' := w.(deepest := Max(w.deepest, |path| + 1));
      if n !in g then w'.(order := w.order + [n])
      else
        assert g.Keys - Names(path + [n]) < g.Keys - Names(path) by {
          assert n in g.Keys - Names(path) && n !in g.Keys - Names(path + [n]);
        }
        SmallerSet(g.Keys - Names(path + [n]), g.Keys - Names(path));
        var v := VisitAll(g, path + [n], g[n], w');
        v.(order := v.order + [n])
  }

  function VisitAll(g: Graph, path: seq<string>, ns: seq<string>, w: Walk): Walk
    decreases |g.Keys - Names(path)|, |ns|
  {
    if ns == [] then w else VisitAll(g, path, ns[1..], Visit(g, path, ns[0], w))
  }

  // ----- chains -----

  ghost predicate IsChain(g: Graph, p: seq<string>) {
    forall i :: 0 <= i < |p| - 1 ==> p[i + 1] in Imports(g, p[i])
  }

  ghost predicate ChainFrom(g: Graph, root: string, p: seq<string>) { p != [] && p[0] == root && IsChain(g, p) }

  ghost predicate NoRepeats(p: seq<string>) { forall i, j :: 0 <= i < j < |p| ==> p[i] != p[j] }

  ghost predicate Reachable(g: Graph, root: string, n: string) {
    exists p :: ChainFrom(g, root, p) && p[|p| - 1] == n
  }

  /** No import chain from the root comes back to a file. */
  ghost predicate Acyclic(g: Graph, root: string) { forall p :: ChainFrom(g, root, p) ==> NoRepeats(p) }

  ghost predicate ChainsWithin(g: Graph, root: string, limit: nat) {
    forall p :: ChainFrom(g, root, p) ==> |p| <= limit
  }

  lemma ExtendChain(g: Graph, root: string, p: seq<string>, n: string)
    requires ChainFrom(g, root, p) && n in Imports(g, p[|p| - 1])
    ensures ChainFrom(g, root, p + [n])
  {
    var q := p + [n];
    forall i | 0 <= i < |q| - 1 ensures q[i + 1] in Imports(g, q[i]) {
      if i < |p| - 1 { assert q[i] == p[i] && q[i + 1] == p[i + 1]; }
    }
  }

  // ----- what a walk keeps -----

  /** Every import of a listed file is listed before it. */
  ghost predicate Topological(g: Graph, order: seq<string>) {
    forall i, m :: 0 <= i < |order| && m in Imports(g, order[i]) ==> m in order[..i]
  }

  ghost predicate WalkOk(g: Graph, w: Walk) { NoRepeats(w.order) && Topological(g, w.order) }

  /** `v` continues `w`. */
  ghost predicate Continues(w: Walk, v: Walk) {
    w.order <= v.order && (w.cyclic ==> v.cyclic) && w.deepest <= v.deepest
  }

  lemma {:induction false} VisitContinues(g: Graph, path: seq<string>, n: string, w: Walk)
    ensures Continues(w, Visit(g, path, n, w))
    decreases |g.Keys - Names(path)|, 0
  {
    if n !in path && n !in w.order && n in g {
      SmallerSet(g.Keys - Names(path + [n]), g.Keys - Names(path)) by {
        assert n in g.Keys - Names(path) && n !in g.Keys - Names(path + [n]);
      }
      VisitAllContinues(g, path + [n], g[n], w.(deepest := Max(w.deepest, |path| + 1)));
    }
  }

  lemma {:induction false} VisitAllContinues(g: Graph, path: seq<string>, ns: seq<string>, w: Walk)
    ensures Continues(w, VisitAll(g, path, ns, w))
    decreases |g.Keys - Names(path)|, |ns|
  {
    if ns != [] {
      VisitContinues(g, path, ns[0], w);
      VisitAllContinues(g, path, ns[1..], Visit(g, path, ns[0], w));
    }
  }

  /** A walk that met no cycle lists the visited files and all they import, each once, imports first. */
  lemma {:induction false} VisitSound(g: Graph, path: seq<string>, n: string, w: Walk)
    requires WalkOk(g, w) && !Visit(g, path, n, w).cyclic
    ensures var v := Visit(g, path, n, w);
            WalkOk(g, v) && n in v.order && forall m :: m in v.order ==> m in w.order || m !in path
    decreases |g.Keys - Names(path)|, 0
  {
    if n !in path && n !in w.order {
      var w' := w.(deepest := Max(w.deepest, |path| + 1));
      if n in g {
        SmallerSet(g.Keys - Names(path + [n]), g.Keys - Names(path)) by {
          assert n in g.Keys - Names(path) && n !in g.Keys - Names(path + [n]);
        }
        VisitAllSound(g, path + [n], g[n], w');
        assert n in path + [n];
        AppendSound(g, VisitAll(g, path + [n], g[n], w'), n);
      } else {
        AppendSound(g, w', n);
      }
    }
  }

  lemma AppendSound(g: Graph, w: Walk, n: string)
    requires WalkOk(g, w) && n !in w.order && forall m :: m in Imports(g, n) ==> m in w.order
    ensures WalkOk(g, w.(order := w.order + [n])) && n in w.order + [n]
  {
    hide Imports;
    var all := w.order + [n];
    assert all[|w.order|] == n && all[..|w.order|] == w.order;
    forall i, m | 0 <= i < |all| && m in Imports(g, all[i]) ensures m in all[..i] {
      if i < |w.order| { assert all[i] == w.order[i] && all[..i] == w.order[..i]; }
    }
  }

  lemma {:induction false} VisitAllSound(g: Graph, path: seq<string>, ns: seq<string>, w: Walk)
    requires WalkOk(g, w) && !VisitAll(g, path, ns, w).cyclic
    ensures var v := VisitAll(g, path, ns, w);
            && WalkOk(g, v) && (forall m :: m in ns ==> m in v.order)
            && forall m :: m in v.order ==> m in w.order || m !in path
    decreases |g.Keys - Names(path)|, |ns|
  {
    hide WalkOk;
    if ns != [] {
      var u := Visit(g, path, ns[0], w);
      VisitContinues(g, path, ns[0], w);
      VisitAllContinues(g, path, ns[1..], u);
      VisitSound(g, path, ns[0], w);
      VisitAllSound(g, path, ns[1..], u);
      assert ns == [ns[0]] + ns[1..];
    }
  }

  /** Everything that a walk lists, meets or stacks lies on a chain from the root. */
  ghost predicate WalkFrom(g: Graph, root: string, w: Walk) {
    && (forall m :: m in w.order ==> Reachable(g, root, m))
    && (w.cyclic ==> !Acyclic(g, root))
    && (forall limit: nat :: ChainsWithin(g, root, limit) ==> w.deepest <= limit)
  }

  lemma {:induction false} VisitFrom(g: Graph, root: string, path: seq<string>, n: string, w: Walk)
    requires WalkFrom(g, root, w) && ChainFrom(g, root, path + [n])
    ensures WalkFrom(g, root, Visit(g, path, n, w))
    decreases |g.Keys - Names(path)|, 0
  {
    var p := path + [n];
    assert p[|p| - 1] == n;
    if n in path {
      var i :| 0 <= i < |path| && path[i] == n;
      assert p[i] == p[|path|];
    } else if n !in w.order {
      hide IsChain;
      var w' := w.(deepest := Max(w.deepest, |path| + 1));
      assert WalkFrom(g, root, w');
      if n in g {
        SmallerSet(g.Keys - Names(p), g.Keys - Names(path)) by {
          assert n in g.Keys - Names(path) && n !in g.Keys - Names(p);
        }
        VisitAllFrom(g, root, p, g[n], w');
      }
    }
  }

  lemma {:induction false} VisitAllFrom(g: Graph, root: string, path: seq<string>, ns: seq<string>, w: Walk)
    requires WalkFrom(g, root, w) && ChainFrom(g, root, path)
    requires forall i :: 0 <= i < |ns| ==> ns[i] in Imports(g, path[|path| - 1])
    ensures WalkFrom(g, root, VisitAll(g, path, ns, w))
    decreases |g.Keys - Names(path)|, |ns|
  {
    hide WalkFrom;
    if ns != [] {
      ExtendChain(g, root, path, ns[0]);
      VisitFrom(g, root, path, ns[0], w);
      VisitAllFrom(g, root, path, ns[1..], Visit(g, path, ns[0], w));
    }
  }

  // ----- topological orders -----

  lemma InPrefix(order: seq<string>, n: nat, x: string) returns (i: nat)
    requires n <= |order| && x in order[..n]
    ensures i < n && order[i] == x
  {
    var prefix := order[..n];
    i :| 0 <= i < |prefix| && prefix[i] == x;
  }

  /** A chain inside a topological order runs backwards through it. */
  lemma {:induction false} ChainDescends(g: Graph, order: seq<string>, p: seq<string>, k: nat, at: nat)
    requires NoRepeats(order) && Topological(g, order) && IsChain(g, p)
    requires k < |p| && at < |order| && order[at] == p[k]
    ensures forall j :: k < j < |p| ==> p[j] in order[..at]
    decreases |p| - k
  {
    if k + 1 < |p| {
      assert p[k + 1] in Imports(g, order[at]);
      var i := InPrefix(order, at, p[k + 1]);
      ChainDescends(g, order, p, k + 1, i);
      forall j | k < j < |p| ensures p[j] in order[..at] {
        if j > k + 1 { var m := InPrefix(order, i, p[j]); assert order[..at][m] == p[j]; }
      }
    }
  }

  lemma ChainHasNoRepeats(g: Graph, order: seq<string>, p: seq<string>)
    requires NoRepeats(order) && Topological(g, order) && IsChain(g, p) && p != [] && p[0] in order
    ensures NoRepeats(p) && forall j :: 0 <= j < |p| ==> p[j] in order
  {
    var at :| 0 <= at < |order| && order[at] == p[0];
    ChainDescends(g, order, p, 0, at);
    forall j | 0 <= j < |p| ensures p[j] in order { if j > 0 { assert p[j] in order[..at]; } }
    forall i, j | 0 <= i < j < |p| ensures p[i] != p[j] {
      var b :| 0 <= b < |order| && order[b] == p[i];
      ChainDescends(g, order, p, i, b);
      var c := InPrefix(order, b, p[j]);
    }
  }

  /**
   The walk from a root meets a cycle exactly when a chain from the root comes back to a file. Otherwise it lists
   exactly the reachable files, each once and after all its imports, the root last.
   */
  lemma WalkMeaning(g: Graph, root: string)
    ensures var v := Visit(g, [], root, START);
            && (v.cyclic <==> !Acyclic(g, root))
            && (!v.cyclic ==>
                  && NoRepeats(v.order) && Topological(g, v.order)
                  && (forall m :: m in v.order <==> Reachable(g, root, m))
                  && v.order != [] && v.order[|v.order| - 1] == root)
            && (forall limit: nat :: ChainsWithin(g, root, limit) ==> v.deepest <= limit)
  {
    var v := Visit(g, [], root, START);
    assert ChainFrom(g, root, [] + [root]);
    VisitFrom(g, root, [], root, START);
    if !v.cyclic {
      VisitSound(g, [], root, START);
      hide Visit; hide VisitAll;
      forall p | ChainFrom(g, root, p) ensures NoRepeats(p) && p[|p| - 1] in v.order {
        ChainHasNoRepeats(g, v.order, p);
      }
      forall m | Reachable(g, root, m) ensures m in v.order {
        var p :| ChainFrom(g, root, p) && p[|p| - 1] == m;
      }
    }
  }

  // ----- the order of imports -----

  /** The same imports in each file, perhaps in another order. */
  ghost predicate SameImports(g: Graph, h: Graph) {
    forall n :: Names(Imports(g, n)) == Names(Imports(h, n))
  }

  lemma SameChains(g: Graph, h: Graph, root: string)
    requires SameImports(g, h)
    ensures forall p :: ChainFrom(g, root, p) <==> ChainFrom(h, root, p)
    ensures Acyclic(g, root) <==> Acyclic(h, root)
    ensures forall n :: Reachable(g, root, n) <==> Reachable(h, root, n)
    ensures forall limit :: ChainsWithin(g, root, limit) <==> ChainsWithin(h, root, limit)
  {
    hide Imports;
    forall p ensures ChainFrom(g, root, p) <==> ChainFrom(h, root, p) {
      forall i | 0 <= i < |p| - 1 ensures p[i + 1] in Imports(g, p[i]) <==> p[i + 1] in Imports(h, p[i]) {
        assert p[i + 1] in Names(Imports(g, p[i])) <==> p[i + 1] in Names(Imports(h, p[i]));
      }
    }
    hide ChainFrom; hide NoRepeats;
  }

  // ----- stack depth is not chain length -----

  /** Distinct file names. */
  function Rung(k: nat): (r: string)
    ensures |r| == k + 6
  {
    seq(k + 1, _ => 'a') + ".toml"
  }

  function Rungs(first: nat, last: nat): (r: seq<string>)
    requires first <= last + 1
    ensures |r| == last + 1 - first && forall i :: 0 <= i < |r| ==> r[i] == Rung(first + i)
  {
    seq(last + 1 - first, i requires 0 <= i => Rung(first + i))
  }

  /** The root, `Rung(0)`, imports rungs 1 to `n` upwards; every other rung imports the one below it. */
  function Below(n: nat, k: nat): seq<string> {
    if k == 0 then Rungs(1, n) else if k == 1 then [] else [Rung(k - 1)]
  }

  function Ladder(n: nat): Graph {
    map s | s in Names(Rungs(0, n)) :: Below(n, if |s| < 6 then 0 else |s| - 6)
  }

  lemma LadderAt(n: nat, k: nat)
    requires k <= n
    ensures Rung(k) in Ladder(n) && Ladder(n)[Rung(k)] == Below(n, k)
  {
    hide Rung; hide Below; hide Rungs;
    assert Rungs(0, n)[k] == Rung(0 + k);
  }

  lemma LadderOnly(n: nat, s: string)
    requires s in Ladder(n)
    ensures exists k: nat :: k <= n && s == Rung(k)
  {
    hide Rung; hide Below; hide Rungs;
    var k :| 0 <= k < |Rungs(0, n)| && Rungs(0, n)[k] == s;
    assert s == Rung(0 + k);
  }

  /** Visiting a new file whose imports are all listed. */
  lemma VisitClosed(g: Graph, path: seq<string>, n: string, w: Walk)
    requires n !in path && n !in w.order && n in g && |g[n]| <= 1
    requires forall i :: 0 <= i < |g[n]| ==> g[n][i] in w.order && g[n][i] !in path + [n]
    ensures Visit(g, path, n, w) == Walk(w.order + [n], w.cyclic, Max(w.deepest, |path| + 1))
  {
    var w', ns := w.(deepest := Max(w.deepest, |path| + 1)), g[n];
    assert VisitAll(g, path + [n], ns, w') == w' by {
      if ns != [] {
        assert Visit(g, path + [n], ns[0], w') == w';
        assert ns[1..] == [];
      }
    }
  }

  lemma VisitRung(n: nat, k: nat, w: Walk)
    requires k < n && w == Walk(Rungs(1, k), false, if k == 0 then 1 else 2)
    ensures Visit(Ladder(n), [Rung(0)], Rung(k + 1), w) == Walk(Rungs(1, k + 1), false, 2)
  {
    hide Ladder; hide Rung; hide Visit; hide Rungs;
    var g, path, r := Ladder(n), [Rung(0)], Rung(k + 1);
    assert |r| == k + 7 && |Rung(k)| == k + 6;
    LadderAt(n, k + 1);
    if k > 0 { assert w.order[k - 1] == Rung(k); }
    VisitClosed(g, path, r, w);
    assert w.order + [r] == Rungs(1, k + 1);
  }

  lemma {:induction false} ClimbLadder(n: nat, k: nat, w: Walk)
    requires k <= n && w == Walk(Rungs(1, k), false, if k == 0 then 1 else 2)
    ensures VisitAll(Ladder(n), [Rung(0)], Rungs(k + 1, n), w) == Walk(Rungs(1, n), false, if n == 0 then 1 else 2)
    decreases n - k
  {
    hide Ladder; hide Rung; hide Visit; hide Rungs;
    var ns := Rungs(k + 1, n);
    if k < n {
      assert ns[0] == Rung(k + 1) && ns[1..] == Rungs(k + 2, n);
      VisitRung(n, k, w);
      ClimbLadder(n, k + 1, Walk(Rungs(1, k + 1), false, 2));
    } else {
      assert ns == [];
    }
  }

  lemma LadderChain(n: nat) returns (p: seq<string>)
    requires n > 0
    ensures ChainFrom(Ladder(n), Rung(0), p) && |p| == n + 1
  {
    hide Ladder; hide Rung; hide Rungs;
    var g := Ladder(n);
    p := seq(n + 1, i requires 0 <= i <= n => if i == 0 then Rung(0) else Rung(n + 1 - i));
    LadderAt(n, 0);
    forall i | 0 <= i < |p| - 1 ensures p[i + 1] in Imports(g, p[i]) {
      if i == 0 { assert g[Rung(0)][n - 1] == Rung(n); } else { LadderAt(n, n + 1 - i); }
    }
  }

  lemma VisitFirst(g: Graph, root: string)
    requires root in g
    ensures var v := VisitAll(g, [root], g[root], Walk([], false, 1));
            Visit(g, [], root, START) == v.(order := v.order + [root])
  {
    assert [] + [root] == [root];
  }

  lemma RootBelow(n: nat)
    ensures Rungs(1, 0) == [] && Below(n, 0) == Rungs(1, n)
  {
  }

  /** The walk of a ladder stacks two files at a time, yet the ladder holds a chain through all its files. */
  lemma ShallowWalkLongChain(n: nat)
    requires n > 0
    ensures var v := Visit(Ladder(n), [], Rung(0), START); v.deepest == 2 && !v.cyclic && |v.order| == n + 1
    ensures exists p :: ChainFrom(Ladder(n), Rung(0), p) && |p| == n + 1
  {
    hide *;
    var p := LadderChain(n);
    RootBelow(n);
    ClimbLadder(n, 0, Walk([], false, 1));
    LadderAt(n, 0);
    VisitFirst(Ladder(n), Rung(0));
  }

  /** Rungs 1 to `n` import the one below; what the root imports is open. */
  ghost predicate HasRungs(g: Graph, n: nat) {
    forall k :: 1 <= k <= n ==> Rung(k) in g && g[Rung(k)] == Below(n, k)
  }

  lemma VisitOne(g: Graph, path: seq<string>, n: string, w: Walk)
    ensures VisitAll(g, path, [n], w) == Visit(g, path, n, w)
  {
    assert [n][1..] == [];
  }

  /** Met from above, every rung lies on the stack of the one below it. */
  lemma {:induction false} DescendLadder(g: Graph, n: nat, path: seq<string>, k: nat, w: Walk)
    requires HasRungs(g, n) && 1 <= k <= n && w.order == [] && forall i :: 0 <= i < |path| ==> |path[i]| == 6 || |path[i]| > k + 6
    ensures Visit(g, path, Rung(k), w).deepest >= |path| + k
    decreases k
  {
    hide Rung; hide Rungs;
    var r := Rung(k);
    assert |r| == k + 6 && g[r] == Below(n, k);
    var w' := w.(deepest := Max(w.deepest, |path| + 1));
    if k > 1 {
      DescendLadder(g, n, path + [r], k - 1, w');
      VisitOne(g, path + [r], Rung(k - 1), w');
      hide VisitAll;
      assert g[r] == [Rung(k - 1)];
    }
  }

  lemma DeepWalk(g: Graph, n: nat)
    requires HasRungs(g, n) && n > 0 && Rung(0) in g && g[Rung(0)] != [] && g[Rung(0)][0] == Rung(n)
    ensures Visit(g, [], Rung(0), START).deepest > n
  {
    hide Visit; hide Rung; hide HasRungs;
    var root, w := Rung(0), Walk([], false, 1);
    VisitFirst(g, root);
    DescendLadder(g, n, [root], n, w);
    VisitAllContinues(g, [root], g[root][1..], Visit(g, [root], Rung(n), w));
  }

  lemma {:induction false} NamesCount(p: seq<string>)
    requires NoRepeats(p)
    ensures |Names(p)| == |p|
  {
    if p != [] {
      var front, last := p[..|p| - 1], p[|p| - 1];
      NamesCount(front);
      assert Names(p) == Names(front) + {last};
    }
  }

  lemma SubsetSize<T>(a: set<T>, b: set<T>)
    requires a <= b
    ensures |a| <= |b|
  {
    if a != b { SmallerSet(a, b); }
  }

  /** No chain from a root without cycles holds more files than the walk lists. */
  lemma ChainsWithinOrder(g: Graph, root: string)
    requires Acyclic(g, root)
    ensures ChainsWithin(g, root, |Visit(g, [], root, START).order|)
  {
    WalkMeaning(g, root);
    var order := Visit(g, [], root, START).order;
    hide Visit;
    forall p | ChainFrom(g, root, p) ensures |p| <= |order| {
      ChainHasNoRepeats(g, order, p);
      NamesCount(p);
      NamesCount(order);
      assert Names(p) <= Names(order);
      SubsetSize(Names(p), Names(order));
    }
  }
}
