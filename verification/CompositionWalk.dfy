/** Composition is the limit-free walk of the import graph followed by one merge per file. */
module CompositionWalk {
  import opened Basics
  import opened Config
  import opened Composition
  import opened ImportGraph

  function ResolveAll(name: string, imports: seq<string>): Option<seq<string>> {
    if imports == [] then Some([])
    else
      var first, rest := ResolveImport(name, imports[0]), ResolveAll(name, imports[1..]);
      if first.None? || rest.None? then None else Some([first.value] + rest.value)
  }

  /** A readable file whose imports all resolve. */
  predicate Parses(files: Files, n: string) {
    n in files && files[n].Ok? && files[n].value.imports.Some? && ResolveAll(n, files[n].value.imports.value).Some?
  }

  function GraphOf(files: Files): Graph {
    map n | n in files :: if Parses(files, n) then ResolveAll(n, files[n].value.imports.value).value else []
  }

  predicate HasPolicy(files: Files, n: string) { Parses(files, n) && files[n].value.policy.Some? }

  /** A file that may be imported. */
  predicate Importable(files: Files, n: string) { HasPolicy(files, n) && !files[n].value.setsLifecycle }

  predicate AllImportable(files: Files, names: seq<string>) {
    forall i :: 0 <= i < |names| ==> Importable(files, names[i])
  }

  /** Merges the files one after the other. */
  function Fold(files: Files, m: Merged, names: seq<string>): Option<Merged> {
    if names == [] then Some(m)
    else
      var before, n := Fold(files, m, names[..|names| - 1]), names[|names| - 1];
      if before.None? || n !in files || files[n].Err? then None else Merge(before.value, files[n].value, false)
  }

  lemma {:induction false} FoldAppend(files: Files, m: Merged, a: seq<string>, b: seq<string>)
    ensures Fold(files, m, a + b) ==
            (if Fold(files, m, a).None? then None else Fold(files, Fold(files, m, a).value, b))
  {
    hide Merge;
    if b == [] { assert a + b == a; }
    else {
      var front := b[..|b| - 1];
      FoldAppend(files, m, a, front);
      assert (a + b)[..|a + b| - 1] == a + front;
    }
  }

  /** What the walk added after `w`. */
  function Added(w: Walk, v: Walk): seq<string>
    requires w.order <= v.order
  {
    v.order[|w.order|..]
  }

  /** The walk stays within the limits, and everything it added can be imported and merged. */
  ghost predicate Fits(files: Files, stack: seq<string>, m: Merged, w: Walk, v: Walk) {
    && Continues(w, v) && !v.cyclic && v.deepest <= MAX_IMPORT_DEPTH && |stack| + |v.order| <= MAX_IMPORT_FILES
    && AllImportable(files, Added(w, v)) && Fold(files, m, Added(w, v)).Some?
  }

  /** Composition and walk are at the same point. */
  ghost predicate InStep(files: Files, c: Progress, w: Walk) {
    && WalkOk(GraphOf(files), w) && !w.cyclic && w.deepest <= MAX_IMPORT_DEPTH
    && |c.stack| + |w.order| <= MAX_IMPORT_FILES && c.loaded == Names(w.order)
  }

  ghost predicate Agree(files: Files, c: Progress, w: Walk, v: Walk, r: Outcome) {
    && (r.Ok? <==> Fits(files, c.stack, c.merged, w, v))
    && (r.Ok? ==> r.value.merged == Fold(files, c.merged, Added(w, v)).value && InStep(files, r.value, v))
  }

  lemma {:induction false} NamesSize(order: seq<string>)
    requires NoRepeats(order)
    ensures |Names(order)| == |order|
  {
    if order != [] {
      var front, last := order[..|order| - 1], order[|order| - 1];
      NamesSize(front);
      assert Names(order) == Names(front) + {last};
    }
  }

  lemma {:induction false} UnresolvedFails(files: Files, name: string, imports: seq<string>, c: Progress)
    requires ResolveAll(name, imports).None?
    ensures ComposeImports(files, name, imports, c).Err?
    decreases |imports|
  {
    if ResolveImport(name, imports[0]).Some? {
      var r := Compose(files, ResolveImport(name, imports[0]).value, false, c);
      if r.Ok? { UnresolvedFails(files, name, imports[1..], r.value); }
    }
  }

  lemma SplitFits(files: Files, stack: seq<string>, m: Merged, w: Walk, u: Walk, v: Walk)
    requires Continues(w, u) && Continues(u, v)
    ensures Added(w, v) == Added(w, u) + Added(u, v)
    ensures Fits(files, stack, m, w, v) <==>
            Fits(files, stack, m, w, u) && Fits(files, stack, Fold(files, m, Added(w, u)).value, u, v)
    ensures Fold(files, m, Added(w, u)).Some? ==>
              Fold(files, m, Added(w, v)) == Fold(files, Fold(files, m, Added(w, u)).value, Added(u, v))
  {
    hide Importable; hide Fold;
    var a, b := Added(w, u), Added(u, v);
    assert Added(w, v) == a + b;
    FoldAppend(files, m, a, b);
    ImportableAppend(files, a, b);
    hide AllImportable;
  }

  lemma ImportableAppend(files: Files, a: seq<string>, b: seq<string>)
    ensures AllImportable(files, a + b) <==> AllImportable(files, a) && AllImportable(files, b)
  {
    hide Importable;
    if AllImportable(files, a + b) {
      forall i | 0 <= i < |a| ensures Importable(files, a[i]) { assert (a + b)[i] == a[i]; }
      forall i | 0 <= i < |b| ensures Importable(files, b[i]) { assert (a + b)[|a| + i] == b[i]; }
    }
  }

  /** Finishing a file: the walk appends it, composition merges it. */
  lemma FinishFits(files: Files, stack: seq<string>, m: Merged, w: Walk, v: Walk, name: string)
    requires Continues(w, v) && Parses(files, name) && !files[name].value.setsLifecycle
    ensures var v' := v.(order := v.order + [name]);
            && Added(w, v') == Added(w, v) + [name]
            && (Fits(files, stack, m, w, v') <==>
                  && Fits(files, stack + [name], m, w, v)
                  && Merge(Fold(files, m, Added(w, v)).value, files[name].value, false).Some?)
            && (Fits(files, stack, m, w, v') ==>
                  Fold(files, m, Added(w, v')) == Merge(Fold(files, m, Added(w, v)).value, files[name].value, false))
  {
    var a := Added(w, v);
    assert (a + [name])[..|a|] == a;
    assert Fold(files, m, a).Some? ==>
             Fold(files, m, a + [name]) == Merge(Fold(files, m, a).value, files[name].value, false);
    assert AllImportable(files, [name]) <==> files[name].value.policy.Some?;
    ImportableAppend(files, a, [name]);
    hide AllImportable; hide Parses;
  }

  /** What the walk does with a file it has not met. */
  lemma VisitNew(files: Files, path: seq<string>, name: string, w: Walk)
    requires name !in path && name !in w.order
    ensures var g := GraphOf(files);
            var w' := w.(deepest := Max(w.deepest, |path| + 1));
            var v' := VisitAll(g, path + [name], Imports(g, name), w');
            Visit(g, path, name, w) == v'.(order := v'.order + [name])
  {
    hide Parses; hide ResolveAll;
  }

  /** A file that cannot be imported makes both fail. */
  lemma RejectedFile(files: Files, name: string, c: Progress, w: Walk, v: Walk)
    requires Continues(w, v) && name in Added(w, v) && name !in c.loaded
    requires !Parses(files, name) || files[name].value.setsLifecycle
    ensures Compose(files, name, false, c).Err? && !Fits(files, c.stack, c.merged, w, v)
  {
    if name in files && files[name].Ok? && files[name].value.imports.Some? && !Parses(files, name) {
      UnresolvedFails(files, name, files[name].value.imports.value, c.(stack := c.stack + [name]));
    }
    assert !Importable(files, name);
    hide Importable; hide Parses; hide Fold; hide ComposeImports;
  }

  /** Composing a file succeeds exactly when the walk from it fits, and then merges what the walk added. */
  lemma {:induction false} ComposeIsWalk(files: Files, name: string, c: Progress, w: Walk)
    requires InStep(files, c, w)
    ensures Agree(files, c, w, Visit(GraphOf(files), c.stack, name, w), Compose(files, name, false, c))
    decreases MAX_IMPORT_DEPTH - |c.stack|, 2
  {
    var g, v := GraphOf(files), Visit(GraphOf(files), c.stack, name, w);
    VisitContinues(g, c.stack, name, w);
    NamesSize(w.order);
    if name !in c.stack {
      if name in w.order {
        assert Added(w, v) == [];
      } else {
        ComposeNew(files, name, c, w);
      }
    }
  }

  lemma LimitFails(files: Files, name: string, c: Progress, w: Walk, v: Walk)
    requires InStep(files, c, w) && name !in c.stack && name !in w.order && Continues(w, v)
    requires |w.order| < |v.order| && |c.stack| + 1 <= v.deepest
    requires |c.stack| >= MAX_IMPORT_DEPTH || |c.stack| + |w.order| >= MAX_IMPORT_FILES
    ensures Agree(files, c, w, v, Compose(files, name, false, c))
  {
    NamesSize(w.order);
    hide AllImportable; hide Fold; hide ComposeImports; hide Merge; hide WalkOk;
  }

  lemma {:induction false} ComposeNew(files: Files, name: string, c: Progress, w: Walk)
    requires InStep(files, c, w) && name !in c.stack && name !in w.order
    ensures Agree(files, c, w, Visit(GraphOf(files), c.stack, name, w), Compose(files, name, false, c))
    decreases MAX_IMPORT_DEPTH - |c.stack|, 1
  {
    var g, v := GraphOf(files), Visit(GraphOf(files), c.stack, name, w);
    var path := c.stack + [name];
    var w' := w.(deepest := Max(w.deepest, |c.stack| + 1));
    var v' := VisitAll(g, path, Imports(g, name), w');
    VisitNew(files, c.stack, name, w);
    VisitAllContinues(g, path, Imports(g, name), w');
    VisitContinues(g, c.stack, name, w);
    hide Visit; hide VisitAll; hide WalkOk; hide GraphOf;
    assert v.order[|v.order| - 1] == name && |w.order| < |v.order| && |c.stack| + 1 <= v.deepest;
    if |c.stack| >= MAX_IMPORT_DEPTH || |c.stack| + |w.order| >= MAX_IMPORT_FILES {
      hide *;
      LimitFails(files, name, c, w, v);
    } else if !Parses(files, name) || files[name].value.setsLifecycle {
      hide Compose; hide Fits;
      RejectedFile(files, name, c, w, v);
    } else {
      hide *;
      ComposeParsed(files, name, c, w);
    }
  }

  lemma DeeperOk(files: Files, c: Progress, w: Walk, name: string)
    requires InStep(files, c, w) && |c.stack| < MAX_IMPORT_DEPTH && |c.stack| + |w.order| < MAX_IMPORT_FILES
    ensures InStep(files, c.(stack := c.stack + [name]), w.(deepest := Max(w.deepest, |c.stack| + 1)))
  {
  }

  lemma ImportsOf(files: Files, name: string)
    requires Parses(files, name)
    ensures ResolveAll(name, files[name].value.imports.value) == Some(Imports(GraphOf(files), name))
  {
  }

  /** The end of composing a file, given the outcome of its imports. */
  function Finished(files: Files, name: string, c: Progress, r: Outcome): Outcome
    requires Parses(files, name)
  {
    if r.Err? then r
    else
      var m := Merge(r.value.merged, files[name].value, false);
      if m.None? then Err(Invalid) else Ok(Progress(c.stack, r.value.loaded + {name}, m.value))
  }

  lemma ComposeStep(files: Files, name: string, c: Progress)
    requires name !in c.stack && name !in c.loaded && |c.stack| < MAX_IMPORT_DEPTH
    requires |c.stack| + |c.loaded| < MAX_IMPORT_FILES
    requires Parses(files, name) && !files[name].value.setsLifecycle
    ensures Compose(files, name, false, c) == Finished(
              files, name, c,
              ComposeImports(files, name, files[name].value.imports.value, c.(stack := c.stack + [name])))
  {
    hide ComposeImports; hide Merge;
  }

  lemma FinishAgrees(files: Files, name: string, c: Progress, w: Walk, v: Walk, r: Outcome)
    requires Parses(files, name) && !files[name].value.setsLifecycle && Continues(w, v)
    requires Agree(files, c.(stack := c.stack + [name]), w, v, r)
    requires var v' := v.(order := v.order + [name]); !v'.cyclic ==> WalkOk(GraphOf(files), v')
    ensures Agree(files, c, w, v.(order := v.order + [name]), Finished(files, name, c, r))
  {
    var v' := v.(order := v.order + [name]);
    FinishFits(files, c.stack, c.merged, w, v, name);
    hide WalkOk; hide GraphOf; hide Merge; hide Fold; hide AllImportable; hide Parses;
    assert Names(v'.order) == Names(v.order) + {name};
  }

  lemma {:induction false} ComposeParsed(files: Files, name: string, c: Progress, w: Walk)
    requires InStep(files, c, w) && name !in c.stack && name !in w.order
    requires |c.stack| < MAX_IMPORT_DEPTH && |c.stack| + |w.order| < MAX_IMPORT_FILES
    requires Parses(files, name) && !files[name].value.setsLifecycle
    ensures Agree(files, c, w, Visit(GraphOf(files), c.stack, name, w), Compose(files, name, false, c))
    decreases MAX_IMPORT_DEPTH - |c.stack|, 0
  {
    var g := GraphOf(files);
    var c' := c.(stack := c.stack + [name]);
    var w' := w.(deepest := Max(w.deepest, |c.stack| + 1));
    var v' := VisitAll(g, c'.stack, Imports(g, name), w');
    var v := v'.(order := v'.order + [name]);
    var imports := files[name].value.imports.value;
    var r := ComposeImports(files, name, imports, c');
    NamesSize(w.order);
    DeeperOk(files, c, w, name);
    assert name !in c.loaded && |c.stack| + |c.loaded| < MAX_IMPORT_FILES;
    assert WalkOk(g, w);
    assert Continues(w, w');
    hide *;
    ImportsOf(files, name);
    ImportsAreWalk(files, name, imports, c', w', Imports(g, name));
    VisitNew(files, c.stack, name, w);
    VisitAllContinues(g, c'.stack, Imports(g, name), w');
    VisitContinues(g, c.stack, name, w);
    if !v.cyclic { VisitSound(g, c.stack, name, w); }
    ComposeStep(files, name, c);
    FinishAgrees(files, name, c, w', v', r);
    SameAgree(files, c, w, w', v, Compose(files, name, false, c));
  }

  /** The start of a step only matters by its order. */
  lemma SameAgree(files: Files, c: Progress, w: Walk, w': Walk, v: Walk, r: Outcome)
    requires w'.order == w.order && Continues(w', v) && Continues(w, v)
    ensures Agree(files, c, w, v, r) <==> Agree(files, c, w', v, r)
  {
  }

  lemma {:induction false} ImportsAreWalk(
    files: Files, name: string, imports: seq<string>, c: Progress, w: Walk, ns: seq<string>)
    requires InStep(files, c, w) && ResolveAll(name, imports) == Some(ns)
    ensures Agree(files, c, w, VisitAll(GraphOf(files), c.stack, ns, w), ComposeImports(files, name, imports, c))
    decreases MAX_IMPORT_DEPTH - |c.stack|, 3 + |imports|
  {
    if imports == [] {
      assert Added(w, w) == [];
    } else {
      var g, n := GraphOf(files), ns[0];
      var u, r := Visit(g, c.stack, n, w), Compose(files, n, false, c);
      var rest := ns[1..];
      assert ResolveAll(name, imports[1..]) == Some(rest);
      hide Visit; hide WalkOk; hide Parses; hide GraphOf; hide Fold; hide AllImportable; hide Compose;
      ComposeIsWalk(files, n, c, w);
      VisitContinues(g, c.stack, n, w);
      VisitAllContinues(g, c.stack, rest, u);
      var v := VisitAll(g, c.stack, rest, u);
      SplitFits(files, c.stack, c.merged, w, u, v);
      if r.Ok? { ImportsAreWalk(files, name, imports[1..], r.value, u, rest); }
    }
  }
}
