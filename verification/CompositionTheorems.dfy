/** What composition accepts, what it returns, and that the order of imports does not matter. */
module CompositionTheorems {
  import opened Basics
  import opened Config
  import opened Text
  import opened Sorting
  import opened Effective
  import opened Composition
  import opened CompositionWalk
  import opened ImportGraph

  // ----- composition of a session as a walk -----

  ghost function WalkOf(files: Files, root: string): Walk { Visit(GraphOf(files), [], root, START) }

  /** The files before the root. */
  ghost function Imported(v: Walk): seq<string> { if v.order == [] then [] else v.order[..|v.order| - 1] }

  ghost predicate WithinLimits(v: Walk) {
    !v.cyclic && v.deepest <= MAX_IMPORT_DEPTH && |v.order| <= MAX_IMPORT_FILES
  }

  /** The imported files merged, then the root. */
  ghost function MergedRoot(files: Files, names: seq<string>, root: string): Option<Merged>
    requires HasPolicy(files, root)
  {
    var m := Fold(files, NOTHING, names);
    if m.None? then None
    else
      var r := Merge(m.value, files[root].value, true);
      if r.Some? && RootAgrees(r.value) then r else None
  }

  lemma RootStep(files: Files, root: string)
    requires Parses(files, root)
    ensures var r := ComposeImports(files, root, files[root].value.imports.value, Progress([root], {}, NOTHING));
            var s := Compose(files, root, true, Progress([], {}, NOTHING));
            && (s.Ok? <==> r.Ok? && Merge(r.value.merged, files[root].value, true).Some?
                           && RootAgrees(Merge(r.value.merged, files[root].value, true).value))
            && (s.Ok? ==> s.value.merged == Merge(r.value.merged, files[root].value, true).value)
  {
    hide ComposeImports; hide Merge; hide RootAgrees;
    assert [] + [root] == [root];
  }

  lemma RootFails(files: Files, root: string)
    requires !HasPolicy(files, root)
    ensures ComposeSession(files, root).Err?
  {
    if root in files && files[root].Ok? && files[root].value.imports.Some? && !Parses(files, root) {
      assert [] + [root] == [root];
      UnresolvedFails(files, root, files[root].value.imports.value, Progress([root], {}, NOTHING));
    }
    hide ComposeImports; hide ResolveAll;
  }

  lemma RootWalk(files: Files, root: string)
    ensures var g := GraphOf(files);
            var v' := VisitAll(g, [root], Imports(g, root), Walk([], false, 1));
            && WalkOf(files, root) == v'.(order := v'.order + [root]) && Imported(WalkOf(files, root)) == v'.order
            && Continues(Walk([], false, 1), v') && Added(Walk([], false, 1), v') == v'.order
  {
    var g := GraphOf(files);
    VisitNew(files, [], root, START);
    assert [] + [root] == [root];
    VisitAllContinues(g, [root], Imports(g, root), Walk([], false, 1));
    hide GraphOf; hide VisitAll; hide Visit; hide Imports;
  }

  /** A session composes exactly when the walk stays within the limits and the files it lists merge. */
  lemma SessionIsWalk(files: Files, root: string)
    ensures var v, r := WalkOf(files, root), ComposeSession(files, root);
            && (r.Ok? <==>
                  && WithinLimits(v) && HasPolicy(files, root) && AllImportable(files, Imported(v))
                  && MergedRoot(files, Imported(v), root).Some?)
            && (r.Ok? ==> r.value == Session(files[root].value.policy.value, MergedRoot(files, Imported(v), root).value))
  {
    if !HasPolicy(files, root) {
      RootFails(files, root);
    } else {
      var g, v := GraphOf(files), WalkOf(files, root);
      var w0, c0 := Walk([], false, 1), Progress([root], {}, NOTHING);
      var v' := VisitAll(g, [root], Imports(g, root), w0);
      var imports := files[root].value.imports.value;
      RootStep(files, root);
      RootWalk(files, root);
      ImportsOf(files, root);
      assert InStep(files, c0, w0);
      ImportsAreWalk(files, root, imports, c0, w0, Imports(g, root));
      hide GraphOf; hide Merge; hide RootAgrees; hide Fold; hide AllImportable; hide Compose; hide ComposeImports;
      hide ResolveAll; hide VisitAll; hide WalkOf; hide Imports;
    }
  }

  // ----- what the merged files hold -----

  predicate SetsUnmatched(files: Files, n: string, u: UnmatchedHostPolicy) {
    HasPolicy(files, n) && files[n].value.setsUnmatched && files[n].value.policy.value.unmatched == u
  }

  predicate SetsDefault(files: Files, n: string, d: CredentialMode) {
    HasPolicy(files, n) && files[n].value.policy.value.defaultMode == Some(d)
  }

  predicate SetsMode(files: Files, n: string, secret: string, d: CredentialMode) {
    && HasPolicy(files, n) && secret in files[n].value.policy.value.modes
    && files[n].value.policy.value.modes[secret] == d
  }

  function OwnRules(files: Files, n: string): seq<HostRule> {
    if HasPolicy(files, n) then files[n].value.policy.value.rules else []
  }

  /** The rules of the files, one file after the other. */
  function RulesOf(files: Files, names: seq<string>): seq<HostRule> {
    if names == [] then [] else RulesOf(files, names[..|names| - 1]) + OwnRules(files, names[|names| - 1])
  }

  ghost predicate HoldsModes(files: Files, names: seq<string>, modes: map<string, CredentialMode>) {
    && (forall n, secret, d :: n in names && SetsMode(files, n, secret, d) ==> secret in modes && modes[secret] == d)
    && (forall secret :: secret in modes ==> exists n :: n in names && SetsMode(files, n, secret, modes[secret]))
  }

  ghost predicate HoldsSettings(files: Files, names: seq<string>, m: Merged) {
    && (forall n, u :: n in names && SetsUnmatched(files, n, u) ==> m.importedUnmatched == Some(u))
    && (m.importedUnmatched.Some? ==> exists n :: n in names && SetsUnmatched(files, n, m.importedUnmatched.value))
    && (forall n, d :: n in names && SetsDefault(files, n, d) ==> m.importedDefault == Some(d))
    && (m.importedDefault.Some? ==> exists n :: n in names && SetsDefault(files, n, m.importedDefault.value))
    && m.rootUnmatched.None? && m.rootDefault.None?
  }

  ghost predicate HoldsRules(files: Files, names: seq<string>, m: Merged) {
    m.rules == RulesOf(files, names) && m.hosts == HostSet(m.rules) && DistinctBy(HostKey, m.rules)
  }

  ghost predicate Holds(files: Files, names: seq<string>, m: Merged) {
    HoldsModes(files, names, m.modes) && HoldsSettings(files, names, m) && HoldsRules(files, names, m)
  }

  lemma {:induction false} AddRulesMeaning(hosts: set<string>, rules: seq<HostRule>)
    ensures AddRules(hosts, rules).Some? <==>
            DistinctBy(HostKey, rules) && forall i :: 0 <= i < |rules| ==> rules[i].host !in hosts
    ensures AddRules(hosts, rules).Some? ==> AddRules(hosts, rules).value == hosts + HostSet(rules)
    decreases |rules|
  {
    if rules != [] {
      var rest := rules[1..];
      AddRulesMeaning(hosts + {rules[0].host}, rest);
      FirstRule(hosts, rules);
      hide DistinctBy; hide HostSet;
    }
  }

  lemma FirstRule(hosts: set<string>, rules: seq<HostRule>)
    requires rules != []
    ensures var rest := rules[1..];
            && HostSet(rules) == {rules[0].host} + HostSet(rest)
            && (DistinctBy(HostKey, rules) && (forall i :: 0 <= i < |rules| ==> rules[i].host !in hosts) <==>
                && rules[0].host !in hosts && DistinctBy(HostKey, rest)
                && forall i :: 0 <= i < |rest| ==> rest[i].host !in hosts + {rules[0].host})
  {
    var rest := rules[1..];
    assert rules == [rules[0]] + rest;
    DistinctAppend([rules[0]], rest);
    assert HostSet([rules[0]]) == {rules[0].host};
    hide DistinctBy;
    assert forall i :: 0 <= i < |rules| ==> rules[i] == if i == 0 then rules[0] else rest[i - 1];
    assert forall i :: 0 <= i < |rest| ==> rest[i] == rules[i + 1];
    assert DistinctBy(HostKey, [rules[0]]) by { OneRule(rules[0]); }
  }

  lemma OneRule(r: HostRule)
    ensures DistinctBy(HostKey, [r])
  {
  }

  lemma DistinctAppend(a: seq<HostRule>, b: seq<HostRule>)
    ensures DistinctBy(HostKey, a + b) <==>
            DistinctBy(HostKey, a) && DistinctBy(HostKey, b) && forall j :: 0 <= j < |b| ==> b[j].host !in HostSet(a)
    ensures HostSet(a + b) == HostSet(a) + HostSet(b)
  {
    var s := a + b;
    if DistinctBy(HostKey, s) {
      forall i, j | 0 <= i < j < |a| ensures HostKey(a[i]) != HostKey(a[j]) { assert s[i] == a[i] && s[j] == a[j]; }
      forall i, j | 0 <= i < j < |b| ensures HostKey(b[i]) != HostKey(b[j]) {
        assert s[|a| + i] == b[i] && s[|a| + j] == b[j];
      }
      forall i, j | 0 <= i < |a| && 0 <= j < |b| ensures a[i].host != b[j].host {
        assert HostKey(s[i]) != HostKey(s[|a| + j]);
      }
    }
    if DistinctBy(HostKey, a) && DistinctBy(HostKey, b) && forall j :: 0 <= j < |b| ==> b[j].host !in HostSet(a) {
      forall i, j | 0 <= i < j < |s| ensures HostKey(s[i]) != HostKey(s[j]) {
        if j < |a| { assert HostKey(a[i]) != HostKey(a[j]); }
        else if i >= |a| { assert HostKey(b[i - |a|]) != HostKey(b[j - |a|]); }
        else { assert a[i] in a; assert b[j - |a|].host !in HostSet(a); }
      }
    }
  }

  // ----- when files agree -----

  ghost predicate ModesAgree(files: Files, names: seq<string>) {
    forall n, m, secret, a, b :: n in names && m in names && SetsMode(files, n, secret, a) && SetsMode(files, m, secret, b)
                                 ==> a == b
  }

  /** Every explicit setting of the files is the given one, modes never differ, and no host has two rules. */
  ghost predicate Agreeing(files: Files, names: seq<string>, u: UnmatchedHostPolicy, d: CredentialMode) {
    && (forall n, x :: n in names && SetsUnmatched(files, n, x) ==> x == u)
    && (forall n, x :: n in names && SetsDefault(files, n, x) ==> x == d)
    && ModesAgree(files, names) && DistinctBy(HostKey, RulesOf(files, names))
  }

  lemma ModesStep(files: Files, names: seq<string>, n: string, modes: map<string, CredentialMode>)
    requires HasPolicy(files, n) && HoldsModes(files, names, modes)
    ensures var added := files[n].value.policy.value.modes;
            && (!ModesConflict(modes, added) ==> HoldsModes(files, names + [n], modes + added))
            && (!ModesConflict(modes, added) <==> ModesAgree(files, names + [n]))
  {
    hide ResolveAll;
    var added := files[n].value.policy.value.modes;
    var all := names + [n];
    if ModesConflict(modes, added) {
      var secret :| secret in modes && secret in added && modes[secret] != added[secret];
      var m :| m in names && SetsMode(files, m, secret, modes[secret]);
      assert m in all && n in all && SetsMode(files, n, secret, added[secret]);
    } else {
      var sum := modes + added;
      forall m, secret, d | m in all && SetsMode(files, m, secret, d) ensures secret in sum && sum[secret] == d {
        if m in names { assert secret in modes && modes[secret] == d; }
      }
      forall secret | secret in sum ensures exists m :: m in all && SetsMode(files, m, secret, sum[secret]) {
        if secret in added { assert n in all && SetsMode(files, n, secret, sum[secret]); }
        else { var m :| m in names && SetsMode(files, m, secret, modes[secret]); assert m in all; }
      }
      assert HoldsModes(files, all, sum);
    }
  }

  lemma RulesStep(files: Files, names: seq<string>, n: string, m: Merged)
    requires HasPolicy(files, n) && HoldsRules(files, names, m)
    ensures var own := files[n].value.policy.value.rules;
            && RulesOf(files, names + [n]) == m.rules + own
            && (AddRules(m.hosts, own).Some? <==> DistinctBy(HostKey, m.rules + own))
            && (AddRules(m.hosts, own).Some? ==> AddRules(m.hosts, own).value == HostSet(m.rules + own))
  {
    hide DistinctBy; hide HostSet; hide AddRules;
    var own := files[n].value.policy.value.rules;
    assert (names + [n])[..|names|] == names;
    AddRulesMeaning(m.hosts, own);
    DistinctAppend(m.rules, own);
  }

  lemma SettingsStep(files: Files, names: seq<string>, n: string, m: Merged, m': Merged)
    requires HasPolicy(files, n) && HoldsSettings(files, names, m) && Merge(m, files[n].value, false) == Some(m')
    ensures HoldsSettings(files, names + [n], m')
  {
    hide ResolveAll; hide AddRules; hide ModesConflict;
    var all, file := names + [n], files[n].value;
    var p := file.policy.value;
    if m'.importedUnmatched.Some? {
      if file.setsUnmatched { assert n in all && SetsUnmatched(files, n, p.unmatched); }
      else { var k :| k in names && SetsUnmatched(files, k, m.importedUnmatched.value); assert k in all; }
    }
    if m'.importedDefault.Some? {
      if p.defaultMode.Some? { assert n in all && SetsDefault(files, n, p.defaultMode.value); }
      else { var k :| k in names && SetsDefault(files, k, m.importedDefault.value); assert k in all; }
    }
  }

  lemma MergeHolds(files: Files, names: seq<string>, n: string, m: Merged)
    requires HasPolicy(files, n) && Holds(files, names, m) && Merge(m, files[n].value, false).Some?
    ensures Holds(files, names + [n], Merge(m, files[n].value, false).value)
  {
    var m' := Merge(m, files[n].value, false).value;
    ModesStep(files, names, n, m.modes);
    RulesStep(files, names, n, m);
    SettingsStep(files, names, n, m, m');
    hide HoldsModes; hide HoldsSettings; hide HasPolicy; hide DistinctBy; hide HostSet; hide AddRules; hide ModesConflict;
    hide RulesOf;
  }

  lemma NothingHolds(files: Files)
    ensures Holds(files, [], NOTHING)
  {
  }

  lemma {:induction false} FoldHolds(files: Files, names: seq<string>)
    requires AllImportable(files, names) && Fold(files, NOTHING, names).Some?
    ensures Holds(files, names, Fold(files, NOTHING, names).value)
  {
    if names == [] {
      NothingHolds(files);
    } else {
      var front, n := names[..|names| - 1], names[|names| - 1];
      assert Importable(files, n);
      FoldHolds(files, front);
      hide Merge; hide Holds;
      MergeHolds(files, front, n, Fold(files, NOTHING, front).value);
      assert front + [n] == names;
    }
  }

  /** Fewer files agree if more do. */
  lemma AgreeingFront(files: Files, names: seq<string>, n: string, u: UnmatchedHostPolicy, d: CredentialMode)
    requires Agreeing(files, names + [n], u, d)
    ensures Agreeing(files, names, u, d)
  {
    hide SetsUnmatched; hide SetsDefault; hide SetsMode;
    assert (names + [n])[..|names|] == names;
    DistinctAppend(RulesOf(files, names), OwnRules(files, n));
    assert forall k :: k in names ==> k in names + [n];
  }

  lemma AgreeingMerges(files: Files, names: seq<string>, n: string, m: Merged, u: UnmatchedHostPolicy, d: CredentialMode)
    requires HasPolicy(files, n) && Holds(files, names, m) && Agreeing(files, names + [n], u, d)
    ensures Merge(m, files[n].value, false).Some?
  {
    var all, p := names + [n], files[n].value.policy.value;
    ModesStep(files, names, n, m.modes);
    RulesStep(files, names, n, m);
    AgreeingFront(files, names, n, u, d);
    assert n in all;
    if m.importedUnmatched.Some? {
      var k :| k in names && SetsUnmatched(files, k, m.importedUnmatched.value);
    }
    if m.importedDefault.Some? {
      var k :| k in names && SetsDefault(files, k, m.importedDefault.value);
    }
    assert files[n].value.setsUnmatched ==> SetsUnmatched(files, n, p.unmatched);
    assert p.defaultMode.Some? ==> SetsDefault(files, n, p.defaultMode.value);
    hide HasPolicy; hide ModesConflict; hide AddRules; hide HoldsModes; hide HostSet; hide DistinctBy; hide ModesAgree;
  }

  lemma {:induction false} FoldSucceeds(files: Files, names: seq<string>, u: UnmatchedHostPolicy, d: CredentialMode)
    requires AllImportable(files, names) && Agreeing(files, names, u, d)
    ensures Fold(files, NOTHING, names).Some?
  {
    if names != [] {
      var front, n := names[..|names| - 1], names[|names| - 1];
      assert Importable(files, n);
      assert front + [n] == names;
      hide Merge; hide Holds; hide Agreeing;
      AgreeingFront(files, front, n, u, d);
      FoldSucceeds(files, front, u, d);
      FoldHolds(files, front);
      AgreeingMerges(files, front, n, Fold(files, NOTHING, front).value, u, d);
    }
  }

  // ----- the theorems -----

  function EffectiveUnmatched(file: File): UnmatchedHostPolicy {
    if file.setsUnmatched && file.policy.Some? then file.policy.value.unmatched else DenyUnmatched
  }

  function EffectiveDefault(file: File): CredentialMode {
    if file.policy.Some? && file.policy.value.defaultMode.Some? then file.policy.value.defaultMode.value else Inject
  }

  lemma RootSettings(files: Files, names: seq<string>, root: string, m: Merged)
    requires HasPolicy(files, root) && Holds(files, names, m)
    requires !ModesConflict(m.modes, files[root].value.policy.value.modes)
    requires AddRules(m.hosts, files[root].value.policy.value.rules).Some?
    ensures var r := Merge(m, files[root].value, true);
            && r.Some? && Unmatched(r.value) == EffectiveUnmatched(files[root].value)
            && r.value.rootDefault == files[root].value.policy.value.defaultMode
            && DefaultMode(r.value) == EffectiveDefault(files[root].value)
            && (RootAgrees(r.value) <==>
                  && (forall n, x :: n in names && SetsUnmatched(files, n, x) ==> x == EffectiveUnmatched(files[root].value))
                  && (forall n, x :: n in names && SetsDefault(files, n, x) ==> x == EffectiveDefault(files[root].value)))
  {
    hide ResolveAll; hide AddRules; hide ModesConflict; hide HoldsModes; hide HoldsRules; hide SetsUnmatched; hide SetsDefault;
    var r := Merge(m, files[root].value, true).value;
    if m.importedUnmatched.Some? { var k :| k in names && SetsUnmatched(files, k, m.importedUnmatched.value); }
    if m.importedDefault.Some? { var k :| k in names && SetsDefault(files, k, m.importedDefault.value); }
  }

  lemma OwnSettings(files: Files, names: seq<string>, root: string)
    requires HasPolicy(files, root)
    ensures var u, d := EffectiveUnmatched(files[root].value), EffectiveDefault(files[root].value);
            Agreeing(files, names + [root], u, d) <==>
            && (forall n, x :: n in names && SetsUnmatched(files, n, x) ==> x == u)
            && (forall n, x :: n in names && SetsDefault(files, n, x) ==> x == d)
            && ModesAgree(files, names + [root]) && DistinctBy(HostKey, RulesOf(files, names + [root]))
  {
    hide ResolveAll; hide ModesAgree; hide DistinctBy; hide RulesOf;
    assert forall n :: n in names + [root] <==> n in names || n == root;
  }

  /** The root merges exactly when all files agree with the settings that it makes effective. */
  lemma RootMerges(files: Files, names: seq<string>, root: string)
    requires HasPolicy(files, root) && AllImportable(files, names)
    ensures MergedRoot(files, names, root).Some? <==>
            Agreeing(files, names + [root], EffectiveUnmatched(files[root].value), EffectiveDefault(files[root].value))
    ensures MergedRoot(files, names, root).Some? ==>
              var m := MergedRoot(files, names, root).value;
              && m.rules == RulesOf(files, names + [root]) && HoldsModes(files, names + [root], m.modes)
              && Unmatched(m) == EffectiveUnmatched(files[root].value)
              && m.rootDefault == files[root].value.policy.value.defaultMode
  {
    var u, d := EffectiveUnmatched(files[root].value), EffectiveDefault(files[root].value);
    if Agreeing(files, names + [root], u, d) {
      AgreeingFront(files, names, root, u, d);
      FoldSucceeds(files, names, u, d);
    }
    if Fold(files, NOTHING, names).Some? {
      var m := Fold(files, NOTHING, names).value;
      FoldHolds(files, names);
      RootMergesAfter(files, names, root, m);
    }
    hide Agreeing; hide RootAgrees; hide Merge; hide Fold; hide HasPolicy;
  }

  lemma RootMergesAfter(files: Files, names: seq<string>, root: string, m: Merged)
    requires HasPolicy(files, root) && Holds(files, names, m)
    ensures var r := Merge(m, files[root].value, true);
            && (r.Some? && RootAgrees(r.value) <==>
                Agreeing(files, names + [root], EffectiveUnmatched(files[root].value), EffectiveDefault(files[root].value)))
            && (r.Some? && RootAgrees(r.value) ==>
                  && r.value.rules == RulesOf(files, names + [root]) && HoldsModes(files, names + [root], r.value.modes)
                  && Unmatched(r.value) == EffectiveUnmatched(files[root].value)
                  && r.value.rootDefault == files[root].value.policy.value.defaultMode)
  {
    var p := files[root].value.policy.value;
    ModesStep(files, names, root, m.modes);
    RulesStep(files, names, root, m);
    OwnSettings(files, names, root);
    if !ModesConflict(m.modes, p.modes) && AddRules(m.hosts, p.rules).Some? { RootSettings(files, names, root, m); }
    hide RootAgrees; hide Agreeing; hide HoldsModes; hide HoldsSettings; hide ModesAgree; hide DistinctBy; hide RulesOf;
    hide EffectiveDefault; hide EffectiveUnmatched; hide Unmatched; hide DefaultMode; hide ResolveAll; hide HostSet;
    hide AddRules; hide ModesConflict;
  }

  /** Every file reachable from the root may be used, and they all agree. */
  ghost predicate FilesOk(files: Files, root: string) {
    && HasPolicy(files, root)
    && (forall n :: Reachable(GraphOf(files), root, n) && n != root ==> Importable(files, n))
    && Agreeing(files, WalkOf(files, root).order, EffectiveUnmatched(files[root].value), EffectiveDefault(files[root].value))
  }

  lemma OrderSplits(files: Files, root: string)
    requires !WalkOf(files, root).cyclic
    ensures var v := WalkOf(files, root);
            && v.order == Imported(v) + [root]
            && (forall n :: n in Imported(v) <==> Reachable(GraphOf(files), root, n) && n != root)
  {
    var v := WalkOf(files, root);
    WalkMeaning(GraphOf(files), root);
    hide Visit; hide Reachable; hide Topological;
    var last := |v.order| - 1;
    assert v.order == v.order[..last] + [v.order[last]];
    forall n | n in Imported(v) ensures n in v.order && n != root {
      var i :| 0 <= i < last && v.order[i] == n;
      assert v.order[i] != v.order[last];
    }
  }

  /**
   Composition accepts a root exactly when no import chain from it comes back to a file, the walk stacks at most 32
   files and lists at most 128, every reachable file is valid, only the root sets lifecycle fields, and nothing
   conflicts.
   */
  lemma ComposesExactly(files: Files, root: string)
    ensures ComposeSession(files, root).Ok? <==>
            && Acyclic(GraphOf(files), root) && FilesOk(files, root)
            && WalkOf(files, root).deepest <= MAX_IMPORT_DEPTH && |WalkOf(files, root).order| <= MAX_IMPORT_FILES
  {
    var v := WalkOf(files, root);
    SessionIsWalk(files, root);
    WalkMeaning(GraphOf(files), root);
    if !v.cyclic && HasPolicy(files, root) {
      OrderSplits(files, root);
      hide WalkOf; hide Agreeing; hide MergedRoot; hide Importable; hide HasPolicy; hide Acyclic; hide Reachable;
      hide GraphOf;
      assert AllImportable(files, Imported(v)) <==>
             forall n :: Reachable(GraphOf(files), root, n) && n != root ==> Importable(files, n) by {
        if AllImportable(files, Imported(v)) {
          forall n | Reachable(GraphOf(files), root, n) && n != root ensures Importable(files, n) {
            var i :| 0 <= i < |Imported(v)| && Imported(v)[i] == n;
          }
        } else {
          var i :| 0 <= i < |Imported(v)| && !Importable(files, Imported(v)[i]);
          assert Imported(v)[i] in Imported(v);
        }
      }
      if AllImportable(files, Imported(v)) { RootMerges(files, Imported(v), root); }
    }
  }

  /**
   The composed session: the rules of all reachable files, each file once and after its imports, with pairwise
   distinct hosts; every explicit setting of any file is the effective one; lifecycle fields come from the root.
   */
  lemma ComposesReachableOnce(files: Files, root: string)
    requires ComposeSession(files, root).Ok?
    ensures var config, order := ComposeSession(files, root).value, WalkOf(files, root).order;
            && NoRepeats(order) && Topological(GraphOf(files), order)
            && (forall n :: n in order <==> Reachable(GraphOf(files), root, n))
            && config.rules == RulesOf(files, order) && DistinctBy(HostKey, config.rules)
            && HoldsModes(files, order, config.modes)
            && (forall n, u :: n in order && SetsUnmatched(files, n, u) ==> config.unmatched == u)
            && (forall n, d :: n in order && SetsDefault(files, n, d) ==>
                                 d == if config.defaultMode.Some? then config.defaultMode.value else Inject)
            && HasPolicy(files, root) && var p := files[root].value.policy.value;
               config.persistent == p.persistent && config.socketName == p.socketName
               && config.defaultMode == p.defaultMode && config.unmatched == EffectiveUnmatched(files[root].value)
  {
    var v := WalkOf(files, root);
    ComposesExactly(files, root);
    SessionIsWalk(files, root);
    WalkMeaning(GraphOf(files), root);
    OrderSplits(files, root);
    RootMerges(files, Imported(v), root);
    hide MergedRoot; hide WalkOf; hide HasPolicy; hide Topological; hide Reachable; hide SetsUnmatched; hide SetsDefault;
    hide HoldsModes; hide GraphOf; hide RulesOf; hide ModesAgree; hide Acyclic; hide Fold; hide Compose; hide AllImportable;
  }

  /** A reachable import cycle always makes composition fail. */
  lemma CyclesFail(files: Files, root: string, p: seq<string>)
    requires ChainFrom(GraphOf(files), root, p) && !NoRepeats(p)
    ensures ComposeSession(files, root).Err?
  {
    hide ChainFrom; hide NoRepeats; hide FilesOk;
    ComposesExactly(files, root);
  }

  /** Within the documented limits, no import chain over 32 files and at most 128 files, only the files matter. */
  lemma ComposesWithinLimits(files: Files, root: string)
    requires Acyclic(GraphOf(files), root) && FilesOk(files, root)
    requires ChainsWithin(GraphOf(files), root, MAX_IMPORT_DEPTH) && |WalkOf(files, root).order| <= MAX_IMPORT_FILES
    ensures ComposeSession(files, root).Ok?
  {
    hide FilesOk; hide Acyclic; hide ChainsWithin;
    ComposesExactly(files, root);
    WalkMeaning(GraphOf(files), root);
  }

  // ----- the order of imports -----

  ghost predicate SameFile(x: Result<File, ErrorKind>, y: Result<File, ErrorKind>) {
    if x.Err? then x == y
    else
      && y.Ok? && y.value == x.value.(imports := y.value.imports)
      && (x.value.imports.Some? <==> y.value.imports.Some?)
      && (x.value.imports.Some? ==> multiset(x.value.imports.value) == multiset(y.value.imports.value))
  }

  /** The same files, perhaps with their imports in another order. */
  ghost predicate SameFiles(a: Files, b: Files) {
    a.Keys == b.Keys && forall n :: n in a ==> SameFile(a[n], b[n])
  }

  lemma {:induction false} ResolveAllMeaning(name: string, imports: seq<string>)
    ensures ResolveAll(name, imports).Some? <==> forall i :: 0 <= i < |imports| ==> ResolveImport(name, imports[i]).Some?
    ensures ResolveAll(name, imports).Some? ==>
              forall n :: n in ResolveAll(name, imports).value <==>
                          exists i :: 0 <= i < |imports| && ResolveImport(name, imports[i]) == Some(n)
  {
    hide ResolveImport;
    if imports != [] {
      ResolveAllMeaning(name, imports[1..]);
      assert imports == [imports[0]] + imports[1..];
      if ResolveAll(name, imports).Some? {
        var all, rest := ResolveAll(name, imports).value, ResolveAll(name, imports[1..]).value;
        forall n ensures n in all <==> exists i :: 0 <= i < |imports| && ResolveImport(name, imports[i]) == Some(n) {
          if n in all && n != all[0] {
            assert n in rest;
            var i :| 0 <= i < |imports[1..]| && ResolveImport(name, imports[1..][i]) == Some(n);
            assert imports[i + 1] == imports[1..][i];
          }
          if i :| 0 <= i < |imports| && ResolveImport(name, imports[i]) == Some(n) {
            if i > 0 { assert imports[1..][i - 1] == imports[i]; assert n in rest; }
          }
        }
      }
    }
  }

  lemma ResolvesAlike(name: string, s: seq<string>, t: seq<string>)
    requires multiset(s) == multiset(t) && ResolveAll(name, s).Some?
    ensures ResolveAll(name, t).Some? && Names(ResolveAll(name, t).value) == Names(ResolveAll(name, s).value)
  {
    hide ResolveImport;
    ResolveAllMeaning(name, s);
    ResolveAllMeaning(name, t);
    forall i | 0 <= i < |t| ensures ResolveImport(name, t[i]).Some? { Rearranged(t, s, t[i]); }
    forall n ensures n in ResolveAll(name, t).value <==> n in ResolveAll(name, s).value {
      if n in ResolveAll(name, t).value {
        var i :| 0 <= i < |t| && ResolveImport(name, t[i]) == Some(n);
        Rearranged(t, s, t[i]);
      }
      if n in ResolveAll(name, s).value {
        var i :| 0 <= i < |s| && ResolveImport(name, s[i]) == Some(n);
        Rearranged(s, t, s[i]);
      }
    }
  }

  lemma ParsesAlike(a: Files, b: Files, n: string)
    requires SameFiles(a, b)
    ensures Parses(a, n) <==> Parses(b, n)
    ensures Names(Imports(GraphOf(a), n)) == Names(Imports(GraphOf(b), n))
  {
    hide ResolveAll;
    if n in a {
      assert SameFile(a[n], b[n]);
      if Parses(a, n) { ResolvesAlike(n, a[n].value.imports.value, b[n].value.imports.value); }
      if Parses(b, n) { ResolvesAlike(n, b[n].value.imports.value, a[n].value.imports.value); }
    }
  }

  lemma FileAlike(a: Files, b: Files, n: string)
    requires SameFiles(a, b)
    ensures HasPolicy(a, n) <==> HasPolicy(b, n)
    ensures HasPolicy(a, n) ==> b[n].value == a[n].value.(imports := b[n].value.imports)
    ensures Importable(a, n) <==> Importable(b, n)
    ensures OwnRules(a, n) == OwnRules(b, n)
    ensures forall u :: SetsUnmatched(a, n, u) <==> SetsUnmatched(b, n, u)
    ensures forall d :: SetsDefault(a, n, d) <==> SetsDefault(b, n, d)
    ensures forall s, d :: SetsMode(a, n, s, d) <==> SetsMode(b, n, s, d)
  {
    ParsesAlike(a, b, n);
    hide ResolveAll; hide GraphOf;
    if n in a { assert SameFile(a[n], b[n]); }
  }

  lemma {:induction false} RulesAlike(a: Files, b: Files, names: seq<string>)
    requires SameFiles(a, b)
    ensures RulesOf(a, names) == RulesOf(b, names)
  {
    hide SameFiles; hide OwnRules;
    if names != [] {
      RulesAlike(a, b, names[..|names| - 1]);
      FileAlike(a, b, names[|names| - 1]);
    }
  }

  lemma RulesLast(files: Files, names: seq<string>)
    requires names != []
    ensures RulesOf(files, names) == RulesOf(files, names[..|names| - 1]) + OwnRules(files, names[|names| - 1])
  {
  }

  lemma WithoutFront(names: seq<string>, k: nat)
    requires k < |names|
    ensures var last, rest := |names| - 1, Without(names, k);
            if k == last then rest == names[..last]
            else rest[..last - 1] == Without(names[..last], k) && rest[last - 1] == names[last]
  {
  }

  lemma {:induction false} RulesWithout(files: Files, names: seq<string>, k: nat)
    requires k < |names|
    ensures multiset(RulesOf(files, names)) == multiset(RulesOf(files, Without(names, k))) + multiset(OwnRules(files, names[k]))
    decreases |names|
  {
    hide RulesOf; hide OwnRules; hide Without;
    var last, rest := |names| - 1, Without(names, k);
    WithoutFront(names, k);
    RulesLast(files, names);
    if k < last {
      RulesLast(files, rest);
      RulesWithout(files, names[..last], k);
    }
  }

  lemma {:induction false} RulesRearranged(files: Files, s: seq<string>, t: seq<string>)
    requires multiset(s) == multiset(t)
    ensures multiset(RulesOf(files, s)) == multiset(RulesOf(files, t))
    decreases |s|
  {
    if s == [] {
      assert |s| == |multiset(s)| == |multiset(t)| == |t|;
    } else {
      var k := RemoveMatching(s, t);
      RulesWithout(files, s, 0);
      RulesWithout(files, t, k);
      hide RulesOf; hide OwnRules;
      RulesRearranged(files, Without(s, 0), Without(t, k));
    }
  }

  lemma {:induction false} MultiplicityOne(s: seq<string>, x: string)
    requires NoRepeats(s)
    ensures multiset(s)[x] == if x in s then 1 else 0
  {
    if s != [] {
      MultiplicityOne(s[1..], x);
      assert s == [s[0]] + s[1..];
    }
  }

  lemma SameMembers(s: seq<string>, t: seq<string>)
    requires NoRepeats(s) && NoRepeats(t) && forall x :: x in s <==> x in t
    ensures multiset(s) == multiset(t) && |s| == |t|
  {
    forall x ensures multiset(s)[x] == multiset(t)[x] { MultiplicityOne(s, x); MultiplicityOne(t, x); }
    assert multiset(s) == multiset(t);
    assert |s| == |multiset(s)| == |multiset(t)| == |t|;
  }

  lemma WalksAlike(a: Files, b: Files, root: string)
    requires SameFiles(a, b) && Acyclic(GraphOf(a), root)
    ensures Acyclic(GraphOf(b), root) && multiset(WalkOf(a, root).order) == multiset(WalkOf(b, root).order)
    ensures |WalkOf(a, root).order| == |WalkOf(b, root).order|
    ensures forall n :: Reachable(GraphOf(a), root, n) <==> Reachable(GraphOf(b), root, n)
    ensures forall limit :: ChainsWithin(GraphOf(a), root, limit) <==> ChainsWithin(GraphOf(b), root, limit)
  {
    hide Visit; hide Reachable; hide Acyclic; hide GraphOf; hide Topological; hide SameFiles; hide ChainsWithin;
    forall n ensures Names(Imports(GraphOf(a), n)) == Names(Imports(GraphOf(b), n)) { ParsesAlike(a, b, n); }
    SameChains(GraphOf(a), GraphOf(b), root);
    WalkMeaning(GraphOf(a), root);
    WalkMeaning(GraphOf(b), root);
    SameMembers(WalkOf(a, root).order, WalkOf(b, root).order);
  }

  lemma AgreeAlike(a: Files, b: Files, s: seq<string>, t: seq<string>, u: UnmatchedHostPolicy, d: CredentialMode)
    requires SameFiles(a, b) && multiset(s) == multiset(t) && Agreeing(a, s, u, d)
    ensures Agreeing(b, t, u, d)
  {
    hide SetsUnmatched; hide SetsDefault; hide SetsMode; hide SameFiles; hide RulesOf; hide DistinctBy; hide HasPolicy;
    forall n ensures n in s <==> n in t { assert n in s <==> n in multiset(s); assert n in t <==> n in multiset(t); }
    forall n, m, secret, x, y |
      n in t && m in t && SetsMode(b, n, secret, x) && SetsMode(b, m, secret, y) ensures x == y
    {
      FileAlike(a, b, n); FileAlike(a, b, m);
    }
    forall n, x | n in t && SetsUnmatched(b, n, x) ensures x == u { FileAlike(a, b, n); }
    forall n, x | n in t && SetsDefault(b, n, x) ensures x == d { FileAlike(a, b, n); }
    RulesAlike(a, b, t);
    RulesRearranged(a, s, t);
    DistinctRearranged(RulesOf(a, s), RulesOf(a, t));
  }

  lemma FilesOkAlike(a: Files, b: Files, root: string)
    requires SameFiles(a, b) && Acyclic(GraphOf(a), root) && FilesOk(a, root)
    ensures FilesOk(b, root)
  {
    WalksAlike(a, b, root);
    FileAlike(a, b, root);
    hide Reachable; hide Acyclic; hide GraphOf; hide SameFiles; hide Importable; hide Agreeing; hide WalkOf;
    forall n | Reachable(GraphOf(b), root, n) && n != root ensures Importable(b, n) { FileAlike(a, b, n); }
    AgreeAlike(a, b, WalkOf(a, root).order, WalkOf(b, root).order,
               EffectiveUnmatched(a[root].value), EffectiveDefault(a[root].value));
  }

  lemma ModesDetermined(a: Files, b: Files, s: seq<string>, t: seq<string>,
                        x: map<string, CredentialMode>, y: map<string, CredentialMode>)
    requires SameFiles(a, b) && multiset(s) == multiset(t) && HoldsModes(a, s, x) && HoldsModes(b, t, y)
    ensures x == y
  {
    hide SetsMode; hide SameFiles; hide HasPolicy;
    forall n ensures n in s <==> n in t { assert n in s <==> n in multiset(s); assert n in t <==> n in multiset(t); }
    forall secret | secret in x ensures secret in y && y[secret] == x[secret] {
      var n :| n in s && SetsMode(a, n, secret, x[secret]);
      FileAlike(a, b, n);
    }
    forall secret | secret in y ensures secret in x {
      var n :| n in t && SetsMode(b, n, secret, y[secret]);
      FileAlike(a, b, n);
    }
  }

  /**
   Within the documented limits the order of imports is irrelevant: both orders compose, to the same settings and
   the same rules up to order.
   */
  lemma ImportOrderIrrelevant(a: Files, b: Files, root: string)
    requires SameFiles(a, b) && Acyclic(GraphOf(a), root) && FilesOk(a, root)
    requires ChainsWithin(GraphOf(a), root, MAX_IMPORT_DEPTH) && |WalkOf(a, root).order| <= MAX_IMPORT_FILES
    ensures ComposeSession(a, root).Ok? && ComposeSession(b, root).Ok?
    ensures var x, y := ComposeSession(a, root).value, ComposeSession(b, root).value;
            y == x.(rules := y.rules) && multiset(x.rules) == multiset(y.rules)
  {
    WalksAlike(a, b, root);
    FilesOkAlike(a, b, root);
    FileAlike(a, b, root);
    hide FilesOk; hide Acyclic; hide ChainsWithin; hide SameFiles; hide WalkOf; hide GraphOf; hide ComposeSession;
    hide Reachable; hide Topological; hide HoldsModes; hide NoRepeats; hide DistinctBy; hide RulesOf; hide HasPolicy;
    ComposesWithinLimits(a, root);
    ComposesWithinLimits(b, root);
    ComposesReachableOnce(a, root);
    ComposesReachableOnce(b, root);
    var s, t := WalkOf(a, root).order, WalkOf(b, root).order;
    ModesDetermined(a, b, s, t, ComposeSession(a, root).value.modes, ComposeSession(b, root).value.modes);
    RulesAlike(a, b, t);
    RulesRearranged(a, s, t);
  }

  /** Hence a reload after reordering imports finds the session unchanged. */
  lemma ImportOrderUnchanged(a: Files, b: Files, root: string)
    requires SameFiles(a, b) && Acyclic(GraphOf(a), root) && FilesOk(a, root)
    requires ChainsWithin(GraphOf(a), root, MAX_IMPORT_DEPTH) && |WalkOf(a, root).order| <= MAX_IMPORT_FILES
    requires forall n :: HasPolicy(a, n) ==> NoDuplicates(a[n].value.policy.value.rules)
    ensures ComposeSession(a, root).Ok? && ComposeSession(b, root).Ok?
    ensures SameConfiguration(ComposeSession(a, root).value, ComposeSession(b, root).value)
  {
    hide FilesOk; hide Acyclic; hide ChainsWithin; hide SameFiles; hide WalkOf; hide GraphOf; hide ComposeSession;
    hide Reachable; hide Topological; hide HoldsModes; hide HasPolicy; hide SameRules; hide MeaningOf;
    ImportOrderIrrelevant(a, b, root);
    ComposesReachableOnce(a, root);
    var x, y := ComposeSession(a, root).value, ComposeSession(b, root).value;
    HeadersDistinct(a, WalkOf(a, root).order);
    MapRearranged(MeaningOf, x.rules, y.rules);
    SameRulesIffSameMeaning(x.rules, y.rules);
  }

  lemma {:induction false} HeadersDistinct(files: Files, names: seq<string>)
    requires forall n :: HasPolicy(files, n) ==> NoDuplicates(files[n].value.policy.value.rules)
    ensures forall k :: 0 <= k < |RulesOf(files, names)| ==> DistinctBy(HeaderKey, RulesOf(files, names)[k].inject)
  {
    hide Parses; hide HeaderKey;
    if names != [] {
      HeadersDistinct(files, names[..|names| - 1]);
      var own := OwnRules(files, names[|names| - 1]);
      assert forall k :: 0 <= k < |own| ==> DistinctBy(HeaderKey, own[k].inject);
    }
  }

  // ----- the documented depth limit -----

  const EMPTY_POLICY := SessionConfig(false, None, DenyUnmatched, None, map[], [])

  /** The files of a ladder, with no settings of their own. */
  function LadderFiles(n: nat): Files {
    map s | s in Ladder(n) :: Ok(File(false, Some(Ladder(n)[s]), false, Some(EMPTY_POLICY)))
  }

  lemma {:induction false} OnePiece(s: string)
    requires '/' !in s
    ensures Split(s, '/') == [s]
  {
    if s != [] { OnePiece(s[1..]); assert [s[0]] + s[1..] == s; }
  }

  lemma RungResolves(j: nat, k: nat)
    requires k <= 200
    ensures ResolveImport(Rung(j), Rung(k)) == Some(Rung(k))
  {
    var imp := Rung(k);
    assert forall i :: 0 <= i < |imp| ==> imp[i] in "a.toml";
    assert forall i :: 0 <= i < |Rung(j)| ==> Rung(j)[i] in "a.toml";
    OnePiece(imp);
    OnePiece(Rung(j));
    assert imp[|imp| - 5..] == ".toml";
    assert imp[0] == 'a';
    hide Rung; hide Split;
    assert Follow([], [imp]) == Some([imp]) by { assert [imp][1..] == [] && [] + [imp] == [imp]; }
    assert Parent(Rung(j)) == [];
    assert Join([imp], '/') == imp;
  }

  lemma {:induction false} RungsResolve(j: nat, names: seq<string>)
    requires forall i :: 0 <= i < |names| ==> exists k: nat :: k <= 200 && names[i] == Rung(k)
    ensures ResolveAll(Rung(j), names) == Some(names)
  {
    hide Rung; hide ResolveImport;
    if names != [] {
      var k: nat :| k <= 200 && names[0] == Rung(k);
      RungResolves(j, k);
      RungsResolve(j, names[1..]);
      assert names == [names[0]] + names[1..];
    }
  }

  lemma LadderFileImports(n: nat, s: string)
    requires n <= 200 && s in Ladder(n)
    ensures Importable(LadderFiles(n), s) && ResolveAll(s, Ladder(n)[s]) == Some(Ladder(n)[s])
  {
    hide Ladder; hide Rung; hide ResolveAll; hide Rungs;
    LadderOnly(n, s);
    var j: nat :| j <= n && s == Rung(j);
    LadderAt(n, j);
    var names := Ladder(n)[s];
    forall i | 0 <= i < |names| ensures exists k: nat :: k <= 200 && names[i] == Rung(k) {
      if j == 0 { assert names[i] == Rung(1 + i); } else { assert names[i] == Rung(j - 1); }
    }
    RungsResolve(j, names);
  }

  lemma LadderGraph(n: nat)
    requires n <= 200
    ensures GraphOf(LadderFiles(n)) == Ladder(n)
  {
    hide Ladder; hide ResolveAll;
    var files := LadderFiles(n);
    assert GraphOf(files).Keys == Ladder(n).Keys;
    forall s | s in Ladder(n) ensures GraphOf(files)[s] == Ladder(n)[s] { LadderFileImports(n, s); }
  }

  lemma {:induction false} NoRulesOf(files: Files, names: seq<string>)
    requires forall n :: n in files ==> files[n].Ok? && files[n].value.policy == Some(EMPTY_POLICY)
    ensures RulesOf(files, names) == []
  {
    if names != [] { NoRulesOf(files, names[..|names| - 1]); }
  }

  lemma ReachableInside(n: nat, s: string)
    requires Reachable(Ladder(n), Rung(0), s)
    ensures s in Ladder(n)
  {
    hide Ladder; hide Rung; hide Rungs;
    var g := Ladder(n);
    var p :| ChainFrom(g, Rung(0), p) && p[|p| - 1] == s;
    var last := |p| - 1;
    if last > 0 {
      assert p[last - 1 + 1] in Imports(g, p[last - 1]);
      LadderOnly(n, p[last - 1]);
      var j: nat :| j <= n && p[last - 1] == Rung(j);
      LadderAt(n, j);
      if j == 0 {
        var i :| 0 <= i < |Rungs(1, n)| && Rungs(1, n)[i] == s;
        LadderAt(n, 1 + i);
      } else {
        LadderAt(n, j - 1);
      }
    } else {
      LadderAt(n, 0);
    }
  }

  /** Files without settings always agree. */
  lemma EmptyFilesOk(files: Files, root: string)
    requires forall n :: n in files ==> files[n].Ok? && files[n].value.policy == Some(EMPTY_POLICY) && !files[n].value.setsUnmatched
    requires HasPolicy(files, root) && forall n :: Reachable(GraphOf(files), root, n) ==> Importable(files, n)
    ensures FilesOk(files, root)
  {
    hide Reachable; hide GraphOf; hide ResolveAll; hide WalkOf;
    var order := WalkOf(files, root).order;
    NoRulesOf(files, order);
    assert ModesAgree(files, order);
    hide RulesOf;
  }

  /** A session is accepted although an import chain in it holds more than 32 files: up to 128. */
  lemma LongChainAccepted(n: nat)
    requires 0 < n < MAX_IMPORT_FILES
    ensures ComposeSession(LadderFiles(n), Rung(0)).Ok?
    ensures exists p :: ChainFrom(GraphOf(LadderFiles(n)), Rung(0), p) && |p| == n + 1
  {
    var files, root := LadderFiles(n), Rung(0);
    LadderGraph(n);
    hide Ladder; hide Rung; hide GraphOf;
    forall s | Reachable(Ladder(n), root, s) ensures Importable(files, s) {
      ReachableInside(n, s);
      LadderFileImports(n, s);
    }
    LadderAt(n, 0);
    LadderFileImports(n, root);
    EmptyFilesOk(files, root);
    ShallowWalkLongChain(n);
    WalkMeaning(Ladder(n), root);
    hide Visit; hide LadderFiles; hide ResolveAll; hide Acyclic; hide Reachable; hide ChainFrom; hide FilesOk;
    ComposesExactly(files, root);
  }

  /** A ladder whose root names the last rung first. */
  function FlippedFiles(n: nat): Files
    requires n > 0
  {
    LadderFiles(n)[Rung(0) := Ok(File(false, Some([Rung(n)] + Rungs(1, n - 1)), false, Some(EMPTY_POLICY)))]
  }

  lemma FlippedIsSame(n: nat)
    requires n > 0
    ensures SameFiles(LadderFiles(n), FlippedFiles(n))
  {
    hide Ladder; hide Rung; hide Rungs;
    LadderAt(n, 0);
    RootImports(n);
    var a, b := LadderFiles(n), FlippedFiles(n);
    forall s | s in a ensures s in b && SameFile(a[s], b[s]) {}
  }

  lemma RootImports(n: nat)
    requires n > 0
    ensures Below(n, 0) == Rungs(1, n) && multiset(Rungs(1, n)) == multiset([Rung(n)] + Rungs(1, n - 1))
  {
    hide Rung;
    var up := Rungs(1, n);
    assert up == Rungs(1, n - 1) + [Rung(n)];
  }

  lemma FlippedWalk(n: nat)
    requires 0 < n <= 200
    ensures WalkOf(FlippedFiles(n), Rung(0)).deepest > n
  {
    var files := FlippedFiles(n);
    var g := GraphOf(files);
    forall k | 1 <= k <= n ensures Rung(k) in g && g[Rung(k)] == Below(n, k) {
      FlippedRung(n, k);
    }
    FlippedRoot(n);
    hide GraphOf; hide Visit; hide Rung; hide FlippedFiles; hide Below;
    DeepWalk(g, n);
  }

  lemma FlippedRung(n: nat, k: nat)
    requires 1 <= k <= n <= 200
    ensures var g := GraphOf(FlippedFiles(n)); Rung(k) in g && g[Rung(k)] == Below(n, k)
  {
    hide Ladder; hide Rung; hide ResolveAll; hide Below;
    LadderAt(n, k);
    LadderFileImports(n, Rung(k));
    assert |Rung(k)| == k + 6 && |Rung(0)| == 6;
  }

  lemma FlippedRoot(n: nat)
    requires 0 < n <= 200
    ensures var g := GraphOf(FlippedFiles(n)); Rung(0) in g && g[Rung(0)] != [] && g[Rung(0)][0] == Rung(n)
  {
    hide Ladder; hide Rung; hide ResolveAll;
    var names := [Rung(n)] + Rungs(1, n - 1);
    forall i | 0 <= i < |names| ensures exists k: nat :: k <= 200 && names[i] == Rung(k) {
      if i > 0 { assert names[i] == Rung(1 + (i - 1)); }
    }
    hide Rungs;
    RungsResolve(0, names);
  }

  /**
   Beyond the documented limit acceptance depends on the order of imports: the ladder is accepted, the same files with
   the root's imports in another order are accepted only up to 32.
   */
  lemma ImportOrderMatters(n: nat)
    requires 0 < n < MAX_IMPORT_FILES
    ensures SameFiles(LadderFiles(n), FlippedFiles(n)) && ComposeSession(LadderFiles(n), Rung(0)).Ok?
    ensures ComposeSession(FlippedFiles(n), Rung(0)).Ok? <==> n < MAX_IMPORT_DEPTH
  {
    var files, root := LadderFiles(n), Rung(0);
    FlippedIsSame(n);
    LongChainAccepted(n);
    FlippedWalk(n);
    hide GraphOf; hide Ladder; hide Rung; hide LadderFiles; hide FlippedFiles; hide SameFiles; hide FilesOk; hide WalkOf; hide Acyclic;
    ComposesExactly(FlippedFiles(n), root);
    if n < MAX_IMPORT_DEPTH {
      ComposesExactly(files, root);
      LadderSize(n);
      ChainsWithinOrder(GraphOf(files), root);
      Loosen(GraphOf(files), root, n + 1, MAX_IMPORT_DEPTH);
      ImportOrderIrrelevant(files, FlippedFiles(n), root);
    }
  }

  lemma LadderSize(n: nat)
    requires 0 < n <= 200
    ensures WalkOf(LadderFiles(n), Rung(0)).order == Visit(GraphOf(LadderFiles(n)), [], Rung(0), START).order
    ensures |WalkOf(LadderFiles(n), Rung(0)).order| == n + 1
  {
    hide Ladder; hide Rung; hide GraphOf; hide Visit;
    LadderGraph(n);
    ShallowWalkLongChain(n);
  }

  lemma Loosen(g: Graph, root: string, a: nat, b: nat)
    requires ChainsWithin(g, root, a) && a <= b
    ensures ChainsWithin(g, root, b)
  {
  }
}
