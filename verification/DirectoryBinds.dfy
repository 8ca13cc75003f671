/** When a bind succeeds, and where it arrives (src/proxy_runtime/rama/ingress.rs:119-192 and 386-502). */
module DirectoryBinds {
  import opened Basics
  import opened Directories
  import opened DirectoryProofs
  import opened DirectoryTheorems

  /** No component on the way is anything but a directory; what is missing can be made. */
  predicate Passable(fs: Tree, directory: Inode, path: seq<string>)
    decreases |path|
  {
    path == [] ||
    var e := (directory, path[0]);
    e !in fs || (fs[e].Directory? && Passable(fs, fs[e].inode, path[1..]))
  }

  /** The name is free in the directory that `path` leads to, which may still have to be made. */
  predicate IsFree(fs: Tree, directory: Inode, path: seq<string>, name: string)
    decreases |path|
  {
    if path == [] then (directory, name) !in fs
    else
      var e := (directory, path[0]);
      e !in fs || (fs[e].Directory? && IsFree(fs, fs[e].inode, path[1..], name))
  }

  /** The keys from position `from` on are the directories that `path` leads to, one by one. */
  ghost predicate Leads(fs: Tree, keys: seq<Inode>, from: nat, path: seq<string>)
  {
    |keys| == from + |path| &&
    forall k :: 0 <= k < |path| ==> Holds(fs, (Current(keys[..from + k]), path[k]), Directory(keys[from + k]))
  }

  /** Everything in the tree stays as it is. */
  ghost predicate Grows(fs: Tree, fs': Tree) { forall e :: e in fs ==> Holds(fs', e, fs[e]) }

  function NoFaults(n: nat): seq<Fault> { seq(n, _ => NoFault) }

  /** One component without a fault. */
  lemma EnterSucceeds(w: World, parent: Inode, name: string)
    requires TreeOk(w)
    ensures var (w', key) := Enter(w, parent, name, NoFault);
            var e := (parent, name);
            && (key.Some? <==> e !in w.fs || w.fs[e].Directory?)
            && Grows(w.fs, w'.fs)
            && (key.Some? ==> Holds(w'.fs, e, Directory(key.value)) && w'.fs == w.fs[e := Directory(key.value)])
            && (key.Some? && e !in w.fs ==> key.value == w.next)
            && (key.None? ==> w' == w)
  {
  }

  lemma PassesAfter(w: World, parent: Inode, name: string, path: seq<string>)
    requires TreeOk(w) && parent in w.depth && Enter(w, parent, name, NoFault).1.Some?
    ensures var (w', key) := Enter(w, parent, name, NoFault);
            && (Passable(w'.fs, key.value, path) <==> Passable(w.fs, parent, [name] + path))
            && forall n :: IsFree(w'.fs, key.value, path, n) <==> IsFree(w.fs, parent, [name] + path, n)
  {
    hide Enter; hide TreeOk;
    var (w', key) := Enter(w, parent, name, NoFault);
    var e := (parent, name);
    EnterSucceeds(w, parent, name);
    assert ([name] + path)[1..] == path;
    if e in w.fs {
      assert w.fs[e := Directory(key.value)] == w.fs;
    } else {
      FreshPasses(w, e, path);
    }
  }

  /** A fresh directory is empty, so that everything below it can be made. */
  lemma FreshPasses(w: World, e: Entry, path: seq<string>)
    requires TreeOk(w) && e !in w.fs && e.0 in w.depth
    ensures Passable(w.fs[e := Directory(w.next)], w.next, path)
    ensures var fs := w.fs[e := Directory(w.next)]; forall n :: IsFree(fs, w.next, path, n)
  {
    forall x | x in w.fs ensures x.0 != w.next { assert EntryOk(w, x); }
  }

  lemma GrowsOn(a: Tree, b: Tree, c: Tree)
    requires Grows(a, b) && Grows(b, c)
    ensures Grows(a, c)
  {
  }

  /** The first component leads on to the others. */
  lemma LeadsOn(fs: Tree, fs': Tree, keys: seq<Inode>, from: nat, path: seq<string>)
    requires path != [] && Leads(fs', keys, from + 1, path[1..]) && Grows(fs, fs')
    requires Holds(fs, (Current(keys[..from]), path[0]), Directory(keys[from]))
    ensures Leads(fs', keys, from, path)
  {
    forall k | 0 <= k < |path| ensures Holds(fs', (Current(keys[..from + k]), path[k]), Directory(keys[from + k])) {
      if k > 0 {
        assert Holds(fs', (Current(keys[..from + 1 + (k - 1)]), path[1..][k - 1]), Directory(keys[from + 1 + (k - 1)]));
      }
    }
  }

  /** What a walk without faults leaves of its own guard, the others and the tree. */
  ghost predicate Arrives(s: State, t: State, i: nat, path: seq<string>)
    requires i < |s.guards|
  {
    && |t.guards| == |s.guards| && (forall j :: 0 <= j < |s.guards| && j != i ==> t.guards[j] == s.guards[j])
    && Grows(s.world.fs, t.world.fs) && t.guards[i].name == s.guards[i].name
    && var keys, g := s.guards[i].keys, t.guards[i];
       if Passable(s.world.fs, Current(keys), path)
       then
         && g.phase == Opening([]) && keys <= g.keys && Leads(t.world.fs, g.keys, |keys|, path)
         && forall n :: IsFree(t.world.fs, Current(g.keys), [], n) <==> IsFree(s.world.fs, Current(keys), path, n)
       else g.phase == Failed
  }

  lemma {:induction false} WalkArrives(s: State, i: nat)
    requires Inv(s.world.kept, s) && i < |s.guards| && s.guards[i].phase.Opening?
    ensures var path := s.guards[i].phase.path;
            var t := DescendAll(s, i, NoFaults(|path|));
            Inv(t.world.kept, t) && Arrives(s, t, i, path)
    decreases |s.guards[i].phase.path|
  {
    hide Inv;
    var g := s.guards[i];
    var path := g.phase.path;
    if path == [] {
      assert DescendAll(s, i, NoFaults(0)) == s;
    } else {
      hide Enter; hide Arrives; hide Passable; hide IsFree;
      var n := |path|;
      assert NoFaults(n)[0] == NoFault && NoFaults(n)[1..] == NoFaults(n - 1);
      var u := DoDescend(s, i, NoFault);
      DescendKeeps(s, i, NoFault);
      if u.guards[i].phase.Opening? { WalkArrives(u, i); }
      FirstStep(s, i);
    }
  }

  lemma FirstStep(s: State, i: nat)
    requires Inv(s.world.kept, s) && i < |s.guards| && s.guards[i].phase.Opening? && s.guards[i].phase.path != []
    ensures var u, path := DoDescend(s, i, NoFault), s.guards[i].phase.path;
            && |u.guards| == |s.guards| && u.guards[i].phase == (if u.guards[i].phase.Opening? then Opening(path[1..]) else Failed)
            && (!u.guards[i].phase.Opening? ==> Arrives(s, u, i, path))
            && (u.guards[i].phase.Opening? ==> forall t :: Arrives(u, t, i, path[1..]) ==> Arrives(s, t, i, path))
  {
    var u, g, w := DoDescend(s, i, NoFault), s.guards[i], s.world;
    var path, parent := g.phase.path, Current(g.keys);
    InTree(w.kept, s, i);
    assert TreeOk(w);
    hide Inv; hide TreeOk;
    EnterSucceeds(w, parent, path[0]);
    var key := Enter(w, parent, path[0], NoFault).1;
    if key.Some? {
      PassesAfter(w, parent, path[0], path[1..]);
      assert [path[0]] + path[1..] == path;
      hide Enter; hide Passable; hide IsFree;
      assert u.guards[i].keys == g.keys + [key.value] && Current(u.guards[i].keys) == key.value;
      forall t | Arrives(u, t, i, path[1..]) ensures Arrives(s, t, i, path) {
        GrowsOn(w.fs, u.world.fs, t.world.fs);
        if Passable(w.fs, parent, path) {
          var keys := t.guards[i].keys;
          assert keys[..|g.keys| + 1] == g.keys + [key.value];
          assert keys[..|g.keys|] == g.keys && keys[|g.keys|] == key.value;
          LeadsOn(u.world.fs, t.world.fs, keys, |g.keys|, path);
        }
      }
    }
  }

  /** The state of a bind without interference or faults: begun, walked down, bound. */
  function BindAlone(s: State, path: seq<string>, name: string): State {
    var i := |s.guards|;
    var t := DescendAll(Next(s, Begin(path, name)), i, NoFaults(|path|));
    if i < |t.guards| && t.guards[i].phase == Opening([]) then DoBind(t, i, false) else t
  }

  lemma BindStep(w: State, i: nat)
    requires i < |w.guards|
    ensures var t, e := DoBind(w, i, false), (Current(w.guards[i].keys), w.guards[i].name);
            && |t.guards| == |w.guards| && (forall j :: 0 <= j < |w.guards| && j != i ==> t.guards[j] == w.guards[j])
            && Grows(w.world.fs, t.world.fs) && t.guards[i].keys == w.guards[i].keys
            && if e in w.world.fs then t.guards[i].phase == Failed
               else t.guards[i].phase.Bound? && t.guards[i].phase.at == e && Holds(t.world.fs, e, Socket(t.guards[i].phase.inode))
  {
  }

  lemma BindsFrom(s: State, path: seq<string>, name: string)
    requires Inv(s.world.kept, s)
    ensures var t, i := BindAlone(s, path, name), |s.guards|;
            && |t.guards| == i + 1 && t.guards[..i] == s.guards && Grows(s.world.fs, t.world.fs)
            && var g := t.guards[i];
               && (g.phase.Bound? <==> Passable(s.world.fs, ROOT, path) && IsFree(s.world.fs, ROOT, path, name))
               && (g.phase.Bound? ==>
                     && Leads(t.world.fs, g.keys, 0, path) && g.phase.at == (Current(g.keys), name)
                     && Holds(t.world.fs, g.phase.at, Socket(g.phase.inode)))
               && (!g.phase.Bound? ==> g.phase == Failed)
  {
    var i, u := |s.guards|, Next(s, Begin(path, name));
    BeginKeeps(s.world.kept, s, path, name);
    hide Inv; hide DescendAll; hide Passable; hide Leads; hide DoBind;
    WalkArrives(u, i);
    var w, t := DescendAll(u, i, NoFaults(|path|)), BindAlone(s, path, name);
    BindStep(w, i);
    assert forall j :: 0 <= j < i ==> t.guards[j] == w.guards[j] == s.guards[j];
    assert t.guards[..i] == s.guards;
    if w.guards[i].phase == Opening([]) {
      GrowsOn(s.world.fs, w.world.fs, t.world.fs);
      LeadsStill(w.world.fs, t.world.fs, w.guards[i].keys, path);
    }
  }

  lemma LeadsStill(fs: Tree, fs': Tree, keys: seq<Inode>, path: seq<string>)
    requires Leads(fs, keys, 0, path) && Grows(fs, fs')
    ensures Leads(fs', keys, 0, path)
  {
    forall k | 0 <= k < |path| ensures Holds(fs', (Current(keys[..0 + k]), path[k]), Directory(keys[0 + k])) {
      assert Holds(fs, (Current(keys[..0 + k]), path[k]), Directory(keys[0 + k]));
    }
  }

  /**
   From every reachable state a bind without faults succeeds exactly if no component on its path is anything but a
   directory and the name is free in the last one. It then holds the directories that the path leads to, those that
   were there with their own identities, and its socket is in the last of them. Nothing that was in the tree changes.
   */
  lemma BindsExactly(base: Tree, depth: map<Inode, nat>, first: Inode, steps: seq<Step>, path: seq<string>, name: string)
    requires IsTree(base, depth, first) && CanRun(Start(base, depth, first), steps)
    ensures var s := Run(Start(base, depth, first), steps);
            var t, i := BindAlone(s, path, name), |s.guards|;
            && |t.guards| == i + 1 && t.guards[..i] == s.guards && Grows(s.world.fs, t.world.fs)
            && var g := t.guards[i];
               && (g.phase.Bound? <==> Passable(s.world.fs, ROOT, path) && IsFree(s.world.fs, ROOT, path, name))
               && (g.phase.Bound? ==>
                     && Leads(t.world.fs, g.keys, 0, path) && g.phase.at == (Current(g.keys), name)
                     && Holds(t.world.fs, g.phase.at, Socket(g.phase.inode)))
               && (!g.phase.Bound? ==> g.phase == Failed)
  {
    var s := Run(Start(base, depth, first), steps);
    StartOk(base, depth, first);
    RunKeeps(base, first, Start(base, depth, first), steps);
    hide Run; hide CanRun; hide IsTree;
    BindsFrom(s, path, name);
  }
}
