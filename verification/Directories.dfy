/**
 Socket directories with shared leases (src/proxy_runtime/rama/ingress.rs:119-502).

 The file system is a map from (directory, name) to what is there; every file gets an identity that is never reused.
 Paths hold normal components only.
 */
module Directories {
  import opened Basics

  type Inode = nat
  const ROOT: Inode := 0

  datatype Node = Directory(inode: Inode) | Socket(inode: Inode) | Other

  type Entry = (Inode, string)
  type Tree = map<Entry, Node>

  datatype Record = Record(parent: Inode, name: string, created: bool, leases: nat)

  /**
   History, which no operation reads: `depth` is the level of each directory, `leaks` are the entries that a failed bind
   left behind, and `kept` is what nobody will remove: the tree as found, the leaks, and directories that could not be
   removed because of them.
   */
  datatype World = World(
    fs: Tree, depth: map<Inode, nat>, next: Inode, registry: map<Inode, Record>, kept: Tree, leaks: set<Entry>)

  /**
   System calls that can fail for one component: opening or making it, opening or examining it after it was made, or
   setting it up afterwards.
   */
  datatype Fault = NoFault | OpenFails | ReopenFails | SetupFails

  predicate IsEmpty(fs: Tree, directory: Inode) { forall e :: e in fs ==> e.0 != directory }

  /** `unlinkat(AT_REMOVEDIR)`, which refuses a directory that is not empty. */
  function RemoveDirectory(w: World, e: Entry, directory: Inode): World {
    if IsEmpty(w.fs, directory) then w.(fs := w.fs - {e}) else w
  }

  predicate Holds(fs: Tree, e: Entry, node: Node) { e in fs && fs[e] == node }

  /** Removes the directory if its name still leads to it. */
  function RemoveIfUnchanged(w: World, e: Entry, directory: Inode): World {
    if Holds(w.fs, e, Directory(directory)) then RemoveDirectory(w, e, directory) else w
  }

  function Register(w: World, parent: Inode, name: string, key: Inode, made: bool): World {
    var r := if key in w.registry then w.registry[key] else Record(parent, name, made, 0);
    w.(registry := w.registry[key := r.(created := r.created || made, leases := r.leases + 1)])
  }

  function Level(w: World, directory: Inode): nat { if directory in w.depth then w.depth[directory] else 0 }

  /** Makes an empty directory with a fresh identity. */
  function MakeDirectory(w: World, parent: Inode, name: string): World {
    w.(fs := w.fs[(parent, name) := Directory(w.next)], depth := w.depth[w.next := Level(w, parent) + 1], next := w.next + 1)
  }

  /** The entry stays in the tree although no guard and no record knows of it. */
  function Leak(w: World, e: Entry): World
    requires e in w.fs
  {
    w.(kept := w.kept[e := w.fs[e]], leaks := w.leaks + {e})
  }

  /** One component of the walk: open it or make it, then take a lease on it. */
  function Enter(w: World, parent: Inode, name: string, fault: Fault): (World, Option<Inode>) {
    var e := (parent, name);
    if fault == OpenFails then (w, None)
    else if e in w.fs then
      if w.fs[e].Directory? && fault != SetupFails
      then (Register(w, parent, name, w.fs[e].inode, false), Some(w.fs[e].inode)) else (w, None)
    else
      var made := MakeDirectory(w, parent, name);
      if fault == ReopenFails then (Leak(made, e), None)
      else if fault == SetupFails then (RemoveIfUnchanged(made, e, w.next), None)
      else (Register(made, parent, name, w.next, true), Some(w.next))
  }

  /** Gives back one lease; the last one of a directory that Baffle made removes it. */
  function Release(w: World, key: Inode): World {
    if key !in w.registry then w
    else
      var r := w.registry[key];
      if r.leases > 1 then w.(registry := w.registry[key := r.(leases := r.leases - 1)])
      else
        var e := (r.parent, r.name);
        var w' := if r.created then RemoveIfUnchanged(w, e, key) else w;
        w'.(registry := w.registry - {key},
        kept := if r.created && Holds(w'.fs, e, Directory(key)) then w.kept[e := Directory(key)] else w.kept)
  }

  lemma RemoveIgnoresRegistry(w: World, e: Entry, directory: Inode, registry: map<Inode, Record>)
    ensures RemoveIfUnchanged(w.(registry := registry), e, directory) == RemoveIfUnchanged(w, e, directory).(registry := registry)
    ensures RemoveIfUnchanged(w, e, directory).kept == w.kept && RemoveIfUnchanged(w, e, directory).registry == w.registry
  {
  }

  function Current(keys: seq<Inode>): Inode { if keys == [] then ROOT else keys[|keys| - 1] }

  /** The walk under the registry lock: enters the components until one fails. */
  function WalkDown(w: World, keys: seq<Inode>, path: seq<string>, faults: seq<Fault>): (World, seq<Inode>, bool)
    requires |faults| == |path|
    decreases |path|
  {
    if path == [] then (w, keys, true)
    else
      var (w', key) := Enter(w, Current(keys), path[0], faults[0]);
      if key.None? then (w', keys, false) else WalkDown(w', keys + [key.value], path[1..], faults[1..])
  }

  function ReleaseKeys(w: World, keys: seq<Inode>): World
    decreases |keys|
  {
    if keys == [] then w else ReleaseKeys(Release(w, keys[|keys| - 1]), keys[..|keys| - 1])
  }

  class DirectoryRegistry {
    var fs: Tree
    ghost var depth: map<Inode, nat>
    ghost var kept: Tree
    ghost var leaks: set<Entry>
    var next: Inode
    var directories: map<Inode, Record>

    ghost function View(): World
      reads this
    {
      World(fs, depth, next, directories, kept, leaks)
    }

    constructor (fs: Tree, ghost depth: map<Inode, nat>, next: Inode)
      ensures View() == World(fs, depth, next, map[], fs, {})
    {
      this.fs, this.depth, this.next, directories, kept, leaks := fs, depth, next, map[], fs, {};
    }

    method RegisterDirectory(parent: Inode, name: string, key: Inode, made: bool)
      modifies this
      ensures View() == Register(old(View()), parent, name, key, made)
    {
      if key !in directories { directories := directories[key := Record(parent, name, made, 0)]; }
      var r := directories[key];
      directories := directories[key := r.(created := r.created || made, leases := r.leases + 1)];
    }

    method RemoveCreatedIfUnchanged(parent: Inode, name: string, key: Inode)
      modifies this
      ensures View() == RemoveIfUnchanged(old(View()), (parent, name), key)
    {
      if Holds(fs, (parent, name), Directory(key)) && IsEmpty(fs, key) { fs := fs - {(parent, name)}; }
    }

    /**
     One component: open or make it, set it up and register it. What was made is removed if setting it up fails, but
     stays if it could not be opened or examined.
     */
    method EnterComponent(parent: Inode, name: string, fault: Fault) returns (key: Option<Inode>)
      modifies this
      ensures (View(), key) == Enter(old(View()), parent, name, fault)
    {
      hide Register; hide RemoveIfUnchanged;
      if fault == OpenFails { return None; }
      var made := (parent, name) !in fs;
      if made {
        depth := depth[next := Level(View(), parent) + 1];
        fs, next := fs[(parent, name) := Directory(next)], next + 1;
      }
      if made && fault == ReopenFails {
        kept, leaks := kept[(parent, name) := fs[(parent, name)]], leaks + {(parent, name)};
        return None;
      }
      if !fs[(parent, name)].Directory? { return None; }
      var inode := fs[(parent, name)].inode;
      if fault == SetupFails {
        if made { RemoveCreatedIfUnchanged(parent, name, inode); }
        return None;
      }
      RegisterDirectory(parent, name, inode, made);
      return Some(inode);
    }

    method OpenParent(path: seq<string>, faults: seq<Fault>) returns (keys: seq<Inode>, ok: bool)
      requires |faults| == |path|
      modifies this
      ensures (View(), keys, ok) == WalkDown(old(View()), [], path, faults)
    {
      hide Enter;
      var current := ROOT;
      keys := [];
      assert path[0..] == path && faults[0..] == faults;
      for k := 0 to |path|
        invariant current == Current(keys)
        invariant WalkDown(old(View()), [], path, faults) == WalkDown(View(), keys, path[k..], faults[k..])
      {
        assert path[k..][0] == path[k] && path[k..][1..] == path[k + 1..];
        assert faults[k..][0] == faults[k] && faults[k..][1..] == faults[k + 1..];
        var key := EnterComponent(current, path[k], faults[k]);
        if key.None? { return keys, false; }
        keys := keys + [key.value];
        current := key.value;
      }
      return keys, true;
    }

    method ReleaseLease(key: Inode)
      modifies this
      ensures View() == Release(old(View()), key)
    {
      hide RemoveIfUnchanged; hide IsEmpty;
      if key !in directories { return; }
      var r := directories[key];
      var left := if r.leases == 0 then 0 else r.leases - 1;
      ghost var before := directories;
      directories := directories[key := r.(leases := left)];
      if left != 0 { return; }
      assert directories - {key} == before - {key};
      if r.created {
        ghost var w := old(View());
        RemoveIgnoresRegistry(w, (r.parent, r.name), key, directories);
        RemoveCreatedIfUnchanged(r.parent, r.name, key);
        if Holds(fs, (r.parent, r.name), Directory(key)) { kept := kept[(r.parent, r.name) := Directory(key)]; }
      }
      directories := directories - {key};
    }

    /** Drop of the keys that a guard holds, deepest first. */
    method ReleaseSet(keys: seq<Inode>)
      modifies this
      ensures View() == ReleaseKeys(old(View()), keys)
    {
      hide Release;
      var left := keys;
      while left != []
        invariant ReleaseKeys(old(View()), keys) == ReleaseKeys(View(), left)
        decreases |left|
      {
        var key := left[|left| - 1];
        left := left[..|left| - 1];
        ReleaseLease(key);
      }
    }
  }

  // ----- guards -----

  datatype Phase = Opening(path: seq<string>) | Bound(at: Entry, inode: Inode) | Unlinked(at: Entry, inode: Inode) | Failed

  /** A socket guard: the leases it holds, outermost first, and how far it has come. */
  datatype Guard = Guard(name: string, keys: seq<Inode>, phase: Phase)

  datatype State = State(world: World, guards: seq<Guard>)

  /** A bind in progress, a live guard or one being dropped takes a step. `i` is its place in `guards`. */
  datatype Step =
    | Begin(path: seq<string>, name: string)
    | Descend(i: nat, fault: Fault)
    | Bind(i: nat, statFails: bool)
    | Abandon(i: nat)
    | Unlink(i: nat)
    | Pop(i: nat)
    | End(i: nat)

  predicate Enabled(s: State, step: Step) {
    step.Begin? ||
    (step.i < |s.guards| &&
     var g := s.guards[step.i];
     match step
     case Descend(_, _) => g.phase.Opening? && g.phase.path != []
     case Bind(_, _) => g.phase.Opening? && g.phase.path == []
     case Abandon(_) => g.phase.Opening?
     case Unlink(_) => g.phase.Bound? || g.phase.Unlinked?
     case Pop(_) => (g.phase.Unlinked? || g.phase.Failed?) && g.keys != []
     case End(_) => (g.phase.Unlinked? || g.phase.Failed?) && g.keys == [])
  }

  function DoDescend(s: State, i: nat, fault: Fault): State
    requires i < |s.guards| && s.guards[i].phase.Opening? && s.guards[i].phase.path != []
  {
    var g := s.guards[i];
    var (w, key) := Enter(s.world, Current(g.keys), g.phase.path[0], fault);
    State(w, s.guards[i := if key.None? then g.(phase := Failed)
                           else g.(keys := g.keys + [key.value], phase := Opening(g.phase.path[1..]))])
  }

  /** Binds the socket; if it cannot be examined afterwards there is no guard yet, and it stays. */
  function DoBind(s: State, i: nat, statFails: bool): State
    requires i < |s.guards|
  {
    var g, w := s.guards[i], s.world;
    var e := (Current(g.keys), g.name);
    var bound := w.(fs := w.fs[e := Socket(w.next)], next := w.next + 1);
    if e in w.fs then s.(guards := s.guards[i := g.(phase := Failed)])
    else if statFails then State(Leak(bound, e), s.guards[i := g.(phase := Failed)])
    else State(bound, s.guards[i := g.(phase := Bound(e, w.next))])
  }

  /** Unlinks the socket if its name still leads to it. */
  function DoUnlink(s: State, i: nat): State
    requires i < |s.guards| && (s.guards[i].phase.Bound? || s.guards[i].phase.Unlinked?)
  {
    var g, w := s.guards[i], s.world;
    var e, inode := g.phase.at, g.phase.inode;
    State(if Holds(w.fs, e, Socket(inode)) then w.(fs := w.fs - {e}) else w,
          s.guards[i := g.(phase := Unlinked(e, inode))])
  }

  function DoPop(s: State, i: nat): State
    requires i < |s.guards| && s.guards[i].keys != []
  {
    var g := s.guards[i];
    State(Release(s.world, Current(g.keys)), s.guards[i := g.(keys := g.keys[..|g.keys| - 1])])
  }

  function Next(s: State, step: Step): State
    requires Enabled(s, step)
  {
    match step
    case Begin(path, name) => s.(guards := s.guards + [Guard(name, [], Opening(path))])
    case Descend(i, fault) => DoDescend(s, i, fault)
    case Bind(i, statFails) => DoBind(s, i, statFails)
    case Abandon(i) => s.(guards := s.guards[i := s.guards[i].(phase := Failed)])
    case Unlink(i) => DoUnlink(s, i)
    case Pop(i) => DoPop(s, i)
    case End(i) => s.(guards := s.guards[..i] + s.guards[i + 1..])
  }
}
