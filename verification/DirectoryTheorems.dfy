/** Shared socket directories over whole runs. */
module DirectoryTheorems {
  import opened Basics
  import opened Sorting
  import opened Directories
  import opened DirectoryProofs

  lemma StepKeeps(s: State, step: Step)
    requires Inv(s.world.kept, s) && Enabled(s, step)
    ensures Inv(Next(s, step).world.kept, Next(s, step))
  {
    hide Inv; hide DoDescend; hide DoBind; hide DoUnlink; hide DoPop;
    var base := s.world.kept;
    match step
    case Begin(path, name) => BeginKeeps(base, s, path, name);
    case Descend(i, fault) => DescendKeeps(s, i, fault);
    case Bind(i, statFails) => BindStepKeeps(s, i, statFails);
    case Abandon(i) => FailKeeps(base, s, i);
    case Unlink(i) => UnlinkKeeps(base, s, i); UnlinkKept(s, i);
    case Pop(i) => PopKeeps(s, i);
    case End(i) => EndKeeps(base, s, i);
  }

  lemma UnlinkKept(s: State, i: nat)
    requires i < |s.guards| && HasSocket(s.guards[i])
    ensures DoUnlink(s, i).world.kept == s.world.kept
  {
  }

  lemma BindStepKeeps(s: State, i: nat, statFails: bool)
    requires Inv(s.world.kept, s) && i < |s.guards| && s.guards[i].phase.Opening?
    ensures Inv(DoBind(s, i, statFails).world.kept, DoBind(s, i, statFails))
  {
    hide Inv;
    var w := s.world;
    var e := (Current(s.guards[i].keys), s.guards[i].name);
    if e in w.fs || !statFails {
      BindKeeps(w.kept, s, i);
    } else {
      var w' := Leak(w.(fs := w.fs[e := Socket(w.next)], next := w.next + 1), e);
      InTree(w.kept, s, i);
      LeakKeeps(s, w', e);
      FailKeeps(w'.kept, s.(world := w'), i);
    }
  }

  /** A tree as the daemon finds it, before any bind. */
  ghost predicate IsTree(base: Tree, depth: map<Inode, nat>, first: Inode) {
    TreeOk(World(base, depth, first, map[], base, {})) && ROOT < first
  }

  function Start(base: Tree, depth: map<Inode, nat>, first: Inode): State {
    State(World(base, depth, first, map[], base, {}), [])
  }

  predicate CanRun(s: State, steps: seq<Step>)
    decreases |steps|
  {
    steps == [] || (Enabled(s, steps[0]) && CanRun(Next(s, steps[0]), steps[1..]))
  }

  /** Any interleaving of binds, failed binds and drops. */
  function Run(s: State, steps: seq<Step>): State
    requires CanRun(s, steps)
    decreases |steps|
  {
    if steps == [] then s else Run(Next(s, steps[0]), steps[1..])
  }

  /** What is to stay beside the tree as found: leaks, and directories that hold something of the kind. */
  ghost predicate StrayOk(base: Tree, w: World, e: Entry) {
    e in w.kept && e !in base ==> e in w.leaks || (w.kept[e].Directory? && HoldsStray(base, w, w.kept[e].inode))
  }

  ghost predicate HoldsStray(base: Tree, w: World, directory: Inode) {
    exists c :: c in w.kept && c !in base && c.0 == directory
  }

  ghost predicate StraysOk(base: Tree, first: Inode, w: World) {
    && first <= w.next
    && (forall e :: e in base ==> e.0 < first && Holds(w.kept, e, base[e]))
    && (forall e :: e in w.leaks ==> e in w.kept && e !in base)
    && (forall e :: StrayOk(base, w, e))
    && (forall k :: k in w.registry && w.registry[k].created ==> k >= first)
  }

  lemma StraysSame(base: Tree, first: Inode, w: World, w': World)
    requires StraysOk(base, first, w) && w'.kept == w.kept && w'.leaks == w.leaks && w.next <= w'.next
    requires forall k :: k in w'.registry && w'.registry[k].created ==> k >= first
    ensures StraysOk(base, first, w')
  {
    forall e ensures StrayOk(base, w', e) { assert StrayOk(base, w, e); }
  }

  /** One more entry that is to stay, with a reason. */
  lemma StraysMore(base: Tree, first: Inode, w: World, w': World, e: Entry)
    requires StraysOk(base, first, w) && e !in base && w.leaks <= w'.leaks <= w.leaks + {e} && w.next <= w'.next
    requires e in w'.kept && w'.kept == w.kept[e := w'.kept[e]]
    requires e !in w.kept || w.kept[e] == w'.kept[e]
    requires e in w'.leaks || (w'.kept[e].Directory? && HoldsStray(base, w, w'.kept[e].inode))
    requires forall k :: k in w'.registry && w'.registry[k].created ==> k >= first
    ensures StraysOk(base, first, w')
  {
    forall n | HoldsStray(base, w, n) ensures HoldsStray(base, w', n) {
      var c :| c in w.kept && c !in base && c.0 == n;
      assert c in w'.kept;
    }
    hide HoldsStray;
    forall x ensures StrayOk(base, w', x) { assert StrayOk(base, w, x); }
  }

  lemma DescendStrays(base: Tree, first: Inode, s: State, i: nat, fault: Fault)
    requires Inv(s.world.kept, s) && StraysOk(base, first, s.world)
    requires i < |s.guards| && s.guards[i].phase.Opening? && s.guards[i].phase.path != []
    ensures StraysOk(base, first, DoDescend(s, i, fault).world)
  {
    var w, e := s.world, (Current(s.guards[i].keys), s.guards[i].phase.path[0]);
    var w' := DoDescend(s, i, fault).world;
    assert BaseOk(w.kept, w);
    hide Inv; hide StraysOk;
    EnterStrays(first, w, e.0, e.1, fault);
    if e !in w.fs && fault == ReopenFails {
      LeakIsNew(base, first, w, e);
      StraysMore(base, first, w, w', e);
    } else {
      StraysSame(base, first, w, w');
    }
  }

  lemma LeakIsNew(base: Tree, first: Inode, w: World, e: Entry)
    requires StraysOk(base, first, w) && BaseOk(w.kept, w) && e !in w.fs
    ensures e !in base && e !in w.kept
  {
  }

  lemma EnterStrays(first: Inode, w: World, parent: Inode, name: string, fault: Fault)
    requires first <= w.next && forall k :: k in w.registry && w.registry[k].created ==> k >= first
    ensures var e, w' := (parent, name), Enter(w, parent, name, fault).0;
            && w.next <= w'.next && (forall k :: k in w'.registry && w'.registry[k].created ==> k >= first)
            && (if e !in w.fs && fault == ReopenFails
                then e in w'.kept && w'.kept == w.kept[e := w'.kept[e]] && w'.leaks == w.leaks + {e}
                else w'.kept == w.kept && w'.leaks == w.leaks)
  {
  }

  lemma PopStrays(base: Tree, first: Inode, s: State, i: nat)
    requires Inv(s.world.kept, s) && StraysOk(base, first, s.world)
    requires i < |s.guards| && s.guards[i].keys != [] && !s.guards[i].phase.Bound?
    ensures StraysOk(base, first, DoPop(s, i).world)
  {
    var w, k := s.world, Current(s.guards[i].keys);
    var w' := DoPop(s, i).world;
    assert GuardOk(w.kept, s, i) && RecordOk(w.kept, s, k);
    var r := w.registry[k];
    var e := (r.parent, r.name);
    if r.leases <= 1 && r.created && !IsEmpty(w.fs, k) {
      PoppedTotal(s.guards, i);
      UnleasedHoldsKept(w.kept, s, i);
      hide Inv;
      var c :| c in w.fs && c.0 == k;
      assert c in w.kept && c !in base;
      assert HoldsStray(base, w, k);
      StraysMore(base, first, w, w', e);
    } else {
      hide Inv;
      StraysSame(base, first, w, w');
    }
  }

  lemma StepStrays(base: Tree, first: Inode, s: State, step: Step)
    requires Inv(s.world.kept, s) && StraysOk(base, first, s.world) && Enabled(s, step)
    ensures StraysOk(base, first, Next(s, step).world)
  {
    var w := s.world;
    match step
    case Descend(i, fault) => hide Inv; hide StraysOk; hide DoDescend; DescendStrays(base, first, s, i, fault);
    case Pop(i) => hide Inv; hide StraysOk; hide DoPop; PopStrays(base, first, s, i);
    case Bind(i, statFails) =>
      assert BaseOk(w.kept, w);
      hide Inv;
      var e, w' := (Current(s.guards[i].keys), s.guards[i].name), Next(s, step).world;
      if e !in w.fs && statFails { LeakIsNew(base, first, w, e); StraysMore(base, first, w, w', e); }
      else { StraysSame(base, first, w, w'); }
    case _ => hide Inv; StraysSame(base, first, w, Next(s, step).world);
  }

  /** The invariants hold in every state of every run. */
  lemma {:induction false} RunKeeps(base: Tree, first: Inode, s: State, steps: seq<Step>)
    requires Inv(s.world.kept, s) && StraysOk(base, first, s.world) && CanRun(s, steps)
    ensures Inv(Run(s, steps).world.kept, Run(s, steps)) && StraysOk(base, first, Run(s, steps).world)
    decreases |steps|
  {
    hide Inv; hide Next; hide Enabled; hide StraysOk;
    if steps != [] {
      StepKeeps(s, steps[0]);
      StepStrays(base, first, s, steps[0]);
      RunKeeps(base, first, Next(s, steps[0]), steps[1..]);
    }
  }

  lemma StartOk(base: Tree, depth: map<Inode, nat>, first: Inode)
    requires IsTree(base, depth, first)
    ensures Inv(base, Start(base, depth, first)) && StraysOk(base, first, Start(base, depth, first).world)
  {
    var s := Start(base, depth, first);
    forall e | e in base ensures e.0 < first { assert EntryOk(s.world, e); }
  }

  // ----- leases -----

  /** The guards through a directory. */
  ghost function Through(guards: seq<Guard>, k: Inode): set<nat> {
    set j: nat | j < |guards| && k in guards[j].keys
  }

  ghost predicate KeysDistinct(guards: seq<Guard>) {
    forall j :: 0 <= j < |guards| ==> forall p, q :: 0 <= p < q < |guards[j].keys| ==> guards[j].keys[p] != guards[j].keys[q]
  }

  /** A guard meets each directory at its own level, so never twice. */
  lemma {:induction false} KeyLevel(s: State, j: nat, p: nat)
    requires Inv(s.world.kept, s) && j < |s.guards| && p < |s.guards[j].keys|
    ensures var k := s.guards[j].keys[p]; k in s.world.depth && s.world.depth[k] == p + 1
  {
    var keys, w := s.guards[j].keys, s.world;
    assert GuardOk(s.world.kept, s, j);
    var k := keys[p];
    assert RecordOk(s.world.kept, s, k);
    var e := (w.registry[k].parent, w.registry[k].name);
    assert EntryOk(w, e);
    hide Total; hide ExtraOk; hide SocketsDistinct;
    if p > 0 { KeyLevel(s, j, p - 1); }
  }

  lemma LevelsDistinguish(s: State)
    requires Inv(s.world.kept, s)
    ensures KeysDistinct(s.guards)
  {
    hide Inv;
    forall j | 0 <= j < |s.guards|
      ensures forall p, q :: 0 <= p < q < |s.guards[j].keys| ==> s.guards[j].keys[p] != s.guards[j].keys[q]
    {
      forall p, q | 0 <= p < q < |s.guards[j].keys| ensures s.guards[j].keys[p] != s.guards[j].keys[q] {
        KeyLevel(s, j, p);
        KeyLevel(s, j, q);
      }
    }
  }

  lemma {:induction false} OccursOnce(keys: seq<Inode>, k: Inode)
    requires forall p, q :: 0 <= p < q < |keys| ==> keys[p] != keys[q]
    ensures multiset(keys)[k] == if k in keys then 1 else 0
  {
    if keys != [] {
      assert keys == [keys[0]] + keys[1..];
      OccursOnce(keys[1..], k);
    }
  }

  lemma {:induction false} TotalCounts(guards: seq<Guard>, k: Inode)
    requires KeysDistinct(guards)
    ensures Total(guards)[k] == |Through(guards, k)|
  {
    if guards == [] {
      assert Through(guards, k) == {};
    } else {
      var n := |guards| - 1;
      var front := guards[..n];
      ThroughLast(guards, k);
      OccursOnce(guards[n].keys, k);
      assert KeysDistinct(front);
      hide KeysDistinct; hide Through;
      TotalCounts(front, k);
    }
  }

  lemma ThroughLast(guards: seq<Guard>, k: Inode)
    requires guards != []
    ensures var n := |guards| - 1;
            |Through(guards, k)| == |Through(guards[..n], k)| + if k in guards[n].keys then 1 else 0
  {
    var n := |guards| - 1;
    var front := Through(guards[..n], k);
    assert Through(guards, k) == front + (if k in guards[n].keys then {n} else {});
    assert n !in front;
  }

  /**
   In every reachable state the leases of a directory are the live guards through it, and a leased directory is in the
   tree under its name.
   */
  lemma LeasesAreGuards(base: Tree, depth: map<Inode, nat>, first: Inode, steps: seq<Step>, k: Inode)
    requires IsTree(base, depth, first) && CanRun(Start(base, depth, first), steps)
    ensures var s := Run(Start(base, depth, first), steps);
            var n := |Through(s.guards, k)|;
            && (k in s.world.registry <==> n > 0)
            && (k in s.world.registry ==>
                  var r := s.world.registry[k];
                  && r.leases == n && Holds(s.world.fs, (r.parent, r.name), Directory(k))
                  && (r.created <==> (r.parent, r.name) !in s.world.kept))
  {
    var s := Run(Start(base, depth, first), steps);
    StartOk(base, depth, first);
    RunKeeps(base, first, Start(base, depth, first), steps);
    LevelsDistinguish(s);
    TotalCounts(s.guards, k);
    hide Run; hide CanRun; hide Through; hide Total; hide GuardOk; hide ExtraOk; hide SocketsDistinct; hide KeysDistinct;
    assert RecordOk(s.world.kept, s, k);
  }

  /** Every directory on the way to the socket of a live guard stays in the tree, and so does what was there first. */
  lemma LeasedStays(base: Tree, depth: map<Inode, nat>, first: Inode, steps: seq<Step>, j: nat, p: nat)
    requires IsTree(base, depth, first) && CanRun(Start(base, depth, first), steps)
    requires var s := Run(Start(base, depth, first), steps); j < |s.guards| && p < |s.guards[j].keys|
    ensures var s := Run(Start(base, depth, first), steps);
            && (exists name :: Holds(s.world.fs, (Current(s.guards[j].keys[..p]), name), Directory(s.guards[j].keys[p])))
            && forall e :: e in base ==> Holds(s.world.fs, e, base[e])
  {
    var s := Run(Start(base, depth, first), steps);
    StartOk(base, depth, first);
    RunKeeps(base, first, Start(base, depth, first), steps);
    var k := s.guards[j].keys[p];
    hide Run; hide CanRun; hide Total; hide ExtraOk; hide SocketsDistinct;
    assert GuardOk(s.world.kept, s, j);
    assert RecordOk(s.world.kept, s, k);
    assert Holds(s.world.fs, (Current(s.guards[j].keys[..p]), s.world.registry[k].name), Directory(k));
  }

  // ----- the end -----

  /** `e` is `l` or a directory on the way to it. */
  ghost predicate Above(w: World, e: Entry, l: Entry)
    decreases Level(w, l.0)
  {
    e in w.fs && l in w.fs && (e == l || exists p :: IsParent(w, p, l) && Above(w, e, p))
  }

  ghost predicate IsParent(w: World, p: Entry, l: Entry) {
    Holds(w.fs, p, Directory(l.0)) && Level(w, p.0) < Level(w, l.0)
  }

  lemma {:induction false} AboveExtends(w: World, e: Entry, c: Entry, l: Entry)
    requires e in w.fs && IsParent(w, e, c) && Above(w, c, l)
    ensures Above(w, e, l)
    decreases Level(w, l.0)
  {
    if c != l {
      var p :| IsParent(w, p, l) && Above(w, c, p);
      AboveExtends(w, e, c, p);
    } else {
      assert Above(w, e, e);
    }
  }

  ghost function StraysBelow(base: Tree, w: World, level: nat): set<Entry> {
    set e | e in w.kept && e !in base && Level(w, e.0) > level
  }

  /** Whatever is to stay beside the tree as found leads down to a leak. */
  lemma {:induction false} StrayLeadsToLeak(base: Tree, first: Inode, s: State, e: Entry) returns (l: Entry)
    requires Inv(s.world.kept, s) && StraysOk(base, first, s.world) && e in s.world.kept && e !in base
    ensures l in s.world.leaks && Above(s.world, e, l)
    decreases |StraysBelow(base, s.world, Level(s.world, e.0))|
  {
    var w := s.world;
    assert BaseOk(w.kept, w) && TreeOk(w) && StrayOk(base, w, e);
    if e in w.leaks {
      l := e;
    } else {
      var c :| c in w.kept && c !in base && c.0 == w.kept[e].inode;
      assert EntryOk(w, e);
      assert IsParent(w, e, c) by { hide Inv; }
      assert StraysBelow(base, w, Level(w, c.0)) < StraysBelow(base, w, Level(w, e.0)) by {
        assert c in StraysBelow(base, w, Level(w, e.0)) && c !in StraysBelow(base, w, Level(w, c.0));
      }
      SmallerSet(StraysBelow(base, w, Level(w, c.0)), StraysBelow(base, w, Level(w, e.0)));
      hide TreeOk; hide StraysOk; hide StraysBelow;
      l := StrayLeadsToLeak(base, first, s, c);
      AboveExtends(w, e, c, l);
    }
  }

  /** The entries that the steps of a run leave behind: made, then neither registered nor guarded nor removed. */
  function LeaksOf(s: State, steps: seq<Step>): set<Entry>
    requires CanRun(s, steps)
    decreases |steps|
  {
    if steps == [] then {} else LeakOf(s, steps[0]) + LeaksOf(Next(s, steps[0]), steps[1..])
  }

  /** A made directory cannot be opened or examined, or a bound socket cannot be examined. */
  function LeakOf(s: State, step: Step): set<Entry>
    requires Enabled(s, step)
  {
    if step.Descend? && step.fault == ReopenFails then
      var e := (Current(s.guards[step.i].keys), s.guards[step.i].phase.path[0]);
      if e in s.world.fs then {} else {e}
    else if step.Bind? && step.statFails then
      var e := (Current(s.guards[step.i].keys), s.guards[step.i].name);
      if e in s.world.fs then {} else {e}
    else {}
  }

  lemma StepLeaks(s: State, step: Step)
    requires Enabled(s, step)
    ensures Next(s, step).world.leaks == s.world.leaks + LeakOf(s, step)
  {
  }

  lemma {:induction false} RunLeaks(s: State, steps: seq<Step>)
    requires CanRun(s, steps)
    ensures Run(s, steps).world.leaks == s.world.leaks + LeaksOf(s, steps)
    decreases |steps|
  {
    hide Next; hide Enabled; hide LeakOf;
    if steps != [] {
      StepLeaks(s, steps[0]);
      RunLeaks(Next(s, steps[0]), steps[1..]);
    }
  }

  /**
   When no guard is left, the registry is empty, and the tree is the one at the start plus exactly the entries that a
   failed bind left behind and the directories on the way to them; so it is the tree at the start if and only if no bind
   took one of the two exits that leave an entry.
   */
  lemma AllGone(base: Tree, depth: map<Inode, nat>, first: Inode, steps: seq<Step>)
    requires IsTree(base, depth, first) && CanRun(Start(base, depth, first), steps)
    requires Run(Start(base, depth, first), steps).guards == []
    ensures var s, leaks := Run(Start(base, depth, first), steps), LeaksOf(Start(base, depth, first), steps);
            && s.world.registry == map[]
            && (forall e :: e in base ==> Holds(s.world.fs, e, base[e]))
            && (forall e :: e !in base ==> (e in s.world.fs <==> exists l :: l in leaks && Above(s.world, e, l)))
            && (s.world.fs == base <==> leaks == {})
  {
    var s, leaks := Run(Start(base, depth, first), steps), LeaksOf(Start(base, depth, first), steps);
    StartOk(base, depth, first);
    RunKeeps(base, first, Start(base, depth, first), steps);
    RunLeaks(Start(base, depth, first), steps);
    hide Run; hide CanRun; hide LeaksOf;
    Unguarded(base, first, s);
  }

  lemma Unguarded(base: Tree, first: Inode, s: State)
    requires Inv(s.world.kept, s) && StraysOk(base, first, s.world) && s.guards == []
    ensures s.world.registry == map[]
    ensures forall e :: e in base ==> Holds(s.world.fs, e, base[e])
    ensures forall e :: e !in base ==> (e in s.world.fs <==> exists l :: l in s.world.leaks && Above(s.world, e, l))
    ensures s.world.fs == base <==> s.world.leaks == {}
  {
    var w := s.world;
    UnguardedParts(base, first, s);
    forall e | e in w.kept && e !in base ensures exists l :: l in w.leaks && Above(w, e, l) {
      hide Inv; hide StraysOk; hide Above;
      var l := StrayLeadsToLeak(base, first, s, e);
    }
    hide *;
    forall e, l | Above(w, e, l) ensures e in w.fs { AboveIsThere(w, e, l); }
    forall e | e in base ensures e in w.fs && w.fs[e] == base[e] { HoldsIt(w.fs, e, base[e]); }
    if w.leaks == {} { assert w.fs == base; }
  }

  lemma AboveIsThere(w: World, e: Entry, l: Entry)
    requires Above(w, e, l)
    ensures e in w.fs
  {
  }

  lemma HoldsIt(fs: Tree, e: Entry, node: Node)
    requires Holds(fs, e, node)
    ensures e in fs && fs[e] == node
  {
  }

  lemma UnguardedParts(base: Tree, first: Inode, s: State)
    requires Inv(s.world.kept, s) && StraysOk(base, first, s.world) && s.guards == []
    ensures s.world.registry == map[] && s.world.fs == s.world.kept
    ensures forall e :: e in base ==> Holds(s.world.fs, e, base[e])
    ensures forall l :: l in s.world.leaks ==> l in s.world.fs && l !in base
  {
    var w := s.world;
    assert BaseOk(w.kept, w);
    forall k ensures k !in w.registry { assert RecordOk(w.kept, s, k); }
    forall e | e in w.fs ensures e in w.kept { assert ExtraOk(w.kept, s, e); }
    hide Inv;
    assert w.fs == w.kept;
  }

  /** Each of the two exits leaves an entry that nobody removes. */
  lemma LeaksHappen()
    ensures IsTree(map[], map[ROOT := 0], 1)
    ensures var start, steps := Start(map[], map[ROOT := 0], 1), [Begin(["d"], "s"), Descend(0, ReopenFails), End(0)];
            CanRun(start, steps) && Run(start, steps).guards == [] && (ROOT, "d") in Run(start, steps).world.fs
    ensures var start, steps := Start(map[], map[ROOT := 0], 1), [Begin([], "s"), Bind(0, true), End(0)];
            CanRun(start, steps) && Run(start, steps).guards == [] && (ROOT, "s") in Run(start, steps).world.fs
  {
    var start := Start(map[], map[ROOT := 0], 1);
    ThreeSteps(start, Begin(["d"], "s"), Descend(0, ReopenFails), End(0));
    ThreeSteps(start, Begin([], "s"), Bind(0, true), End(0));
  }

  lemma ThreeSteps(s: State, a: Step, b: Step, c: Step)
    requires Enabled(s, a) && Enabled(Next(s, a), b) && Enabled(Next(Next(s, a), b), c)
    ensures CanRun(s, [a, b, c]) && Run(s, [a, b, c]) == Next(Next(Next(s, a), b), c)
  {
    hide Next; hide Enabled;
    FirstStep(Next(Next(s, a), b), c, []);
    FirstStep(Next(s, a), b, [c]);
    FirstStep(s, a, [b, c]);
  }

  lemma FirstStep(s: State, a: Step, rest: seq<Step>)
    requires Enabled(s, a) && CanRun(Next(s, a), rest)
    ensures CanRun(s, [a] + rest) && Run(s, [a] + rest) == Run(Next(s, a), rest)
  {
    assert ([a] + rest)[1..] == rest;
  }

  // ----- the registry's methods are runs -----

  /** Descends as far as the faults allow. */
  function DescendAll(s: State, i: nat, faults: seq<Fault>): State
    requires i < |s.guards|
    decreases |faults|
  {
    var phase := s.guards[i].phase;
    if faults == [] || !phase.Opening? || phase.path == [] then s
    else DescendAll(DoDescend(s, i, faults[0]), i, faults[1..])
  }

  /** `OpenParent` has the effect of the steps of its guard. */
  lemma {:induction false} WalkIsSteps(s: State, i: nat, faults: seq<Fault>)
    requires i < |s.guards| && s.guards[i].phase.Opening? && |faults| == |s.guards[i].phase.path|
    ensures var (w, keys, ok) := WalkDown(s.world, s.guards[i].keys, s.guards[i].phase.path, faults);
            var t := DescendAll(s, i, faults);
            && t.world == w && |t.guards| == |s.guards| && t.guards[i].keys == keys
            && t.guards[i].phase == (if ok then Opening([]) else Failed)
    decreases |faults|
  {
    hide Enter;
    if faults != [] {
      var t := DoDescend(s, i, faults[0]);
      if t.guards[i].phase.Opening? { WalkIsSteps(t, i, faults[1..]); }
    }
  }

  function PopAll(s: State, i: nat): State
    requires i < |s.guards|
    decreases if i < |s.guards| then |s.guards[i].keys| else 0
  {
    if s.guards[i].keys == [] then s else PopAll(DoPop(s, i), i)
  }

  /** `ReleaseSet` has the effect of the steps that drop a guard. */
  lemma {:induction false} ReleaseIsSteps(s: State, i: nat)
    requires i < |s.guards|
    ensures PopAll(s, i).world == ReleaseKeys(s.world, s.guards[i].keys)
    decreases |s.guards[i].keys|
  {
    hide Release;
    if s.guards[i].keys != [] { ReleaseIsSteps(DoPop(s, i), i); }
  }
}
