/** Leases, directories and the final state of the tree, over every interleaving of binds and drops. */
module DirectoryProofs {
  import opened Basics
  import opened Sorting
  import opened Directories

  // ----- the leases that guards hold -----

  ghost function Total(guards: seq<Guard>): multiset<Inode> {
    if guards == [] then multiset{} else Total(guards[..|guards| - 1]) + multiset(guards[|guards| - 1].keys)
  }

  lemma {:induction false} TotalSplit(guards: seq<Guard>, i: nat)
    requires i < |guards|
    ensures Total(guards) == Total(Without(guards, i)) + multiset(guards[i].keys)
  {
    var n := |guards| - 1;
    var front := guards[..n];
    if i == n {
      assert Without(guards, i) == front;
    } else {
      TotalSplit(front, i);
      var rest := Without(guards, i);
      assert rest[..|rest| - 1] == Without(front, i) && rest[|rest| - 1] == guards[n];
    }
  }

  lemma TotalUpdate(guards: seq<Guard>, i: nat, g: Guard)
    requires i < |guards|
    ensures Total(guards[i := g]) + multiset(guards[i].keys) == Total(guards) + multiset(g.keys)
    ensures g.keys == guards[i].keys ==> Total(guards[i := g]) == Total(guards)
  {
    TotalSplit(guards, i);
    TotalSplit(guards[i := g], i);
    assert Without(guards[i := g], i) == Without(guards, i);
  }

  lemma TotalHas(guards: seq<Guard>, i: nat, k: Inode)
    requires i < |guards| && k in guards[i].keys
    ensures Total(guards)[k] > 0
  {
    TotalSplit(guards, i);
    assert k in multiset(guards[i].keys);
  }

  lemma {:induction false} TotalFrom(guards: seq<Guard>, k: Inode) returns (i: nat)
    requires Total(guards)[k] > 0
    ensures i < |guards| && k in guards[i].keys
  {
    var n := |guards| - 1;
    if k in guards[n].keys { i := n; }
    else {
      assert k !in multiset(guards[n].keys);
      i := TotalFrom(guards[..n], k);
    }
  }

  // ----- invariant -----

  /** Directories form a tree: each has one name, in a directory one level up. Identities are below `next`. */
  ghost predicate TreeOk(w: World) {
    && ROOT in w.depth && w.depth[ROOT] == 0
    && (forall i :: i in w.depth ==> i < w.next)
    && (forall e :: e in w.fs ==> EntryOk(w, e))
    && (forall e, e' :: e in w.fs && e' in w.fs && w.fs[e] == w.fs[e'] && !w.fs[e].Other? ==> e == e')
  }

  ghost predicate EntryOk(w: World, e: Entry)
    requires e in w.fs
  {
    && e.0 in w.depth
    && (w.fs[e].Directory? ==> w.fs[e].inode in w.depth && w.depth[w.fs[e].inode] == w.depth[e.0] + 1)
    && (w.fs[e].Socket? ==> w.fs[e].inode < w.next)
  }

  /** What is to stay is still there. */
  ghost predicate BaseOk(base: Tree, w: World) { forall e :: e in base ==> Holds(w.fs, e, base[e]) }

  /** A record counts the leases of the guards; its directory exists, and is Baffle's exactly if it is not to stay. */
  ghost predicate RecordOk(base: Tree, s: State, k: Inode) {
    && (Total(s.guards)[k] > 0 <==> k in s.world.registry)
    && (k in s.world.registry ==>
          var r := s.world.registry[k];
          && r.leases == Total(s.guards)[k] && Holds(s.world.fs, (r.parent, r.name), Directory(k))
          && (r.created <==> (r.parent, r.name) !in base))
  }

  /** The keys of a guard lead from the root to the directory of its socket. */
  ghost predicate ChainOk(w: World, keys: seq<Inode>) {
    forall j :: 0 <= j < |keys| ==> keys[j] in w.registry && w.registry[keys[j]].parent == Current(keys[..j])
  }

  ghost predicate PhaseOk(base: Tree, w: World, g: Guard) {
    match g.phase
    case Bound(at, inode) => at.0 == Current(g.keys) && at !in base && Holds(w.fs, at, Socket(inode)) && inode < w.next
    case Unlinked(at, inode) => inode < w.next && forall e :: e in w.fs ==> w.fs[e] != Socket(inode)
    case _ => true
  }

  ghost predicate GuardOk(base: Tree, s: State, j: nat) {
    j < |s.guards| ==> ChainOk(s.world, s.guards[j].keys) && PhaseOk(base, s.world, s.guards[j])
  }

  ghost predicate SocketsDistinct(guards: seq<Guard>) {
    forall p, q :: 0 <= p < q < |guards| && HasSocket(guards[p]) && HasSocket(guards[q]) ==>
                     guards[p].phase.inode != guards[q].phase.inode
  }

  predicate HasSocket(g: Guard) { g.phase.Bound? || g.phase.Unlinked? }

  /** Whatever is new in the tree is a leased directory or the socket of a live guard. */
  ghost predicate ExtraOk(base: Tree, s: State, e: Entry) {
    e in s.world.fs && e !in base ==>
      || (s.world.fs[e].Directory? && s.world.fs[e].inode in s.world.registry)
      || (s.world.fs[e].Socket? && SocketOf(s.guards, e, s.world.fs[e].inode))
  }

  ghost predicate SocketOf(guards: seq<Guard>, e: Entry, inode: Inode) {
    exists j :: 0 <= j < |guards| && guards[j].phase == Bound(e, inode)
  }

  ghost predicate Inv(base: Tree, s: State) {
    && TreeOk(s.world) && BaseOk(base, s.world)
    && (forall k: nat :: RecordOk(base, s, k))
    && (forall j: nat :: GuardOk(base, s, j))
    && SocketsDistinct(s.guards)
    && (forall e :: ExtraOk(base, s, e))
  }

  // ----- steps that leave the world alone -----

  /** A change of the guards that keeps every lease and every socket. */
  lemma Reguard(base: Tree, s: State, s': State)
    requires Inv(base, s) && s'.world == s.world && Total(s'.guards) == Total(s.guards)
    requires (forall j: nat :: GuardOk(base, s', j)) && SocketsDistinct(s'.guards)
    requires forall e, inode :: SocketOf(s.guards, e, inode) ==> SocketOf(s'.guards, e, inode)
    ensures Inv(base, s')
  {
    hide Total; hide TreeOk; hide BaseOk; hide GuardOk; hide SocketsDistinct; hide SocketOf;
    forall k: nat ensures RecordOk(base, s', k) { assert RecordOk(base, s, k); }
    forall e ensures ExtraOk(base, s', e) { assert ExtraOk(base, s, e); }
  }

  lemma BeginKeeps(base: Tree, s: State, path: seq<string>, name: string)
    requires Inv(base, s)
    ensures Inv(base, s.(guards := s.guards + [Guard(name, [], Opening(path))]))
  {
    var s' := s.(guards := s.guards + [Guard(name, [], Opening(path))]);
    assert s'.guards[..|s.guards|] == s.guards;
    assert Total(s'.guards) == Total(s.guards);
    hide Total; hide TreeOk; hide BaseOk; hide RecordOk; hide ExtraOk;
    forall j: nat ensures GuardOk(base, s', j) { assert GuardOk(base, s, j); }
    forall e, inode | SocketOf(s.guards, e, inode) ensures SocketOf(s'.guards, e, inode) {
      var j :| 0 <= j < |s.guards| && s.guards[j].phase == Bound(e, inode);
      assert s'.guards[j] == s.guards[j];
    }
    Reguard(base, s, s');
  }

  lemma SocketsAfter(guards: seq<Guard>, i: nat, g: Guard)
    requires SocketsDistinct(guards) && i < |guards|
    requires HasSocket(g) ==> HasSocket(guards[i]) && g.phase.inode == guards[i].phase.inode
    ensures SocketsDistinct(guards[i := g])
  {
  }

  /** Replacing a guard that has no socket in place keeps the sockets of all guards. */
  lemma SocketsStay(guards: seq<Guard>, i: nat, g: Guard)
    requires i < |guards| && !guards[i].phase.Bound?
    ensures forall e, inode :: SocketOf(guards, e, inode) ==> SocketOf(guards[i := g], e, inode)
  {
    forall e, inode | SocketOf(guards, e, inode) ensures SocketOf(guards[i := g], e, inode) {
      var j :| 0 <= j < |guards| && guards[j].phase == Bound(e, inode);
      assert guards[i := g][j] == guards[j];
    }
  }

  lemma FailKeeps(base: Tree, s: State, i: nat)
    requires Inv(base, s) && i < |s.guards| && s.guards[i].phase.Opening?
    ensures Inv(base, s.(guards := s.guards[i := s.guards[i].(phase := Failed)]))
  {
    var s' := s.(guards := s.guards[i := s.guards[i].(phase := Failed)]);
    TotalUpdate(s.guards, i, s'.guards[i]);
    SocketsAfter(s.guards, i, s'.guards[i]);
    SocketsStay(s.guards, i, s'.guards[i]);
    hide Total; hide TreeOk; hide BaseOk; hide RecordOk; hide ExtraOk; hide ChainOk; hide SocketsDistinct; hide SocketOf;
    forall j: nat ensures GuardOk(base, s', j) { assert GuardOk(base, s, j); }
    Reguard(base, s, s');
  }

  lemma SocketsWithout(guards: seq<Guard>, i: nat)
    requires SocketsDistinct(guards) && i < |guards| && !guards[i].phase.Bound?
    ensures SocketsDistinct(Without(guards, i))
    ensures forall e, inode :: SocketOf(guards, e, inode) ==> SocketOf(Without(guards, i), e, inode)
  {
    var rest := Without(guards, i);
    forall e, inode | SocketOf(guards, e, inode) ensures SocketOf(rest, e, inode) {
      var j :| 0 <= j < |guards| && guards[j].phase == Bound(e, inode);
      assert rest[if j < i then j else j - 1] == guards[j];
    }
  }

  lemma EndKeeps(base: Tree, s: State, i: nat)
    requires Inv(base, s) && i < |s.guards| && s.guards[i].keys == [] && !s.guards[i].phase.Bound?
    ensures Inv(base, s.(guards := Without(s.guards, i)))
  {
    var s' := s.(guards := Without(s.guards, i));
    TotalSplit(s.guards, i);
    assert forall j :: 0 <= j < |s'.guards| ==> s'.guards[j] == s.guards[if j < i then j else j + 1];
    SocketsWithout(s.guards, i);
    hide Total; hide TreeOk; hide BaseOk; hide RecordOk; hide ExtraOk; hide ChainOk; hide PhaseOk; hide Without;
    hide SocketsDistinct; hide SocketOf;
    forall j: nat ensures GuardOk(base, s', j) { assert GuardOk(base, s, if j < i then j else j + 1); }
    Reguard(base, s, s');
  }

  // ----- sockets -----

  /** Changing one socket entry keeps the directories and the leases. */
  lemma SocketEntry(base: Tree, s: State, s': State, e: Entry)
    requires Inv(base, s) && Total(s'.guards) == Total(s.guards) && e !in base
    requires s'.world == s.world.(fs := s'.world.fs, next := s'.world.next) && s.world.next <= s'.world.next
    requires e in s.world.fs ==> s.world.fs[e].Socket?
    requires forall x :: x != e ==> (x in s'.world.fs <==> x in s.world.fs) && (x in s.world.fs ==> s'.world.fs[x] == s.world.fs[x])
    requires e in s'.world.fs ==> s'.world.fs[e].Socket?
    ensures BaseOk(base, s'.world) && forall k: nat :: RecordOk(base, s', k)
  {
    hide Total; hide TreeOk; hide GuardOk; hide ExtraOk;
    forall k: nat ensures RecordOk(base, s', k) { assert RecordOk(base, s, k); }
  }

  /** A fresh directory or socket is made and left. */
  ghost predicate Leaked(w: World, w': World, e: Entry) {
    || (w' == Leak(MakeDirectory(w, e.0, e.1), e))
    || (w' == Leak(w.(fs := w.fs[e := Socket(w.next)], next := w.next + 1), e))
  }

  lemma LeakTree(w: World, w': World, e: Entry)
    requires TreeOk(w) && e !in w.fs && e.0 in w.depth && Leaked(w, w', e)
    ensures TreeOk(w') && w'.registry == w.registry && w.next <= w'.next
    ensures e in w'.fs && w'.kept == w.kept[e := w'.fs[e]] && !w'.fs[e].Other? && w'.fs[e].inode == w.next
    ensures w'.fs == w.fs[e := w'.fs[e]]
  {
    forall x | x in w'.fs ensures EntryOk(w', x) { if x in w.fs { assert EntryOk(w, x); } }
    forall x, y | x in w'.fs && y in w'.fs && w'.fs[x] == w'.fs[y] && !w'.fs[x].Other? ensures x == y {
      if x in w.fs { assert EntryOk(w, x); }
      if y in w.fs { assert EntryOk(w, y); }
    }
  }

  /** A fresh entry that a failed bind leaves behind is to stay. */
  lemma LeakKeeps(s: State, w': World, e: Entry)
    requires Inv(s.world.kept, s) && e !in s.world.fs && e.0 in s.world.depth
    requires Leaked(s.world, w', e)
    ensures Inv(w'.kept, s.(world := w'))
  {
    var s', base, w := s.(world := w'), s.world.kept, s.world;
    LeakTree(w, w', e);
    LeakRecords(s, w', e);
    LeakGuards(s, w', e);
    hide Total; hide TreeOk; hide SocketsDistinct; hide SocketOf; hide Leaked; hide RecordOk; hide GuardOk;
    forall x ensures ExtraOk(w'.kept, s', x) { assert ExtraOk(base, s, x); }
  }

  lemma LeakRecords(s: State, w': World, e: Entry)
    requires Inv(s.world.kept, s) && e !in s.world.fs && Leaked(s.world, w', e)
    ensures forall n: nat :: RecordOk(w'.kept, s.(world := w'), n)
  {
    hide Total; hide TreeOk; hide SocketsDistinct; hide GuardOk; hide ExtraOk;
    forall n: nat ensures RecordOk(w'.kept, s.(world := w'), n) { assert RecordOk(s.world.kept, s, n); }
  }

  lemma LeakGuards(s: State, w': World, e: Entry)
    requires Inv(s.world.kept, s) && e !in s.world.fs && Leaked(s.world, w', e)
    ensures forall j: nat :: GuardOk(w'.kept, s.(world := w'), j)
  {
    hide Total; hide TreeOk; hide SocketsDistinct; hide RecordOk; hide ExtraOk;
    forall j: nat ensures GuardOk(w'.kept, s.(world := w'), j) { assert GuardOk(s.world.kept, s, j); }
  }

  lemma BindKeeps(base: Tree, s: State, i: nat)
    requires Inv(base, s) && i < |s.guards| && s.guards[i].phase.Opening?
    ensures Inv(base, DoBind(s, i, false))
  {
    var g, w := s.guards[i], s.world;
    var e := (Current(g.keys), g.name);
    if e in w.fs {
      FailKeeps(base, s, i);
    } else {
      var s' := DoBind(s, i, false);
      TotalUpdate(s.guards, i, s'.guards[i]);
      BoundTree(base, s, i);
      assert e !in base;
      SocketEntry(base, s, s', e);
      BoundGuards(base, s, i);
    }
  }

  lemma InTree(base: Tree, s: State, i: nat)
    requires Inv(base, s) && i < |s.guards|
    ensures Current(s.guards[i].keys) in s.world.depth
  {
    var keys := s.guards[i].keys;
    assert GuardOk(base, s, i);
    if keys != [] { assert RecordOk(base, s, Current(keys)); }
  }

  lemma BoundTree(base: Tree, s: State, i: nat)
    requires Inv(base, s) && i < |s.guards|
    requires (Current(s.guards[i].keys), s.guards[i].name) !in s.world.fs
    ensures TreeOk(DoBind(s, i, false).world) && (Current(s.guards[i].keys), s.guards[i].name) !in base
  {
    InTree(base, s, i);
    hide RecordOk; hide GuardOk; hide ExtraOk; hide SocketsDistinct;
    var w, w' := s.world, DoBind(s, i, false).world;
    forall e | e in w'.fs ensures EntryOk(w', e) { if e in w.fs { assert EntryOk(w, e); } }
    forall x, y | x in w'.fs && y in w'.fs && w'.fs[x] == w'.fs[y] && !w'.fs[x].Other? ensures x == y {
      if x in w.fs { assert EntryOk(w, x); }
      if y in w.fs { assert EntryOk(w, y); }
    }
  }

  lemma BoundGuards(base: Tree, s: State, i: nat)
    requires Inv(base, s) && i < |s.guards| && s.guards[i].phase.Opening?
    requires (Current(s.guards[i].keys), s.guards[i].name) !in s.world.fs
    requires (Current(s.guards[i].keys), s.guards[i].name) !in base
    ensures var s' := DoBind(s, i, false);
            (forall j: nat :: GuardOk(base, s', j)) && SocketsDistinct(s'.guards) && forall e :: ExtraOk(base, s', e)
  {
    var s', w := DoBind(s, i, false), s.world;
    hide TreeOk; hide BaseOk; hide RecordOk;
    forall j: nat ensures GuardOk(base, s', j) {
      assert GuardOk(base, s, j);
      assert j < |s.guards| ==> ChainOk(s'.world, s.guards[j].keys) by { hide PhaseOk; }
    }
    forall p, q | 0 <= p < q < |s'.guards| && HasSocket(s'.guards[p]) && HasSocket(s'.guards[q])
      ensures s'.guards[p].phase.inode != s'.guards[q].phase.inode
    {
      assert GuardOk(base, s, p) && GuardOk(base, s, q);
    }
    forall e ensures ExtraOk(base, s', e) {
      assert ExtraOk(base, s, e);
      if e == s'.guards[i].phase.at { assert SocketOf(s'.guards, e, w.next); }
      else if e in w.fs && w.fs[e].Socket? && SocketOf(s.guards, e, w.fs[e].inode) {
        var j :| 0 <= j < |s.guards| && s.guards[j].phase == Bound(e, w.fs[e].inode);
        assert s'.guards[j] == s.guards[j];
      }
    }
  }

  lemma UnlinkKeeps(base: Tree, s: State, i: nat)
    requires Inv(base, s) && i < |s.guards| && HasSocket(s.guards[i])
    ensures Inv(base, DoUnlink(s, i))
  {
    var s', g := DoUnlink(s, i), s.guards[i];
    var e, inode := g.phase.at, g.phase.inode;
    TotalUpdate(s.guards, i, s'.guards[i]);
    SocketsAfter(s.guards, i, s'.guards[i]);
    assert GuardOk(base, s, i);
    if g.phase.Bound? {
      UnlinkedTree(base, s, i);
      SocketEntry(base, s, s', e);
      UnlinkedGuards(base, s, i);
    } else {
      assert s'.guards == s.guards;
    }
  }

  lemma UnlinkedTree(base: Tree, s: State, i: nat)
    requires Inv(base, s) && i < |s.guards| && s.guards[i].phase.Bound?
    ensures TreeOk(DoUnlink(s, i).world)
  {
    hide RecordOk; hide GuardOk; hide ExtraOk; hide SocketsDistinct;
    var w, w' := s.world, DoUnlink(s, i).world;
    forall e | e in w'.fs ensures EntryOk(w', e) { assert EntryOk(w, e); }
  }

  lemma UnlinkedGuards(base: Tree, s: State, i: nat)
    requires Inv(base, s) && i < |s.guards| && s.guards[i].phase.Bound?
    ensures var s' := DoUnlink(s, i); (forall j: nat :: GuardOk(base, s', j)) && forall e :: ExtraOk(base, s', e)
  {
    var s', w, g := DoUnlink(s, i), s.world, s.guards[i];
    hide BaseOk; hide RecordOk;
    assert GuardOk(base, s, i);
    forall j: nat ensures GuardOk(base, s', j) {
      assert GuardOk(base, s, j);
      if j < |s.guards| && j != i && HasSocket(s.guards[j]) {
        assert s.guards[j].phase.inode != g.phase.inode;
      }
    }
    forall e ensures ExtraOk(base, s', e) {
      assert ExtraOk(base, s, e);
      if e in s'.world.fs && w.fs[e].Socket? && SocketOf(s.guards, e, w.fs[e].inode) {
        var j :| 0 <= j < |s.guards| && s.guards[j].phase == Bound(e, w.fs[e].inode);
        assert j != i;
        assert s'.guards[j] == s.guards[j];
      }
    }
  }

  // ----- walking down -----

  /** Making a directory and removing it again only uses up an identity. */
  lemma AgeKeeps(base: Tree, s: State, level: nat)
    requires Inv(base, s)
    ensures Inv(base, s.(world := s.world.(depth := s.world.depth[s.world.next := level], next := s.world.next + 1)))
  {
    var w := s.world;
    var w' := w.(depth := w.depth[w.next := level], next := w.next + 1);
    var s' := s.(world := w');
    hide Total;
    assert TreeOk(w') by {
      hide RecordOk; hide GuardOk; hide ExtraOk; hide SocketsDistinct;
      forall e | e in w'.fs ensures EntryOk(w', e) { assert EntryOk(w, e); }
    }
    hide TreeOk;
    forall k: nat ensures RecordOk(base, s', k) { assert RecordOk(base, s, k); }
    hide RecordOk;
    forall j: nat ensures GuardOk(base, s', j) { assert GuardOk(base, s, j); }
    hide GuardOk;
    forall e ensures ExtraOk(base, s', e) { assert ExtraOk(base, s, e); }
  }

  lemma MadeAndRemoved(w: World, parent: Inode, name: string)
    requires TreeOk(w) && (parent, name) !in w.fs && parent in w.depth
    ensures RemoveIfUnchanged(MakeDirectory(w, parent, name), (parent, name), w.next)
         == w.(depth := w.depth[w.next := Level(w, parent) + 1], next := w.next + 1)
  {
    var e, made := (parent, name), MakeDirectory(w, parent, name);
    forall x | x in made.fs ensures x.0 != w.next { if x != e { assert EntryOk(w, x); } }
    assert made.fs - {e} == w.fs;
  }

  /** The guard after a component has been entered. */
  function Entered(g: Guard, key: Inode): Guard
    requires g.phase.Opening? && g.phase.path != []
  {
    g.(keys := g.keys + [key], phase := Opening(g.phase.path[1..]))
  }

  lemma EnteredTotal(guards: seq<Guard>, i: nat, key: Inode)
    requires i < |guards| && guards[i].phase.Opening? && guards[i].phase.path != []
    ensures Total(guards[i := Entered(guards[i], key)]) == Total(guards) + multiset{key}
  {
    var after := guards[i := Entered(guards[i], key)];
    TotalSplit(guards, i);
    TotalSplit(after, i);
    hide Total;
    assert Without(after, i) == Without(guards, i);
    assert multiset(guards[i].keys + [key]) == multiset(guards[i].keys) + multiset{key};
  }

  /** The record of a directory that is entered under the name `(parent, name)`. */
  lemma RegisteredRecords(base: Tree, s: State, s': State, parent: Inode, name: string, key: Inode, made: bool)
    requires Inv(base, s)
    requires Total(s'.guards) == Total(s.guards) + multiset{key}
    requires s'.world.registry == Register(s.world, parent, name, key, made).registry
    requires Holds(s'.world.fs, (parent, name), Directory(key))
    requires forall e :: e in s.world.fs ==> Holds(s'.world.fs, e, s.world.fs[e])
    requires forall e :: Holds(s.world.fs, e, Directory(key)) ==> e == (parent, name)
    requires if made then key == s.world.next && (parent, name) !in base
             else key in s.world.registry || (parent, name) in base
    ensures forall k: nat :: RecordOk(base, s', k)
  {
    hide Total; hide TreeOk; hide GuardOk; hide ExtraOk; hide SocketsDistinct;
    if made { NewKeyUnknown(base, s); }
    assert RecordOk(base, s, key);
    forall k: nat ensures RecordOk(base, s', k) { assert RecordOk(base, s, k); }
  }

  lemma NewKeyUnknown(base: Tree, s: State)
    requires Inv(base, s)
    ensures s.world.next !in s.world.registry
  {
    hide GuardOk; hide ExtraOk; hide SocketsDistinct; hide Total;
    assert RecordOk(base, s, s.world.next);
  }

  lemma ChainGrows(w: World, w': World, keys: seq<Inode>)
    requires ChainOk(w, keys)
    requires forall k :: k in w.registry ==> k in w'.registry && w'.registry[k].parent == w.registry[k].parent
    ensures ChainOk(w', keys)
  {
  }

  lemma ChainExtends(w: World, keys: seq<Inode>, key: Inode)
    requires ChainOk(w, keys) && key in w.registry && w.registry[key].parent == Current(keys)
    ensures ChainOk(w, keys + [key])
  {
    var all := keys + [key];
    forall j | 0 <= j < |all| ensures all[j] in w.registry && w.registry[all[j]].parent == Current(all[..j]) {
      assert all[..j] == keys[..j];
      if j == |keys| { assert keys[..j] == keys; }
    }
  }

  lemma EnteredGuards(base: Tree, s: State, i: nat, w': World, parent: Inode, name: string, key: Inode, made: bool)
    requires Inv(base, s) && i < |s.guards| && s.guards[i].phase.Opening? && s.guards[i].phase.path != []
    requires parent == Current(s.guards[i].keys)
    requires w'.registry == Register(s.world, parent, name, key, made).registry
    requires key in s.world.registry ==> s.world.registry[key].parent == parent
    requires s.world.next <= w'.next && forall e :: e in s.world.fs ==> Holds(w'.fs, e, s.world.fs[e])
    requires forall e :: e in w'.fs && e !in s.world.fs ==> w'.fs[e].Directory? && w'.fs[e].inode == key
    ensures var s' := State(w', s.guards[i := Entered(s.guards[i], key)]);
            (forall j: nat :: GuardOk(base, s', j)) && SocketsDistinct(s'.guards) && forall e :: ExtraOk(base, s', e)
  {
    var s' := State(w', s.guards[i := Entered(s.guards[i], key)]);
    SocketsAfter(s.guards, i, s'.guards[i]);
    SocketsStay(s.guards, i, s'.guards[i]);
    hide TreeOk; hide BaseOk; hide RecordOk; hide SocketsDistinct; hide SocketOf; hide Total;
    forall j: nat ensures GuardOk(base, s', j) {
      assert GuardOk(base, s, j);
      if j < |s.guards| {
        ChainGrows(s.world, w', s.guards[j].keys);
        if j == i { ChainExtends(w', s.guards[i].keys, key); }
        hide ChainOk;
      }
    }
    forall e ensures ExtraOk(base, s', e) { assert ExtraOk(base, s, e); }
  }

  lemma OldEntry(base: Tree, s: State, parent: Inode, name: string)
    requires Inv(base, s) && (parent, name) in s.world.fs && s.world.fs[(parent, name)].Directory?
    ensures var key := s.world.fs[(parent, name)].inode;
            && (forall e :: Holds(s.world.fs, e, Directory(key)) ==> e == (parent, name))
            && (key in s.world.registry || (parent, name) in base)
            && (key in s.world.registry ==> s.world.registry[key].parent == parent)
  {
    hide GuardOk; hide SocketsDistinct; hide Total; hide SocketOf;
    assert ExtraOk(base, s, (parent, name));
    assert RecordOk(base, s, s.world.fs[(parent, name)].inode);
  }

  lemma EnterOldKeeps(base: Tree, s: State, i: nat)
    requires Inv(base, s) && i < |s.guards| && s.guards[i].phase.Opening? && s.guards[i].phase.path != []
    requires var e := (Current(s.guards[i].keys), s.guards[i].phase.path[0]); e in s.world.fs && s.world.fs[e].Directory?
    ensures Inv(base, DoDescend(s, i, NoFault))
  {
    var w, g := s.world, s.guards[i];
    var parent, name := Current(g.keys), g.phase.path[0];
    var key := w.fs[(parent, name)].inode;
    var s' := State(Register(w, parent, name, key, false), s.guards[i := Entered(g, key)]);
    assert s' == DoDescend(s, i, NoFault);
    OldEntry(base, s, parent, name);
    hide DoDescend; hide Total; hide GuardOk; hide RecordOk; hide ExtraOk; hide SocketsDistinct; hide SocketOf; hide TreeOk;
    EnteredTotal(s.guards, i, key);
    RegisteredRecords(base, s, s', parent, name, key, false);
    EnteredGuards(base, s, i, s'.world, parent, name, key, false);
    SameTree(w, s'.world);
  }

  lemma DescendsNew(s: State, i: nat)
    requires i < |s.guards| && s.guards[i].phase.Opening? && s.guards[i].phase.path != []
    requires (Current(s.guards[i].keys), s.guards[i].phase.path[0]) !in s.world.fs
    ensures var w, parent, name := s.world, Current(s.guards[i].keys), s.guards[i].phase.path[0];
            DoDescend(s, i, NoFault) == State(Register(MakeDirectory(w, parent, name), parent, name, w.next, true),
                                              s.guards[i := Entered(s.guards[i], w.next)])
  {
    hide Register; hide MakeDirectory;
  }

  lemma NewWorld(w: World, parent: Inode, name: string)
    requires (parent, name) !in w.fs
    ensures var w' := Register(MakeDirectory(w, parent, name), parent, name, w.next, true);
            && w'.registry == Register(w, parent, name, w.next, true).registry
            && w' == MakeDirectory(w, parent, name).(registry := w'.registry)
            && Holds(w'.fs, (parent, name), Directory(w.next)) && w.next <= w'.next
            && (forall e :: e in w.fs ==> Holds(w'.fs, e, w.fs[e]))
            && (forall e :: e in w'.fs && e !in w.fs ==> w'.fs[e].Directory? && w'.fs[e].inode == w.next)
  {
  }

  /** The parts of the invariant, one by one. */
  lemma Assemble(base: Tree, s: State)
    requires TreeOk(s.world) && BaseOk(base, s.world)
    requires (forall k: nat :: RecordOk(base, s, k)) && (forall j: nat :: GuardOk(base, s, j))
    requires SocketsDistinct(s.guards) && forall e :: ExtraOk(base, s, e)
    ensures Inv(base, s)
  {
  }

  lemma EnterNewKeeps(base: Tree, s: State, i: nat)
    requires Inv(base, s) && i < |s.guards| && s.guards[i].phase.Opening? && s.guards[i].phase.path != []
    requires (Current(s.guards[i].keys), s.guards[i].phase.path[0]) !in s.world.fs
    ensures Inv(base, DoDescend(s, i, NoFault))
  {
    hide *;
    var w, g := s.world, s.guards[i];
    var parent, name := Current(g.keys), g.phase.path[0];
    var w' := Register(MakeDirectory(w, parent, name), parent, name, w.next, true);
    var s' := State(w', s.guards[i := Entered(g, w.next)]);
    DescendsNew(s, i);
    NewWorld(w, parent, name);
    InTree(base, s, i);
    NewKeyUnknown(base, s);
    EnteredTotal(s.guards, i, w.next);
    MadeTree(base, s, parent, name);
    SameBase(base, MakeDirectory(w, parent, name), w'.registry);
    RegisteredRecords(base, s, s', parent, name, w.next, true);
    EnteredGuards(base, s, i, w', parent, name, w.next, true);
    Assemble(base, s');
  }

  lemma MadeTree(base: Tree, s: State, parent: Inode, name: string)
    requires Inv(base, s) && (parent, name) !in s.world.fs && parent in s.world.depth
    ensures var w' := MakeDirectory(s.world, parent, name);
            && (forall r :: TreeOk(w'.(registry := r))) && BaseOk(base, w') && (parent, name) !in base
            && forall e :: !Holds(s.world.fs, e, Directory(s.world.next))
  {
    hide RecordOk; hide GuardOk; hide ExtraOk; hide SocketsDistinct; hide Total;
    var w, w' := s.world, MakeDirectory(s.world, parent, name);
    forall e | e in w.fs ensures w.fs[e] != Directory(w.next) { assert EntryOk(w, e); }
    forall r ensures TreeOk(w'.(registry := r)) {
      var v := w'.(registry := r);
      forall e | e in v.fs ensures EntryOk(v, e) { if e in w.fs { assert EntryOk(w, e); } }
    }
  }

  lemma DescendKeeps(s: State, i: nat, fault: Fault)
    requires Inv(s.world.kept, s) && i < |s.guards| && s.guards[i].phase.Opening? && s.guards[i].phase.path != []
    ensures Inv(DoDescend(s, i, fault).world.kept, DoDescend(s, i, fault))
  {
    var w, g := s.world, s.guards[i];
    var base, e := w.kept, (Current(g.keys), g.phase.path[0]);
    if fault == OpenFails || (e in w.fs && (!w.fs[e].Directory? || fault == SetupFails)) {
      FailKeeps(base, s, i);
    } else if e in w.fs {
      EnterOldKeeps(base, s, i);
    } else {
      InTree(base, s, i);
      if fault == ReopenFails {
        var w' := Leak(MakeDirectory(w, e.0, e.1), e);
        LeakKeeps(s, w', e);
        FailKeeps(w'.kept, s.(world := w'), i);
      } else if fault == SetupFails {
        MadeAndRemoved(w, e.0, e.1);
        AgeKeeps(base, s, Level(w, e.0) + 1);
        FailKeeps(base, s.(world := w.(depth := w.depth[w.next := Level(w, e.0) + 1], next := w.next + 1)), i);
      } else {
        EnterNewKeeps(base, s, i);
      }
    }
  }

  // ----- giving leases back -----

  function Popped(g: Guard): Guard
    requires g.keys != []
  {
    g.(keys := g.keys[..|g.keys| - 1])
  }

  lemma PoppedTotal(guards: seq<Guard>, i: nat)
    requires i < |guards| && guards[i].keys != []
    ensures Total(guards) == Total(guards[i := Popped(guards[i])]) + multiset{Current(guards[i].keys)}
  {
    var g := guards[i];
    var after := guards[i := Popped(g)];
    TotalSplit(guards, i);
    TotalSplit(after, i);
    hide Total;
    assert Without(after, i) == Without(guards, i);
    assert g.keys == g.keys[..|g.keys| - 1] + [Current(g.keys)];
  }

  lemma KeyIsNotRoot(base: Tree, s: State, k: Inode)
    requires Inv(base, s) && k in s.world.registry
    ensures k != ROOT
  {
    hide Total; hide GuardOk; hide ExtraOk; hide SocketsDistinct;
    assert RecordOk(base, s, k);
    assert EntryOk(s.world, (s.world.registry[k].parent, s.world.registry[k].name));
  }

  /** A directory without leases holds only what is to stay. */
  lemma UnleasedHoldsKept(base: Tree, s: State, i: nat)
    requires Inv(base, s) && i < |s.guards| && s.guards[i].keys != [] && !s.guards[i].phase.Bound?
    requires Current(s.guards[i].keys) in s.world.registry
    requires Total(s.guards[i := Popped(s.guards[i])])[Current(s.guards[i].keys)] == 0
    ensures forall e :: e in s.world.fs && e.0 == Current(s.guards[i].keys) ==> e in base
  {
    var k, w := Current(s.guards[i].keys), s.world;
    KeyIsNotRoot(base, s, k);
    hide TreeOk; hide SocketsDistinct; hide Total;
    forall e | e in w.fs && e.0 == k ensures e in base {
      assert ExtraOk(base, s, e);
      if e !in base {
        if w.fs[e].Directory? { ChildIsLeased(base, s, i, e); }
        else { SocketIsLeased(base, s, i, e); }
      }
    }
  }

  lemma ChildIsLeased(base: Tree, s: State, i: nat, e: Entry)
    requires Inv(base, s) && i < |s.guards| && s.guards[i].keys != [] && e.0 == Current(s.guards[i].keys) != ROOT
    requires e in s.world.fs && s.world.fs[e].Directory? && s.world.fs[e].inode in s.world.registry
    ensures Total(s.guards[i := Popped(s.guards[i])])[e.0] > 0
  {
    var c := s.world.fs[e].inode;
    assert RecordOk(base, s, c);
    assert s.world.registry[c].parent == e.0;
    hide TreeOk; hide SocketsDistinct; hide ExtraOk; hide RecordOk;
    var j := TotalFrom(s.guards, c);
    hide Total;
    var keys := s.guards[j].keys;
    assert GuardOk(base, s, j);
    var p :| 0 <= p < |keys| && keys[p] == c;
    assert Current(keys[..p]) == e.0;
    assert p > 0 && keys[p - 1] == e.0;
    var after := s.guards[i := Popped(s.guards[i])];
    assert e.0 in after[j].keys by { if j == i { assert after[j].keys[p - 1] == e.0; } }
    TotalHas(after, j, e.0);
  }

  lemma SocketIsLeased(base: Tree, s: State, i: nat, e: Entry)
    requires Inv(base, s) && i < |s.guards| && s.guards[i].keys != [] && !s.guards[i].phase.Bound?
    requires e in s.world.fs && s.world.fs[e].Socket? && SocketOf(s.guards, e, s.world.fs[e].inode) && e.0 != ROOT
    ensures Total(s.guards[i := Popped(s.guards[i])])[e.0] > 0
  {
    hide TreeOk; hide SocketsDistinct; hide ExtraOk; hide RecordOk; hide Total;
    var j :| 0 <= j < |s.guards| && s.guards[j].phase == Bound(e, s.world.fs[e].inode);
    assert GuardOk(base, s, j);
    TotalHas(s.guards[i := Popped(s.guards[i])], j, e.0);
  }

  /** What is to stay after a lease is given back: more only if a directory could not be removed. */
  lemma PopKeeps(s: State, i: nat)
    requires Inv(s.world.kept, s) && i < |s.guards| && s.guards[i].keys != [] && !s.guards[i].phase.Bound?
    ensures Inv(DoPop(s, i).world.kept, DoPop(s, i))
  {
    var k := Current(s.guards[i].keys);
    PoppedTotal(s.guards, i);
    assert GuardOk(s.world.kept, s, i);
    assert RecordOk(s.world.kept, s, k);
    if s.world.registry[k].leases > 1 {
      PopSharedKeeps(s.world.kept, s, i);
    } else if s.world.registry[k].created && !IsEmpty(s.world.fs, k) {
      PopStaysKeeps(s, i);
    } else {
      PopLastKeeps(s.world.kept, s, i);
      hide Inv;
      LastKept(s, i);
    }
  }

  lemma LastKept(s: State, i: nat)
    requires i < |s.guards| && s.guards[i].keys != []
    requires var k := Current(s.guards[i].keys);
             k in s.world.registry && (s.world.registry[k].created ==> IsEmpty(s.world.fs, k))
    ensures DoPop(s, i).world.kept == s.world.kept
  {
  }

  /** A directory that holds something that is to stay cannot be removed, and stays itself. */
  lemma PopStaysKeeps(s: State, i: nat)
    requires Inv(s.world.kept, s) && i < |s.guards| && s.guards[i].keys != [] && !s.guards[i].phase.Bound?
    requires var k := Current(s.guards[i].keys);
             && k in s.world.registry && s.world.registry[k].leases <= 1
             && s.world.registry[k].created && !IsEmpty(s.world.fs, k)
    ensures Inv(DoPop(s, i).world.kept, DoPop(s, i))
  {
    var k := Current(s.guards[i].keys);
    var s1 := Disowned(s, k);
    assert RecordOk(s.world.kept, s, k);
    DisownKeeps(s, k);
    hide Inv;
    PopLastKeeps(s1.world.kept, s1, i);
    StaysSame(s, i);
  }

  /** Nobody will remove the directory of `k` any more. */
  function Disowned(s: State, k: Inode): State
    requires k in s.world.registry
  {
    var r := s.world.registry[k];
    s.(world := s.world.(registry := s.world.registry[k := r.(created := false)],
                         kept := s.world.kept[(r.parent, r.name) := Directory(k)]))
  }

  lemma DisownKeeps(s: State, k: Inode)
    requires Inv(s.world.kept, s) && k in s.world.registry
    ensures Inv(Disowned(s, k).world.kept, Disowned(s, k))
  {
    var base, s' := s.world.kept, Disowned(s, k);
    SameTree(s.world, s'.world);
    assert RecordOk(base, s, k);
    hide Total; hide SocketsDistinct; hide SocketOf;
    forall n: nat ensures RecordOk(s'.world.kept, s', n) { assert RecordOk(base, s, n); }
    hide RecordOk;
    forall j: nat ensures GuardOk(s'.world.kept, s', j) { assert GuardOk(base, s, j); }
    hide GuardOk;
    forall e ensures ExtraOk(s'.world.kept, s', e) { assert ExtraOk(base, s, e); }
  }

  lemma StaysSame(s: State, i: nat)
    requires i < |s.guards| && s.guards[i].keys != []
    requires var k := Current(s.guards[i].keys);
             && k in s.world.registry && s.world.registry[k].leases <= 1 && s.world.registry[k].created
             && !IsEmpty(s.world.fs, k)
             && Holds(s.world.fs, (s.world.registry[k].parent, s.world.registry[k].name), Directory(k))
    ensures DoPop(Disowned(s, Current(s.guards[i].keys)), i) == DoPop(s, i)
  {
    var k := Current(s.guards[i].keys);
    var s1 := Disowned(s, k);
    assert s1.world.registry - {k} == s.world.registry - {k};
  }

  lemma PoppedGuard(base: Tree, s: State, w': World, i: nat, j: nat)
    requires GuardOk(base, s, j) && i < |s.guards| && s.guards[i].keys != [] && !s.guards[i].phase.Bound?
    requires j < |s.guards|
    requires forall k :: k in s.guards[i := Popped(s.guards[i])][j].keys && k in s.world.registry ==>
                           k in w'.registry && w'.registry[k].parent == s.world.registry[k].parent
    requires w'.next == s.world.next && w'.fs.Keys <= s.world.fs.Keys
    requires forall e :: e in w'.fs ==> w'.fs[e] == s.world.fs[e]
    requires forall e :: e in s.world.fs && e !in w'.fs ==> s.world.fs[e].Directory?
    ensures GuardOk(base, State(w', s.guards[i := Popped(s.guards[i])]), j)
  {
    var keys, keys' := s.guards[j].keys, s.guards[i := Popped(s.guards[i])][j].keys;
    forall p | 0 <= p < |keys'| ensures keys'[p] in w'.registry && w'.registry[keys'[p]].parent == Current(keys'[..p]) {
      assert keys'[p] == keys[p] && keys'[..p] == keys[..p];
    }
  }

  lemma PoppedGuards(base: Tree, s: State, w': World, i: nat)
    requires Inv(base, s) && i < |s.guards| && s.guards[i].keys != [] && !s.guards[i].phase.Bound?
    requires var k := Current(s.guards[i].keys);
             && (forall n :: n in s.world.registry && n != k ==> n in w'.registry && w'.registry[n] == s.world.registry[n])
             && (k in s.world.registry && Total(s.guards[i := Popped(s.guards[i])])[k] > 0 ==>
                   k in w'.registry && w'.registry[k].parent == s.world.registry[k].parent)
    requires w'.next == s.world.next && w'.fs.Keys <= s.world.fs.Keys
    requires forall e :: e in w'.fs ==> w'.fs[e] == s.world.fs[e]
    requires forall e :: e in s.world.fs && e !in w'.fs ==> s.world.fs[e].Directory?
    ensures var s' := State(w', s.guards[i := Popped(s.guards[i])]);
            (forall j: nat :: GuardOk(base, s', j)) && SocketsDistinct(s'.guards)
  {
    hide TreeOk; hide BaseOk; hide RecordOk; hide ExtraOk; hide Total;
    var s', k := State(w', s.guards[i := Popped(s.guards[i])]), Current(s.guards[i].keys);
    SocketsAfter(s.guards, i, s'.guards[i]);
    hide SocketsDistinct;
    forall j: nat ensures GuardOk(base, s', j) {
      assert GuardOk(base, s, j);
      if j < |s.guards| {
        hide GuardOk;
        if k in s'.guards[j].keys { TotalHas(s'.guards, j, k); }
        PoppedGuard(base, s, w', i, j);
      }
    }
  }

  lemma SameTree(w: World, w': World)
    requires TreeOk(w) && w' == w.(registry := w'.registry, kept := w'.kept, leaks := w'.leaks)
    ensures TreeOk(w')
  {
    forall e | e in w.fs ensures EntryOk(w', e) { assert EntryOk(w, e); }
  }

  lemma SharedRecords(base: Tree, s: State, s': State, k: Inode)
    requires Inv(base, s) && k in s.world.registry && s.world.registry[k].leases > 1
    requires s'.world == s.world.(registry := s.world.registry[k := s.world.registry[k].(leases := s.world.registry[k].leases - 1)])
    requires Total(s.guards) == Total(s'.guards) + multiset{k}
    ensures forall n: nat :: RecordOk(base, s', n)
  {
    hide TreeOk; hide BaseOk; hide GuardOk; hide ExtraOk; hide SocketsDistinct; hide Total;
    forall n: nat ensures RecordOk(base, s', n) { assert RecordOk(base, s, n); }
  }

  lemma PoppedExtra(base: Tree, s: State, s': State, k: Inode)
    requires Inv(base, s)
    requires forall e, inode :: SocketOf(s.guards, e, inode) ==> SocketOf(s'.guards, e, inode)
    requires s'.world.fs.Keys <= s.world.fs.Keys && forall e :: e in s'.world.fs ==> s'.world.fs[e] == s.world.fs[e]
    requires forall n :: n in s.world.registry && n != k ==> n in s'.world.registry
    requires k in s'.world.registry || forall e :: Holds(s'.world.fs, e, Directory(k)) ==> e in base
    ensures forall e :: ExtraOk(base, s', e)
  {
    hide TreeOk; hide BaseOk; hide GuardOk; hide RecordOk; hide SocketsDistinct; hide Total; hide SocketOf;
    forall e ensures ExtraOk(base, s', e) { assert ExtraOk(base, s, e); }
  }

  lemma PopSharedKeeps(base: Tree, s: State, i: nat)
    requires Inv(base, s) && i < |s.guards| && s.guards[i].keys != [] && !s.guards[i].phase.Bound?
    requires var k := Current(s.guards[i].keys); k in s.world.registry && s.world.registry[k].leases > 1
    ensures Inv(base, DoPop(s, i))
  {
    var s', k := DoPop(s, i), Current(s.guards[i].keys);
    assert s'.world == s.world.(registry := s.world.registry[k := s.world.registry[k].(leases := s.world.registry[k].leases - 1)]);
    assert s'.guards == s.guards[i := Popped(s.guards[i])];
    hide DoPop; hide Total; hide GuardOk; hide RecordOk; hide ExtraOk; hide SocketsDistinct; hide SocketOf; hide TreeOk;
    PoppedTotal(s.guards, i);
    SocketsStay(s.guards, i, s'.guards[i]);
    SameTree(s.world, s'.world);
    SharedRecords(base, s, s', k);
    PoppedExtra(base, s, s', k);
    PoppedGuards(base, s, s'.world, i);
  }

  lemma PopsGuard(s: State, i: nat)
    requires i < |s.guards| && s.guards[i].keys != []
    ensures DoPop(s, i).guards == s.guards[i := Popped(s.guards[i])]
  {
    hide Release;
  }

  lemma LastWorld(base: Tree, s: State, i: nat)
    requires Inv(base, s) && i < |s.guards| && s.guards[i].keys != []
    requires var k := Current(s.guards[i].keys);
             && k in s.world.registry && s.world.registry[k].leases <= 1
             && (s.world.registry[k].created ==> IsEmpty(s.world.fs, k))
    ensures var w, w', k := s.world, DoPop(s, i).world, Current(s.guards[i].keys);
            var r := w.registry[k];
            var e := (r.parent, r.name);
            && w' == w.(fs := if r.created then w.fs - {e} else w.fs, registry := w.registry - {k})
            && (forall x :: Holds(w.fs, x, Directory(k)) ==> x == e)
            && (r.created <==> e !in base) && Holds(w.fs, e, Directory(k)) && Total(s.guards)[k] == r.leases
  {
    hide GuardOk; hide ExtraOk; hide SocketsDistinct; hide Total;
    assert RecordOk(base, s, Current(s.guards[i].keys));
  }

  lemma LastTree(base: Tree, w: World, e: Entry)
    requires TreeOk(w) && BaseOk(base, w) && e !in base
    ensures TreeOk(w.(fs := w.fs - {e})) && BaseOk(base, w.(fs := w.fs - {e}))
  {
    var w' := w.(fs := w.fs - {e});
    forall x | x in w'.fs ensures EntryOk(w', x) { assert EntryOk(w, x); }
  }

  lemma LastRecords(base: Tree, s: State, s': State, k: Inode, e: Entry)
    requires Inv(base, s) && Holds(s.world.fs, e, Directory(k)) && Total(s.guards)[k] <= 1
    requires Total(s.guards) == Total(s'.guards) + multiset{k} && s'.world.registry == s.world.registry - {k}
    requires forall x :: x != e && x in s.world.fs ==> Holds(s'.world.fs, x, s.world.fs[x])
    ensures forall n: nat :: RecordOk(base, s', n)
  {
    hide TreeOk; hide BaseOk; hide GuardOk; hide ExtraOk; hide SocketsDistinct; hide Total;
    forall n: nat ensures RecordOk(base, s', n) { assert RecordOk(base, s, n); }
  }

  /** The tree after the last lease of `k` is gone. */
  lemma LastFrame(base: Tree, w: World, k: Inode, e: Entry, created: bool)
    requires TreeOk(w) && BaseOk(base, w) && (created <==> e !in base) && Holds(w.fs, e, Directory(k))
    requires forall x :: Holds(w.fs, x, Directory(k)) ==> x == e
    ensures var w' := w.(fs := if created then w.fs - {e} else w.fs, registry := w.registry - {k});
            && TreeOk(w') && BaseOk(base, w') && w'.next == w.next && w'.fs.Keys <= w.fs.Keys
            && (forall x :: x in w'.fs ==> w'.fs[x] == w.fs[x])
            && (forall x :: x in w.fs && x !in w'.fs ==> w.fs[x].Directory?)
            && (forall x :: x != e && x in w.fs ==> Holds(w'.fs, x, w.fs[x]))
            && (forall x :: Holds(w'.fs, x, Directory(k)) ==> x in base)
  {
    if created { LastTree(base, w, e); }
    var w1 := w.(fs := if created then w.fs - {e} else w.fs);
    SameTree(w1, w1.(registry := w.registry - {k}));
    SameBase(base, w1, w.registry - {k});
    hide TreeOk; hide BaseOk;
  }

  lemma PopLastKeeps(base: Tree, s: State, i: nat)
    requires Inv(base, s) && i < |s.guards| && s.guards[i].keys != [] && !s.guards[i].phase.Bound?
    requires var k := Current(s.guards[i].keys);
             && k in s.world.registry && s.world.registry[k].leases <= 1
             && (s.world.registry[k].created ==> IsEmpty(s.world.fs, k))
    ensures Inv(base, DoPop(s, i))
  {
    assert TreeOk(s.world) && BaseOk(base, s.world);
    hide *;
    var s', w, k := DoPop(s, i), s.world, Current(s.guards[i].keys);
    var r := w.registry[k];
    PopsGuard(s, i);
    LastWorld(base, s, i);
    LastFrame(base, w, k, (r.parent, r.name), r.created);
    PoppedTotal(s.guards, i);
    SocketsStay(s.guards, i, s'.guards[i]);
    LastRecords(base, s, s', k, (r.parent, r.name));
    PoppedExtra(base, s, s', k);
    PoppedGuards(base, s, s'.world, i);
    Assemble(base, s');
  }

  lemma SameBase(base: Tree, w: World, registry: map<Inode, Record>)
    requires BaseOk(base, w)
    ensures BaseOk(base, w.(registry := registry))
  {
  }
}
