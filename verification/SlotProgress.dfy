/** What no action ever takes back. */
module SlotProgress {
  import opened Basics
  import opened Config
  import opened Slots
  import opened SlotInvariants
  import Effective

  ghost predicate Onward(r: Runtime, r': Runtime) {
    && r'.generation == r.generation && r.gens <= r'.gens
    && (r.retired ==> r'.retired) && (r.retirement ==> r'.retirement)
    && (r.cancelled ==> r'.cancelled) && (r.aborted ==> r'.aborted)
    && (HasExited(r) ==> HasExited(r'))
  }

  /**
   Seed and persistence are constant, the gate and the list of committed listeners only grow, listeners keep
   their number and every policy generation they ever selected, and a connection keeps what it pinned.
   */
  ghost predicate Progress(s: Slot, s': Slot) {
    && s'.seed == s.seed && s'.persistent == s.persistent
    && s.gate <= s'.gate && s.committed <= s'.committed
    && |s.runtimes| <= |s'.runtimes|
    && (forall h :: 0 <= h < |s.runtimes| ==> Onward(s.runtimes[h], s'.runtimes[h]))
    && (forall c :: c in s.conns && c in s'.conns ==> s'.conns[c] == s.conns[c])
  }

  lemma ProgressTransitive(s: Slot, s1: Slot, s2: Slot)
    requires Progress(s, s1) && Progress(s1, s2) && s1.conns == s.conns
    ensures Progress(s, s2)
  {
    forall h | 0 <= h < |s.runtimes| ensures Onward(s.runtimes[h], s2.runtimes[h]) {
      assert Onward(s.runtimes[h], s1.runtimes[h]) && Onward(s1.runtimes[h], s2.runtimes[h]);
    }
  }

  lemma ReturnProgress(s: Slot, op: OpId)
    requires op in s.ops
    ensures Progress(s, Return(s, op)) && Return(s, op).conns == s.conns
  {
  }

  lemma ReplyProgress(s: Slot, op: OpId, answer: Answer)
    requires op in s.ops
    ensures Progress(s, Reply(s, op, answer))
  {
    hide Return;
    ReturnProgress(s, op);
  }

  lemma PrunedProgress(s: Slot)
    requires s.entry.Some?
    ensures Progress(s, Pruned(s)) && Progress(s, Counted(Pruned(s)))
    ensures Pruned(s).conns == s.conns && Pruned(s).ops == s.ops && Pruned(s).entry.Some?
  {
  }

  lemma CreateProgress(acc: bool, s: Slot, c: Control)
    requires ControlEnabled(acc, s, c) && (c.StartFirst? || c.Publish? || c.Unreserve?)
    ensures Progress(s, ControlNext(acc, s, c))
  {
    hide Return; hide DoStartFirst; hide DoPublish;
    match c
    case StartFirst(op, path) => FirstProgress(s, op, path); hide Progress;
    case Publish(op) => PublishProgress(acc, s, op); hide Progress;
    case Unreserve(op) => ReturnProgress(s, op);
  }

  lemma FirstProgress(s: Slot, op: OpId, path: Option<string>)
    requires op in s.ops && s.ops[op].StartingFirst?
    ensures Progress(s, DoStartFirst(s, op, path))
  {
  }

  lemma PublishProgress(acc: bool, s: Slot, op: OpId)
    requires op in s.ops && s.ops[op].Publishing? && s.ops[op].first < |s.runtimes|
    ensures Progress(s, DoPublish(acc, s, op))
  {
    ReturnProgress(s, op);
    hide Return;
  }

  lemma DropNamedProgress(s: Slot, g: nat)
    requires s.entry.Some?
    ensures Progress(s, DropNamed(s, g)) && DropNamed(s, g).conns == s.conns && DropNamed(s, g).ops == s.ops
  {
    hide Named;
  }

  lemma TakeAllProgress(s: Slot, op: OpId, kind: EndKind)
    requires s.entry.Some?
    ensures Progress(s, TakeAll(s, op, kind))
  {
    hide AllListeners;
  }

  lemma DecideProgress(s: Slot, op: OpId)
    requires EndingAt(s, op)
    ensures Progress(s, DoDecide(s, op))
  {
    hide Return; hide DropNamed; hide TakeAll; hide Progress;
    var kind := s.ops[op].kind;
    ReturnProgress(s, op);
    if s.entry.Some? {
      TakeAllProgress(s, op, kind);
      if kind.Exit? {
        var s1 := DropNamed(s, kind.event.generation);
        DropNamedProgress(s, kind.event.generation);
        ReturnProgress(s1, op);
        ProgressTransitive(s, s1, Return(s1, op));
      }
    }
  }

  lemma GoProgress(s: Slot, op: OpId, next: Op)
    ensures Progress(s, Go(s, op, next))
  {
  }

  lemma JoinProgress(s: Slot, op: OpId, h: Handle)
    requires op in s.ops
    ensures Progress(s, DoJoin(s, op, h))
  {
    ReplyProgress(s, op, Failed);
    hide Reply;
    assert Progress(s, Drop(s, {h}));
    if s.ops[op].Ending? && s.ops[op].end.Shutting? {
      var next := Ending(s.ops[op].kind, Shutting(s.ops[op].end.owned - {h}));
      hide Progress; hide Drop;
      GoProgress(Drop(s, {h}), op, next);
      DropSame(s, {h});
      ProgressTransitive(s, Drop(s, {h}), Go(Drop(s, {h}), op, next));
    } else {
      assert Progress(s, s);
    }
  }

  lemma DropSame(s: Slot, hs: set<Handle>)
    ensures Drop(s, hs).conns == s.conns
  {
  }

  lemma EndProgress(acc: bool, s: Slot, c: Control)
    requires ControlEnabled(acc, s, c)
    requires c.Locate? || c.Join? || c.Erase? || c.Count? || c.Cancel?
    ensures Progress(s, ControlNext(acc, s, c))
  {
    ReturnProgress(s, c.op);
    hide Return; hide DoJoin;
    match c
    case Locate(op) => GoProgress(s, op, AwaitingLock(s.ops[op].goal)); hide Go;
    case Join(op, h) => hide Progress; JoinProgress(s, op, h);
    case Erase(op) =>
    case _ => hide Progress;
  }

  lemma SameProgress(s: Slot, s': Slot)
    requires s' == s.(entry := s'.entry, ops := s'.ops, lock := s'.lock, events := s'.events, reserved := s'.reserved)
    ensures Progress(s, s')
  {
  }

  lemma UpdateProgress(s: Slot, h: Handle, r: Runtime)
    requires h < |s.runtimes| && Onward(s.runtimes[h], r)
    ensures Progress(s, Update(s, h, r))
  {
  }

  lemma ControlProgress(acc: bool, s: Slot, c: Control)
    requires ControlEnabled(acc, s, c)
    ensures Progress(s, ControlNext(acc, s, c))
  {
    match c
    case StartFirst(_, _) => hide ControlNext; CreateProgress(acc, s, c);
    case Unreserve(_) => hide ControlNext; CreateProgress(acc, s, c);
    case Publish(_) => hide ControlNext; CreateProgress(acc, s, c);
    case Decide(op) => hide DoDecide; DecideProgress(s, op);
    case Prune => hide Pruned; hide Counted; PrunedProgress(s);
    case BeginEnd(op, kind) => GoProgress(s, op, Locating(ToEnd(kind))); hide Progress;
    case Deliver(op, e) => SameProgress(s, ControlNext(acc, s, c)); hide Progress;
    case AcquireLock(op) => SameProgress(s, ControlNext(acc, s, c)); hide Progress;
    case Signal(_, h) => UpdateProgress(s, h, s.runtimes[h].(cancelled := true)); hide Progress;
    case Abort(_, h) => UpdateProgress(s, h, s.runtimes[h].(aborted := true)); hide Progress;
    case AllJoined(op) => GoProgress(s, op, Ending(s.ops[op].kind, Erasing)); hide Progress;
    case _ => hide ControlNext; EndProgress(acc, s, c);
  }

  lemma PruningProgress(acc: bool, s: Slot, op: OpId)
    requires ReloadingAt(s, op)
    ensures Progress(s, DoPrepare(acc, s, op))
    ensures s.ops[op].reload.Planning? ==> Progress(s, DoPlan(acc, s, op))
  {
    hide Reply; hide Pruned; hide Progress; hide Go;
    ReplyProgress(s, op, Failed);
    if s.entry.Some? {
      PrunedProgress(s);
      forall next: Op ensures Progress(s, Go(Pruned(s), op, next)) {
        GoProgress(Pruned(s), op, next);
        ProgressTransitive(s, Pruned(s), Go(Pruned(s), op, next));
      }
      forall next: Op ensures Progress(s, Go(Counted(Pruned(s)), op, next)) {
        GoProgress(Counted(Pruned(s)), op, next);
        ProgressTransitive(s, Counted(Pruned(s)), Go(Counted(Pruned(s)), op, next));
      }
      ReplyProgress(Pruned(s), op, Failed);
      ReplyProgress(Counted(Pruned(s)), op, Failed);
      ProgressTransitive(s, Pruned(s), Reply(Pruned(s), op, Failed));
      ProgressTransitive(s, Counted(Pruned(s)), Reply(Counted(Pruned(s)), op, Failed));
    }
  }

  lemma ForgetProgress(s: Slot, h: Handle)
    requires h < |s.runtimes|
    ensures Progress(s, Forget(s, h))
    ensures |Forget(s, h).runtimes| == |s.runtimes| && Forget(s, h).conns == s.conns
    ensures Forget(s, h).entry == s.entry && Forget(s, h).ops == s.ops
  {
    hide KeepLive;
  }

  lemma ReselectProgress(s: Slot, h: Handle, candidate: Candidate)
    requires h < |s.runtimes| && s.entry.Some?
    ensures Progress(s, Reselect(s, h, candidate))
    ensures Reselect(s, h, candidate).conns == s.conns && Reselect(s, h, candidate).ops == s.ops
  {
  }

  lemma SelectProgress(acc: bool, s: Slot, op: OpId)
    requires ReloadEnabled(s, Select(op))
    ensures Progress(s, DoSelect(acc, s, op))
  {
    hide Reply; hide Progress; hide Reselect; hide Forget;
    ReplyProgress(s, op, Failed);
    if acc && s.entry.Some? && s.entry.value.current.Some? {
      var h := s.entry.value.current.value;
      var kept := Forget(s, h);
      ForgetProgress(s, h);
      ReplyProgress(kept, op, Failed);
      ProgressTransitive(s, kept, Reply(kept, op, Failed));
      var chosen := Reselect(kept, h, s.ops[op].reload.candidate);
      ReselectProgress(kept, h, s.ops[op].reload.candidate);
      ProgressTransitive(s, kept, chosen);
      ReplyProgress(chosen, op, Reloaded);
      ProgressTransitive(s, chosen, Reply(chosen, op, Reloaded));
    }
  }

  lemma InstallProgress(s: Slot, op: OpId, prior: Handle)
    requires ReloadingAt(s, op) && s.ops[op].reload.CuttingOver? && s.entry.Some? && prior < |s.runtimes|
    ensures Progress(s, Install(s, op, prior))
  {
  }

  lemma CutoverProgress(acc: bool, s: Slot, r: Reload)
    requires ReloadEnabled(s, r) && (r.StartReplacement? || r.CutOver?)
    ensures Progress(s, ReloadNext(acc, s, r))
  {
    hide Reply;
    ReplyProgress(s, r.op, Failed);
    if r.CutOver? {
      hide Install; hide Progress; hide Go;
      var c := s.ops[r.op].reload;
      GoProgress(s, r.op, Reloading(Discarding(c.got, c.replacement)));
      if s.entry.Some? && s.entry.value.current.Some? { InstallProgress(s, r.op, s.entry.value.current.value); }
    }
  }

  lemma ReloadProgress(acc: bool, s: Slot, r: Reload)
    requires ReloadEnabled(s, r) && (r.StoreGate? ==> s.gate <= s.entry.value.listenerGeneration)
    ensures Progress(s, ReloadNext(acc, s, r))
  {
    match r
    case Prepare(op) => hide DoPrepare; PruningProgress(acc, s, op);
    case Plan(op) => hide DoPlan; PruningProgress(acc, s, op);
    case Select(op) => hide DoSelect; SelectProgress(acc, s, op);
    case StartReplacement(_, _) => hide ReloadNext; CutoverProgress(acc, s, r);
    case CutOver(_) => hide ReloadNext; CutoverProgress(acc, s, r);
    case Read(op, _) => ReplyProgress(s, op, Failed); hide Reply;
    case Compare(op) =>
      hide Effective.SameConfiguration;
      ReplyProgress(s, op, Failed);
      ReplyProgress(s, op, Unchanged);
      hide Reply;
    case BeginReload(_) =>
    case StoreGate(_) =>
    case Retire(_) =>
  }

  lemma ListenerProgress(s: Slot, l: Listener)
    requires ListenerEnabled(s, l)
    ensures Progress(s, ListenerNext(s, l))
  {
    hide RuntimeNext; hide ListenerEnabled; hide Onward;
    if l.ConnEnd? {
      forall r: Runtime ensures Onward(r, r) { SelfOnward(r); }
    } else {
      RuntimeOnward(s, l);
      UpdateProgress(s, l.h, RuntimeNext(s, l));
      ListenerFrame(s, l);
      hide ListenerNext; hide Update;
      var u, s' := Update(s, l.h, RuntimeNext(s, l)), ListenerNext(s, l);
      forall c | c in s.conns && c in s'.conns ensures s'.conns[c] == s.conns[c] {}
    }
  }

  lemma ListenerFrame(s: Slot, l: Listener)
    requires ListenerEnabled(s, l) && !l.ConnEnd?
    ensures ListenerNext(s, l).runtimes == Update(s, l.h, RuntimeNext(s, l)).runtimes
    ensures forall c :: c in s.conns ==> c in ListenerNext(s, l).conns && ListenerNext(s, l).conns[c] == s.conns[c]
  {
    if l.AcceptPermit? { assert l.conn !in s.conns; }
    hide RuntimeNext; hide ListenerEnabled;
  }

  lemma SelfOnward(r: Runtime)
    ensures Onward(r, r)
  {
  }

  lemma RuntimeOnward(s: Slot, l: Listener)
    requires ListenerEnabled(s, l) && !l.ConnEnd?
    ensures l.h < |s.runtimes| && Onward(s.runtimes[l.h], RuntimeNext(s, l))
    ensures l.AcceptPermit? ==> l.conn !in s.conns && s.runtimes[l.h].accept.Pinned?
    ensures l.Report? ==> s.runtimes[l.h].task.Checked?
  {
  }

  /** Every action only moves forward. */
  lemma Advances(acc: bool, limit: nat, s: Slot, a: Action)
    requires Inv(acc, limit, s) && Enabled(acc, s, a)
    ensures Progress(s, Next(acc, s, a))
  {
    hide ControlNext; hide ReloadNext; hide ListenerNext;
    match a
    case ByControl(c) => ControlProgress(acc, s, c);
    case ByReload(r) =>
      assert EntryOk(s) && GateOk(s);
      hide EntryOk; hide GateOk;
      ReloadProgress(acc, s, r);
    case ByListener(l) => ListenerProgress(s, l);
  }
}
