/** Every action keeps the invariant; what the invariant means for a session. */
module SlotTheorems {
  import opened Basics
  import opened Config
  import opened Slots
  import opened SlotInvariants
  import opened SlotProofs
  import opened SlotSteps
  import opened SlotActions
  import opened SlotTurns
  import opened SlotReloads
  import opened SlotCutover

  // ----- remaining reload sections -----

  lemma ReplyKeeps(acc: bool, limit: nat, s: Slot, op: OpId, answer: Answer)
    requires Inv(acc, limit, s) && op in s.ops && Owned(s.ops[op]) == {} && !MidCutover(s.ops[op])
    ensures Inv(acc, limit, Reply(s, op, answer))
  {
    hide Inv;
    IdleReturnKeeps(acc, limit, s, Reply(s, op, answer), op);
  }

  lemma PrepareKeeps(acc: bool, limit: nat, s: Slot, op: OpId)
    requires Inv(acc, limit, s) && ReloadEnabled(s, Prepare(op)) && !RegistryHeld(s)
    ensures Inv(acc, limit, DoPrepare(acc, s, op))
  {
    hide Inv; hide InvBut; hide Return; hide Reply; hide Pruned;
    var s' := DoPrepare(acc, s, op);
    if s.entry.None? {
      ReplyKeeps(acc, limit, s, op, Failed);
    } else {
      PruneKeeps(acc, limit, s);
      PrunedSame(s);
      var p := Counted(Pruned(s));
      if p.entry.value.lifecycle == Stopping || !acc || p.entry.value.source.None? {
        ReplyKeeps(acc, limit, p, op, Failed);
      } else {
        ButAny(acc, limit, p, op);
        assert OpOk(s', op) && LockMoved(p, s', op);
        hide OpOk; hide LockMoved; hide EntryOk; hide GateOk;
        GoKeeps(acc, limit, p, s', op);
      }
    }
  }

  lemma PrunedSame(s: Slot)
    requires s.entry.Some?
    ensures Pruned(s).entry.Some? && Pruned(s).ops == s.ops && Pruned(s).reserved == s.reserved
    ensures Pruned(s).gate == s.gate && Pruned(s).lock == s.lock && Pruned(s).events == s.events
  {
  }

  lemma ReadKeeps(acc: bool, limit: nat, s: Slot, op: OpId, file: Option<Candidate>)
    requires Inv(acc, limit, s) && ReloadEnabled(s, Read(op, file))
    ensures Inv(acc, limit, DoRead(s, op, file))
  {
    hide Inv; hide InvBut; hide Return; hide Reply; hide EntryOk;
    var s' := DoRead(s, op, file);
    if file.None? {
      ReplyKeeps(acc, limit, s, op, Failed);
    } else {
      ButAny(acc, limit, s, op);
      assert OpOk(s', op) && LockMoved(s, s', op);
      hide OpOk; hide LockMoved; hide GateOk;
      GoKeeps(acc, limit, s, s', op);
    }
  }

  lemma CompareKeeps(acc: bool, limit: nat, s: Slot, op: OpId)
    requires Inv(acc, limit, s) && ReloadEnabled(s, Compare(op))
    ensures Inv(acc, limit, DoCompare(s, op))
  {
    hide Inv; hide InvBut; hide Return; hide Reply; hide EntryOk; hide Effective.SameConfiguration;
    var s' := DoCompare(s, op);
    if s.entry.None? {
      ReplyKeeps(acc, limit, s, op, Failed);
    } else if s' == Reply(s, op, Unchanged) {
      ReplyKeeps(acc, limit, s, op, Unchanged);
    } else {
      ButAny(acc, limit, s, op);
      assert OpOk(s', op) && LockMoved(s, s', op);
      hide OpOk; hide LockMoved; hide GateOk;
      GoKeeps(acc, limit, s, s', op);
    }
  }

  lemma PlanKeeps(acc: bool, limit: nat, s: Slot, op: OpId)
    requires Inv(acc, limit, s) && ReloadEnabled(s, Plan(op))
    ensures Inv(acc, limit, DoPlan(acc, s, op))
  {
    hide Inv; hide InvBut; hide Return; hide Reply; hide Pruned;
    var s' := DoPlan(acc, s, op);
    if !acc || s.entry.None? {
      ReplyKeeps(acc, limit, s, op, Failed);
    } else {
      PruneKeeps(acc, limit, s);
      PrunedSame(s);
      var p := Pruned(s);
      var x := p.entry.value;
      if x.current.None? || x.listenerGeneration >= U64_MAX || |x.retired| >= MAX_RETIRED_LISTENERS {
        ReplyKeeps(acc, limit, p, op, Failed);
      } else {
        ButAny(acc, limit, p, op);
        assert OpOk(s', op) && LockMoved(p, s', op);
        hide OpOk; hide LockMoved; hide EntryOk; hide GateOk;
        GoKeeps(acc, limit, p, s', op);
      }
    }
  }

  // ----- all actions -----

  lemma DecideKeeps(acc: bool, limit: nat, s: Slot, op: OpId)
    requires Inv(acc, limit, s) && EndingAt(s, op) && s.ops[op].end.Deciding?
    ensures Inv(acc, limit, DoDecide(s, op))
  {
    hide Inv;
    var kind := s.ops[op].kind;
    if s.entry.Some? && kind.Exit? && s.entry.value.listenerGeneration != kind.event.generation {
      hide DoDecide;
      ExitDropKeeps(acc, limit, s, op);
    } else if s.entry.None? || AlreadyEnding(s.entry.value, kind) {
      IdleReturnKeeps(acc, limit, s, DoDecide(s, op), op);
    } else {
      assert TookAll(s, DoDecide(s, op), op, kind);
      hide DoDecide; hide TookAll;
      TakeKeeps(acc, limit, s, DoDecide(s, op), op, kind);
    }
  }

  lemma DiscardKeeps(acc: bool, limit: nat, s: Slot, op: OpId, h: Handle)
    requires Inv(acc, limit, s) && ControlEnabled(acc, s, Join(op, h)) && s.ops[op].Reloading?
    ensures Inv(acc, limit, DoJoin(s, op, h))
  {
    hide Inv; hide InvBut; hide EntryOk; hide GateOk;
    ButAny(acc, limit, s, op);
    assert IsAt(s, h, Held(op));
    hide OpOk;
    ReturnKeeps(acc, limit, s, DoJoin(s, op, h), op);
  }

  lemma CreateKeeps(acc: bool, limit: nat, s: Slot, c: Control)
    requires Inv(acc, limit, s) && ControlEnabled(acc, s, c) && !RegistryHeld(s)
    requires c.StartFirst? || c.Unreserve? || c.Publish?
    ensures Inv(acc, limit, ControlNext(acc, s, c))
  {
    match c
    case StartFirst(op, path) =>
      if path.Some? { hide Inv; StartFirstKeeps(acc, limit, s, op, path.value); }
      else {
        ButAny(acc, limit, s, op);
        var s' := DoStartFirst(s, op, None);
        assert OpOk(s', op) && LockMoved(s, s', op) by { hide EntryOk; }
        hide Inv; hide InvBut; hide OpOk; hide LockMoved;
        GoKeeps(acc, limit, s, s', op);
      }
    case Unreserve(op) =>
      assert OpOk(s, op);
      hide Inv;
      IdleReturnKeeps(acc, limit, s, ControlNext(acc, s, c), op);
    case Publish(op) =>
      assert OpOk(s, op);
      hide Inv;
      if acc { hide DoPublish; PublishKeeps(limit, s, op); }
      else { CancelKeeps(limit, s, DoPublish(acc, s, op), op); }
  }

  lemma EndKeeps(acc: bool, limit: nat, s: Slot, c: Control)
    requires Inv(acc, limit, s) && ControlEnabled(acc, s, c)
    requires c.Signal? || c.Abort? || c.Join? || c.Erase? || c.Count? || c.Cancel?
    ensures Inv(acc, limit, ControlNext(acc, s, c))
  {
    hide Inv; hide Return; hide DoErase; hide DoJoin; hide MidCutover;
    match c
    case Signal(op, h) => SignalKeeps(acc, limit, s, h, s.runtimes[h].(cancelled := true));
    case Abort(op, h) => SignalKeeps(acc, limit, s, h, s.runtimes[h].(aborted := true));
    case Join(op, h) =>
      if s.ops[op].Ending? { ShutJoinKeeps(acc, limit, s, op, h); } else { DiscardKeeps(acc, limit, s, op, h); }
    case Erase(op) =>
      EndingIdle(s, op);
      if s.entry.Some? { EraseKeeps(acc, limit, s, op); }
      else { EraseNothing(s, op); IdleReturnKeeps(acc, limit, s, Return(s, op), op); }
    case Count(op) => EndingIdle(s, op); IdleReturnKeeps(acc, limit, s, Return(s, op), op);
    case Cancel(op) => AwaitingOut(s.ops[op]); CancelKeeps(limit, s, Return(s, op), op);
  }

  lemma EndingIdle(s: Slot, op: OpId)
    requires EndingAt(s, op) && !s.ops[op].end.Shutting?
    ensures Owned(s.ops[op]) == {} && !MidCutover(s.ops[op])
  {
  }

  lemma EraseNothing(s: Slot, op: OpId)
    requires EndingAt(s, op) && s.entry.None?
    ensures DoErase(s, op) == Return(s, op)
  {
    hide Return;
  }

  lemma AwaitingOut(o: Op)
    requires AtAwait(o)
    ensures !MidCutover(o)
  {
  }

  lemma ControlKeeps(acc: bool, limit: nat, s: Slot, c: Control)
    requires Inv(acc, limit, s) && Enabled(acc, s, ByControl(c))
    ensures Inv(acc, limit, ControlNext(acc, s, c))
  {
    hide Inv; hide Return; hide DoDecide; hide DoLocate; hide DoAcquire; hide Pruned; hide Drop;
    match c
    case BeginEnd(op, kind) => BeginKeeps(acc, limit, s, op, ToEnd(kind));
    case Deliver(op, e) => DeliverKeeps(acc, limit, s, op, e);
    case Locate(op) => LocateKeeps(acc, limit, s, op);
    case AcquireLock(op) => AcquireKeeps(acc, limit, s, op);
    case Decide(op) => DecideKeeps(acc, limit, s, op);
    case AllJoined(op) => AllJoinedKeeps(acc, limit, s, op);
    case Prune => PruneKeeps(acc, limit, s);
    case StartFirst(_, _) => NotHeld(acc, limit, s, c.op); CreateKeeps(acc, limit, s, c);
    case Unreserve(_) => CreateKeeps(acc, limit, s, c);
    case Publish(_) => CreateKeeps(acc, limit, s, c);
    case _ => EndKeeps(acc, limit, s, c);
  }

  lemma NotHeld(acc: bool, limit: nat, s: Slot, op: OpId)
    requires Inv(acc, limit, s) && op in s.ops && IsCreate(s.ops[op])
    ensures !RegistryHeld(s)
  {
    assert OpOk(s, op) && GateOk(s);
  }

  lemma ReloadKeeps(acc: bool, limit: nat, s: Slot, r: Reload)
    requires Inv(acc, limit, s) && Enabled(acc, s, ByReload(r))
    ensures Inv(acc, limit, ReloadNext(acc, s, r))
  {
    hide Inv; hide Return; hide DoPrepare; hide DoRead; hide DoCompare; hide DoSelect; hide DoPlan; hide DoCutOver;
    hide DoStoreGate; hide DoRetire;
    match r
    case BeginReload(op) => BeginKeeps(acc, limit, s, op, ToReload);
    case Prepare(op) => PrepareKeeps(acc, limit, s, op);
    case Read(op, file) => ReadKeeps(acc, limit, s, op, file);
    case Compare(op) => CompareKeeps(acc, limit, s, op);
    case Select(op) => SelectKeeps(acc, limit, s, op);
    case Plan(op) => PlanKeeps(acc, limit, s, op);
    case StartReplacement(op, ok) =>
      if ok { StartReplacementKeeps(acc, limit, s, op); } else { ReplyKeeps(acc, limit, s, op, Failed); }
    case CutOver(op) => CutOverKeeps(acc, limit, s, op);
    case StoreGate(op) => StoreGateKeeps(acc, limit, s, op);
    case Retire(op) => RetireKeeps(acc, limit, s, op);
  }

  /** Every action of a session keeps the invariant. */
  lemma Keeps(acc: bool, limit: nat, s: Slot, a: Action)
    requires Inv(acc, limit, s) && Enabled(acc, s, a)
    ensures Inv(acc, limit, Next(acc, s, a))
  {
    hide Inv; hide ControlNext; hide ReloadNext; hide ListenerNext;
    match a
    case ByControl(c) => ControlKeeps(acc, limit, s, c);
    case ByReload(r) => ReloadKeeps(acc, limit, s, r);
    case ByListener(l) => ListenerKeeps(acc, limit, s, l);
  }

  /** Rejecting new sessions only weakens what is demanded of the session. */
  lemma RejectKeeps(limit: nat, s: Slot)
    requires Inv(true, limit, s)
    ensures Inv(false, limit, s)
  {
    hide OpOk; hide EntryOk; hide GateOk; hide ConnOk; hide EventOk;
    forall h: nat ensures RuntimeOk(false, s, h) { assert RuntimeOk(true, s, h); }
  }
}
