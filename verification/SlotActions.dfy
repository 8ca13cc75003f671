module SlotActions {
  import opened Basics
  import opened Config
  import opened Slots
  import opened SlotInvariants
  import opened SlotProofs
  import opened SlotSteps

  /** Containers and places agree about what `op` holds and what is retired. */
  ghost predicate Settled(s: Slot, op: OpId) {
    && (forall h :: 0 <= h < |s.runtimes| && s.runtimes[h].place == Held(op) ==> op in s.ops && h in Owned(s.ops[op]))
    && (s.entry.Some? ==>
          && |s.entry.value.retired| <= s.entry.value.draining
          && forall h :: h in s.entry.value.retired ==> IsAt(s, h, Retired))
  }

  lemma InvSettled(acc: bool, limit: nat, s: Slot, op: OpId)
    requires InvBut(acc, limit, s, op)
    ensures Settled(s, op)
  {
    hide OpOk; hide GateOk; hide EventOk; hide ConnOk; hide PoliciesOk; hide Stray;
    forall h | 0 <= h < |s.runtimes| && s.runtimes[h].place == Held(op) ensures op in s.ops && h in Owned(s.ops[op]) {
      assert RuntimeOk(acc, s, h);
    }
    if s.entry.Some? {
      forall h | h in s.entry.value.retired ensures IsAt(s, h, Retired) { assert RetiredOk(s, h); }
    }
  }

  lemma ReturnAdvanced(acc: bool, s: Slot, s': Slot, op: OpId)
    requires Settled(s, op) && op in s.ops && !MidCutover(s.ops[op])
    requires s' == Return(s, op).(answers := s'.answers, reserved := s'.reserved)
    requires s'.reserved == s.reserved || (!s'.reserved && op == s.creator)
    requires forall h :: h in Owned(s.ops[op]) ==> IsAt(s, h, Held(op)) && (acc ==> HasExited(s.runtimes[h]))
    requires ReloadingAt(s, op) && s.ops[op].reload.CuttingOver? ==> !acc || !IsRunning(s)
    ensures Advanced(acc, s, s', op, Owned(s.ops[op]))
  {
    if s.entry.Some? {
      assert s.entry.value.retired - Owned(s.ops[op]) == s.entry.value.retired;
    }
  }

  /** An operation returns, dropping what it owns. */
  lemma ReturnKeeps(acc: bool, limit: nat, s: Slot, s': Slot, op: OpId)
    requires InvBut(acc, limit, s, op) && op in s.ops && !MidCutover(s.ops[op])
    requires s' == Return(s, op).(answers := s'.answers, reserved := s'.reserved)
    requires s'.reserved == s.reserved || (!s'.reserved && op == s.creator)
    requires forall h :: h in Owned(s.ops[op]) ==> IsAt(s, h, Held(op)) && (acc ==> HasExited(s.runtimes[h]))
    requires ReloadingAt(s, op) && s.ops[op].reload.CuttingOver? ==> !acc || !IsRunning(s)
    ensures Inv(acc, limit, s')
  {
    InvSettled(acc, limit, s, op);
    ReturnAdvanced(acc, s, s', op);
    assert OpOk(s', op);
    hide *;
    Advances(acc, limit, s, s', op, Owned(s.ops[op]));
  }

  lemma ButAny(acc: bool, limit: nat, s: Slot, op: OpId)
    requires Inv(acc, limit, s)
    ensures InvBut(acc, limit, s, op) && OpOk(s, op) && EntryOk(s) && GateOk(s)
  {
    hide OpOk; hide RuntimeOk; hide EntryOk; hide GateOk; hide EventOk; hide ConnOk;
  }

  lemma GoAdvanced(acc: bool, s: Slot, s': Slot, op: OpId)
    requires Settled(s, op)
    requires op in s'.ops && s' == s.(ops := s.ops[op := s'.ops[op]], lock := s'.lock, events := s'.events)
    requires Owned(s'.ops[op]) == (if op in s.ops then Owned(s.ops[op]) else {})
    requires LockMoved(s, s', op)
    requires ReloadingAt(s, op) && s.ops[op].reload.CuttingOver? ==> !acc || !IsRunning(s)
    requires forall e :: e in s'.events ==> e in s.events
    ensures Advanced(acc, s, s', op, {})
  {
  }

  /** Moving an operation on without touching listeners or entry. */
  lemma GoKeeps(acc: bool, limit: nat, s: Slot, s': Slot, op: OpId)
    requires InvBut(acc, limit, s, op)
    requires op in s'.ops && s' == s.(ops := s.ops[op := s'.ops[op]], lock := s'.lock, events := s'.events)
    requires Owned(s'.ops[op]) == (if op in s.ops then Owned(s.ops[op]) else {})
    requires LockMoved(s, s', op) && OpOk(s', op)
    requires ReloadingAt(s, op) && s.ops[op].reload.CuttingOver? ==> !acc || !IsRunning(s)
    requires forall e :: e in s'.events ==> e in s.events
    ensures Inv(acc, limit, s')
  {
    hide *;
    InvSettled(acc, limit, s, op);
    GoAdvanced(acc, s, s', op);
    Advances(acc, limit, s, s', op, {});
  }

  lemma FreshAbove(keys: set<OpId>) returns (op: OpId)
    ensures forall o :: o in keys ==> o < op
  {
    if keys == {} { op := 0; }
    else {
      var o :| o in keys;
      var below := FreshAbove(keys - {o});
      op := if below > o then below else o + 1;
      forall k | k in keys ensures k < op { if k != o { assert k in keys - {o}; } }
    }
  }

  // ----- dropping retired listeners -----

  /** Some retired listeners, all exited, are dropped from the entry. */
  lemma ShedKeeps(acc: bool, limit: nat, s: Slot, s': Slot, dead: set<Handle>)
    requires Inv(acc, limit, s) && s.entry.Some? && s'.entry.Some?
    requires dead <= s.entry.value.retired
    requires forall h :: h in dead ==> h < |s.runtimes| && HasExited(s.runtimes[h])
    requires s' == Drop(s, dead).(entry := Some(s.entry.value.(
                                  retired := s.entry.value.retired - dead, draining := s'.entry.value.draining)))
    requires |s.entry.value.retired - dead| <= s'.entry.value.draining
    ensures Inv(acc, limit, s')
  {
    var op := FreshAbove(s.ops.Keys);
    ButAny(acc, limit, s, op);
    InvSettled(acc, limit, s, op);
    assert op !in s.ops && s.lock != Some(op) by { assert GateOk(s); }
    ShedAdvanced(acc, s, s', op, dead);
    assert OpOk(s', op);
    hide *;
    Advances(acc, limit, s, s', op, dead);
  }

  lemma ShedAdvanced(acc: bool, s: Slot, s': Slot, op: OpId, dead: set<Handle>)
    requires Settled(s, op) && op !in s.ops && s.lock != Some(op) && s.entry.Some? && s'.entry.Some?
    requires dead <= s.entry.value.retired
    requires forall h :: h in dead ==> h < |s.runtimes| && HasExited(s.runtimes[h])
    requires s' == Drop(s, dead).(entry := Some(s.entry.value.(
                                  retired := s.entry.value.retired - dead, draining := s'.entry.value.draining)))
    requires |s.entry.value.retired - dead| <= s'.entry.value.draining
    ensures Advanced(acc, s, s', op, dead)
  {
    ShedDropped(acc, s, s', op, dead);
    ShedEntry(s, s', dead);
    assert s' == s.(runtimes := s'.runtimes, entry := s'.entry);
    assert LockMoved(s, s', op);
    hide EntryShrunk; hide LockMoved; hide Drop; hide Dropped; hide Settled; hide IsRunning;
  }

  lemma ShedDropped(acc: bool, s: Slot, s': Slot, op: OpId, dead: set<Handle>)
    requires Settled(s, op) && op !in s.ops && s.entry.Some? && dead <= s.entry.value.retired
    requires forall h :: h in dead ==> h < |s.runtimes| && HasExited(s.runtimes[h])
    requires s'.runtimes == Drop(s, dead).runtimes
    ensures Dropped(acc, s, s', op, dead)
  {
    DropAt(s, dead);
    hide Drop; hide DroppedTo; hide HasExited;
  }

  lemma ShedEntry(s: Slot, s': Slot, dead: set<Handle>)
    requires s.entry.Some? && s'.entry.Some? && dead <= s.entry.value.retired
    requires s'.entry == Some(s.entry.value.(retired := s.entry.value.retired - dead, draining := s'.entry.value.draining))
    requires |s.entry.value.retired - dead| <= s'.entry.value.draining
    ensures EntryShrunk(s, s')
  {
    assert |s.entry.value.retired| == |s.entry.value.retired - dead| + |dead|;
  }

  lemma DropAt(s: Slot, hs: set<Handle>)
    ensures forall h :: 0 <= h < |s.runtimes| ==>
              if h in hs then DroppedTo(s.runtimes[h], Drop(s, hs).runtimes[h]) else Drop(s, hs).runtimes[h] == s.runtimes[h]
  {
  }

  lemma PruneKeeps(acc: bool, limit: nat, s: Slot)
    requires Inv(acc, limit, s) && s.entry.Some?
    ensures Inv(acc, limit, Pruned(s)) && Inv(acc, limit, Counted(Pruned(s)))
  {
    var dead := FinishedRetired(s);
    var x := s.entry.value;
    assert |x.retired - dead| <= x.draining by {
      assert EntryOk(s);
      assert |x.retired| == |x.retired - dead| + |dead|;
    }
    hide Inv;
    ShedKeeps(acc, limit, s, Pruned(s), dead);
    ShedKeeps(acc, limit, s, Counted(Pruned(s)), dead);
  }

  // ----- control actions -----

  lemma BeginKeeps(acc: bool, limit: nat, s: Slot, op: OpId, goal: Goal)
    requires Inv(acc, limit, s) && op !in s.ops && (goal.ToEnd? ==> !goal.kind.Exit?)
    ensures Inv(acc, limit, Go(s, op, Locating(goal)))
  {
    hide InvBut; hide EntryOk;
    ButAny(acc, limit, s, op);
    var s' := Go(s, op, Locating(goal));
    assert OpOk(s', op);
    assert LockMoved(s, s', op) by { assert GateOk(s); }
    hide Inv; hide InvBut; hide OpOk; hide LockMoved;
    GoKeeps(acc, limit, s, s', op);
  }

  lemma DeliverOp(acc: bool, limit: nat, s: Slot, op: OpId, e: Event)
    requires Inv(acc, limit, s) && op !in s.ops && e in s.events
    ensures var s' := Go(s, op, Locating(ToEnd(Exit(e)))).(events := s.events - multiset{e});
            OpOk(s', op) && LockMoved(s, s', op)
  {
    hide RuntimeOk; hide EntryOk; hide ConnOk;
    assert EventOk(s, e) && GateOk(s);
    hide Inv; hide InvBut;
  }

  lemma DeliverKeeps(acc: bool, limit: nat, s: Slot, op: OpId, e: Event)
    requires Inv(acc, limit, s) && ControlEnabled(acc, s, Deliver(op, e))
    ensures Inv(acc, limit, ControlNext(acc, s, Deliver(op, e)))
  {
    var s' := ControlNext(acc, s, Deliver(op, e));
    DeliverOp(acc, limit, s, op, e);
    hide Inv; hide InvBut; hide OpOk; hide LockMoved; hide EntryOk; hide GateOk;
    ButAny(acc, limit, s, op);
    GoKeeps(acc, limit, s, s', op);
  }

  lemma LocateKeeps(acc: bool, limit: nat, s: Slot, op: OpId)
    requires Inv(acc, limit, s) && ControlEnabled(acc, s, Locate(op))
    ensures Inv(acc, limit, DoLocate(s, op))
  {
    hide Inv; hide InvBut;
    ButAny(acc, limit, s, op);
    var s' := DoLocate(s, op);
    if s.entry.None? {
      hide OpOk; hide EntryOk; hide GateOk;
      ReturnKeeps(acc, limit, s, s', op);
    } else {
      assert OpOk(s', op) && LockMoved(s, s', op);
      hide OpOk; hide LockMoved; hide EntryOk; hide GateOk;
      GoKeeps(acc, limit, s, s', op);
    }
  }

  lemma AcquireKeeps(acc: bool, limit: nat, s: Slot, op: OpId)
    requires Inv(acc, limit, s) && ControlEnabled(acc, s, AcquireLock(op))
    ensures Inv(acc, limit, DoAcquire(s, op))
  {
    hide InvBut; hide EntryOk;
    ButAny(acc, limit, s, op);
    var s' := DoAcquire(s, op);
    assert OpOk(s', op);
    assert LockMoved(s, s', op);
    hide Inv; hide InvBut; hide OpOk; hide LockMoved;
    GoKeeps(acc, limit, s, s', op);
  }

  lemma AllJoinedKeeps(acc: bool, limit: nat, s: Slot, op: OpId)
    requires Inv(acc, limit, s) && ControlEnabled(acc, s, AllJoined(op))
    ensures Inv(acc, limit, Go(s, op, Ending(s.ops[op].kind, Erasing)))
  {
    hide InvBut; hide EntryOk;
    ButAny(acc, limit, s, op);
    var s' := Go(s, op, Ending(s.ops[op].kind, Erasing));
    assert OpOk(s', op);
    assert LockMoved(s, s', op);
    hide Inv; hide InvBut; hide OpOk; hide LockMoved;
    GoKeeps(acc, limit, s, s', op);
  }

  /** What an operation that is about to return while sessions are accepted owns: nothing. */
  lemma IdleReturnKeeps(acc: bool, limit: nat, s: Slot, s': Slot, op: OpId)
    requires Inv(acc, limit, s) && op in s.ops && Owned(s.ops[op]) == {} && !MidCutover(s.ops[op])
    requires s' == Return(s, op).(answers := s'.answers, reserved := s'.reserved)
    requires s'.reserved == s.reserved || (!s'.reserved && op == s.creator)
    ensures Inv(acc, limit, s')
  {
    hide InvBut; hide EntryOk;
    ButAny(acc, limit, s, op);
    hide Inv; hide InvBut;
    ReturnKeeps(acc, limit, s, s', op);
  }

  /** While sessions are no longer accepted, an operation may be dropped with all it owns. */
  lemma CancelKeeps(limit: nat, s: Slot, s': Slot, op: OpId)
    requires Inv(false, limit, s) && op in s.ops && !MidCutover(s.ops[op])
    requires s' == Return(s, op).(answers := s'.answers, reserved := s'.reserved)
    requires s'.reserved == s.reserved || (!s'.reserved && op == s.creator)
    ensures Inv(false, limit, s')
  {
    hide InvBut; hide EntryOk; hide GateOk;
    ButAny(false, limit, s, op);
    assert forall h :: h in Owned(s.ops[op]) ==> IsAt(s, h, Held(op));
    hide Inv; hide InvBut;
    ReturnKeeps(false, limit, s, s', op);
  }

  /** Only the one listener that carried the event's number can be dropped by it, and it has exited. */
  lemma NamedExited(s: Slot, op: OpId, e: Event, h: Handle)
    requires EndingAt(s, op) && s.ops[op].kind == Exit(e) && OpOk(s, op) && EntryOk(s) && s.entry.Some?
    requires h in Named(s, e.generation)
    ensures h == e.sender && HasExited(s.runtimes[h])
  {
    assert RetiredOk(s, h);
  }

  lemma ExitDropKeeps(acc: bool, limit: nat, s: Slot, op: OpId)
    requires Inv(acc, limit, s) && EndingAt(s, op) && s.ops[op].end.Deciding? && s.entry.Some?
    requires s.ops[op].kind.Exit? && s.entry.value.listenerGeneration != s.ops[op].kind.event.generation
    ensures Inv(acc, limit, DoDecide(s, op))
  {
    hide Inv; hide InvBut; hide OpOk; hide EntryOk; hide GateOk; hide Return;
    ButAny(acc, limit, s, op);
    var e := s.ops[op].kind.event;
    var dead := Named(s, e.generation);
    forall h | h in dead ensures HasExited(s.runtimes[h]) { NamedExited(s, op, e, h); }
    ShedKeeps(acc, limit, s, DropNamed(s, e.generation), dead);
    hide Drop;
    PlainReturnKeeps(acc, limit, DropNamed(s, e.generation), op);
  }

  lemma PlainReturnKeeps(acc: bool, limit: nat, s: Slot, op: OpId)
    requires Inv(acc, limit, s) && op in s.ops && Owned(s.ops[op]) == {} && !MidCutover(s.ops[op])
    ensures Inv(acc, limit, Return(s, op))
  {
    hide Inv;
    IdleReturnKeeps(acc, limit, s, Return(s, op), op);
  }

  lemma ShutJoinKeeps(acc: bool, limit: nat, s: Slot, op: OpId, h: Handle)
    requires Inv(acc, limit, s) && ControlEnabled(acc, s, Join(op, h)) && s.ops[op].Ending?
    ensures Inv(acc, limit, DoJoin(s, op, h))
  {
    hide Inv; hide InvBut; hide EntryOk;
    var s' := DoJoin(s, op, h);
    ButAny(acc, limit, s, op);
    InvSettled(acc, limit, s, op);
    assert s.lock == Some(op) ==> s.born && HoldsLock(s.ops[op]);
    hide GateOk;
    ShutJoinOp(s, op, h);
    assert HasExited(s.runtimes[h]) && s.ops[op].end.Shutting?;
    hide OpOk; hide Drop; hide Settled; hide Advanced;
    ShutJoinAdvanced(acc, s, s', op, h);
    Advances(acc, limit, s, s', op, {h});
  }

  lemma ShutJoinOp(s: Slot, op: OpId, h: Handle)
    requires EndingAt(s, op) && s.ops[op].end.Shutting? && h in s.ops[op].end.owned && OpOk(s, op)
    ensures IsAt(s, h, Held(op)) && OpOk(DoJoin(s, op, h), op)
  {
  }

  lemma ShutJoinAdvanced(acc: bool, s: Slot, s': Slot, op: OpId, h: Handle)
    requires Settled(s, op) && IsAt(s, h, Held(op)) && HasExited(s.runtimes[h])
    requires EndingAt(s, op) && s.ops[op].end.Shutting? && (s.lock == Some(op) ==> s.born && HoldsLock(s.ops[op]))
    requires s' == Go(Drop(s, {h}), op, Ending(s.ops[op].kind, Shutting(s.ops[op].end.owned - {h})))
    ensures Advanced(acc, s, s', op, {h})
  {
    if s.entry.Some? { assert s.entry.value.retired - {h} == s.entry.value.retired; }
  }
}
