module SlotSteps {
  import opened Basics
  import opened Config
  import opened Slots
  import opened SlotInvariants
  import opened SlotProofs

  // ----- steps that move an operation on and may drop listeners -----

  ghost predicate DroppedTo(r: Runtime, r': Runtime) {
    r' == r.(place := Gone, cancelled := true, aborted := true)
  }

  /** The registry entry keeps everything but some retired listeners. */
  ghost predicate EntryShrunk(s: Slot, s': Slot) {
    && s'.entry.Some? == s.entry.Some?
    && (s.entry.Some? ==>
          var x, x' := s.entry.value, s'.entry.value;
          && x' == x.(retired := x'.retired, draining := x'.draining)
          && x'.retired <= x.retired && |x'.retired| <= |x.retired| && |x'.retired| <= x'.draining)
  }

  ghost predicate LockMoved(s: Slot, s': Slot, op: OpId) {
    && (s'.lock == s.lock || (s.lock.None? && s'.lock == Some(op)) || (s.lock == Some(op) && s'.lock.None?))
    && (s'.lock == Some(op) ==> s'.born && op in s'.ops && HoldsLock(s'.ops[op]) && !MidCutover(s'.ops[op]))
    && (s.lock == Some(op) && op in s.ops ==> !MidCutover(s.ops[op]))
  }

  /** Exactly the listeners `hs`, which `op` held or which were retired, are dropped; `op` still owns the others it held. */
  ghost predicate Dropped(acc: bool, s: Slot, s': Slot, op: OpId, hs: set<Handle>) {
    && |s'.runtimes| == |s.runtimes|
    && (forall h :: 0 <= h < |s.runtimes| ==>
          if h in hs then DroppedTo(s.runtimes[h], s'.runtimes[h]) else s'.runtimes[h] == s.runtimes[h])
    && (forall h :: 0 <= h < |s.runtimes| && h in hs ==>
          (s.runtimes[h].place == Held(op) || s.runtimes[h].place == Retired) && (acc ==> HasExited(s.runtimes[h])))
    && (forall h :: 0 <= h < |s.runtimes| && h !in hs && s.runtimes[h].place == Held(op) ==>
          op in s'.ops && h in Owned(s'.ops[op]))
  }

  ghost predicate OthersSame(s: Slot, s': Slot, op: OpId) {
    forall o: nat :: o != op ==> (o in s'.ops <==> o in s.ops) && (o in s.ops ==> s'.ops[o] == s.ops[o])
  }

  /** `op` moves on, dropping the listeners `hs`. */
  ghost predicate Advanced(acc: bool, s: Slot, s': Slot, op: OpId, hs: set<Handle>) {
    && s' == s.(runtimes := s'.runtimes, entry := s'.entry, ops := s'.ops, lock := s'.lock,
    answers := s'.answers, events := s'.events, reserved := s'.reserved)
    && Dropped(acc, s, s', op, hs) && OthersSame(s, s', op)
    && EntryShrunk(s, s')
    && (s.entry.Some? ==> s'.entry.value.retired == s.entry.value.retired - hs)
    && LockMoved(s, s', op)
    && (ReloadingAt(s, op) && s.ops[op].reload.CuttingOver? ==> !acc || !IsRunning(s))
    && (forall e :: e in s'.events ==> e in s.events)
    && (s'.reserved == s.reserved || (!s'.reserved && op == s.creator))
  }

  lemma RuntimeAdvances(acc: bool, s: Slot, s': Slot, op: OpId, hs: set<Handle>, h: Handle)
    requires Advanced(acc, s, s', op, hs) && RuntimeOk(acc, s, h)
    ensures RuntimeOk(acc, s', h)
  {
  }

  lemma EntryAdvances(acc: bool, s: Slot, s': Slot, op: OpId, hs: set<Handle>)
    requires Advanced(acc, s, s', op, hs) && EntryOk(s)
    ensures EntryOk(s')
  {
    if s.entry.Some? {
      var x, x' := s.entry.value, s'.entry.value;
      forall h | h in x'.retired ensures RetiredOk(s', h) { RetiredAdvances(acc, s, s', op, hs, h); }
      if x.current.Some? { CurrentAdvances(acc, s, s', op, hs, x.current.value); }
      hide CurrentOk; hide RetiredOk; hide Dropped; hide OthersSame; hide LockMoved;
    }
  }

  lemma RetiredAdvances(acc: bool, s: Slot, s': Slot, op: OpId, hs: set<Handle>, h: Handle)
    requires Advanced(acc, s, s', op, hs) && RetiredOk(s, h) && h !in hs
    ensures RetiredOk(s', h)
  {
  }

  lemma CurrentAdvances(acc: bool, s: Slot, s': Slot, op: OpId, hs: set<Handle>, h: Handle)
    requires Advanced(acc, s, s', op, hs) && s.entry.Some? && CurrentOk(s, s.entry.value, h)
    ensures CurrentOk(s', s'.entry.value, h)
  {
  }

  lemma EventAdvances(acc: bool, s: Slot, s': Slot, op: OpId, hs: set<Handle>, e: Event)
    requires Advanced(acc, s, s', op, hs) && EventOk(s, e)
    ensures EventOk(s', e)
  {
  }

  lemma CapturedAdvances(acc: bool, s: Slot, s': Slot, op: OpId, hs: set<Handle>, got: Captured)
    requires Advanced(acc, s, s', op, hs)
    ensures (CapturedOk(s, got) ==> CapturedOk(s', got)) && (RoomToRetire(s) ==> RoomToRetire(s'))
  {
  }

  lemma PriorAdvances(acc: bool, s: Slot, s': Slot, op: OpId, hs: set<Handle>, o: OpId, prior: Handle)
    requires Advanced(acc, s, s', op, hs) && o != op && PriorOk(s, o, prior)
    ensures PriorOk(s', o, prior)
  {
  }

  lemma HeldAdvances(acc: bool, s: Slot, s': Slot, op: OpId, hs: set<Handle>, o: OpId, h: Handle)
    requires Advanced(acc, s, s', op, hs) && o != op && IsAt(s, h, Held(o))
    ensures h < |s'.runtimes| && s'.runtimes[h] == s.runtimes[h]
  {
  }

  lemma SameCore(acc: bool, s: Slot, s': Slot, op: OpId, hs: set<Handle>)
    requires Advanced(acc, s, s', op, hs)
    ensures s'.seed == s.seed && s'.persistent == s.persistent && s'.committed == s.committed && s'.gate == s.gate
  {
  }

  lemma ReloadAdvances(acc: bool, s: Slot, s': Slot, op: OpId, hs: set<Handle>, o: OpId, pc: ReloadPc)
    requires Advanced(acc, s, s', op, hs) && ReloadOk(s, o, pc) && o != op
    ensures ReloadOk(s', o, pc)
  {
    hide Advanced; hide CapturedOk; hide PriorOk; hide RoomToRetire;
    SameCore(acc, s, s', op, hs);
    forall got ensures (CapturedOk(s, got) ==> CapturedOk(s', got)) && (RoomToRetire(s) ==> RoomToRetire(s')) {
      CapturedAdvances(acc, s, s', op, hs, got);
    }
    match pc
    case CuttingOver(got, _, _, h) => HeldAdvances(acc, s, s', op, hs, o, h); CapturedAdvances(acc, s, s', op, hs, got);
    case Starting(got, _, _) => CapturedAdvances(acc, s, s', op, hs, got);
    case StoringGate(prior) => PriorAdvances(acc, s, s', op, hs, o, prior);
    case Retiring(prior) => PriorAdvances(acc, s, s', op, hs, o, prior);
    case Discarding(_, h) => HeldAdvances(acc, s, s', op, hs, o, h);
    case _ =>
  }

  lemma OpAdvances(acc: bool, s: Slot, s': Slot, op: OpId, hs: set<Handle>, o: OpId)
    requires Advanced(acc, s, s', op, hs) && OpOk(s, o) && o != op
    ensures OpOk(s', o)
  {
    hide ReloadOk;
    if o in s.ops {
      match s.ops[o] {
        case Locating(ToEnd(Exit(e))) => EventAdvances(acc, s, s', op, hs, e);
        case AwaitingLock(ToEnd(Exit(e))) => EventAdvances(acc, s, s', op, hs, e);
        case Ending(Exit(e), _) => EventAdvances(acc, s, s', op, hs, e);
        case Reloading(pc) => ReloadAdvances(acc, s, s', op, hs, o, pc);
        case _ =>
      }
    }
  }

  lemma GateAdvances(acc: bool, s: Slot, s': Slot, op: OpId, hs: set<Handle>)
    requires Advanced(acc, s, s', op, hs) && GateOk(s)
    ensures GateOk(s')
  {
    forall i: nat ensures CommittedOk(s', i) { assert CommittedOk(s, i); }
  }

  lemma ConnAdvances(acc: bool, s: Slot, s': Slot, op: OpId, hs: set<Handle>, c: ConnId)
    requires Advanced(acc, s, s', op, hs) && ConnOk(s, c)
    ensures ConnOk(s', c) && s'.conns == s.conns && s'.permits == s.permits
  {
  }

  lemma EventsAdvance(acc: bool, s: Slot, s': Slot, op: OpId, hs: set<Handle>)
    requires Advanced(acc, s, s', op, hs)
    ensures forall e :: e in s'.events ==> e in s.events
  {
  }

  lemma Advances(acc: bool, limit: nat, s: Slot, s': Slot, op: OpId, hs: set<Handle>)
    requires InvBut(acc, limit, s, op) && Advanced(acc, s, s', op, hs) && OpOk(s', op)
    ensures Inv(acc, limit, s')
  {
    hide OpOk; hide RuntimeOk; hide EventOk; hide ConnOk; hide EntryOk; hide GateOk; hide Advanced;
    forall h: nat ensures RuntimeOk(acc, s', h) { RuntimeAdvances(acc, s, s', op, hs, h); }
    forall o: nat ensures OpOk(s', o) { if o != op { OpAdvances(acc, s, s', op, hs, o); } }
    EventsAdvance(acc, s, s', op, hs);
    forall e | e in s'.events ensures EventOk(s', e) { EventAdvances(acc, s, s', op, hs, e); }
    forall c: nat ensures ConnOk(s', c) { ConnAdvances(acc, s, s', op, hs, c); }
    ConnAdvances(acc, s, s', op, hs, 0);
    EntryAdvances(acc, s, s', op, hs);
    GateAdvances(acc, s, s', op, hs);
  }
}
