/** Listener cutover: start a replacement, install it, move the gate, retire the old listener. */
module SlotCutover {
  import opened Basics
  import opened Config
  import opened Slots
  import opened SlotInvariants
  import opened SlotProofs
  import opened SlotSteps
  import opened SlotActions
  import opened SlotTurns
  import opened SlotReloads

  // ----- start the replacement -----

  lemma StartRuntime(acc: bool, s: Slot, op: OpId, h: Handle)
    requires ReloadingAt(s, op) && s.ops[op].reload.Starting? && OpOk(s, op) && RuntimeOk(acc, s, h)
    ensures RuntimeOk(acc, DoStartReplacement(s, op, true), h)
  {
  }

  lemma StartEntry(s: Slot, op: OpId)
    requires ReloadingAt(s, op) && s.ops[op].reload.Starting? && EntryOk(s)
    ensures EntryOk(DoStartReplacement(s, op, true))
  {
    var s' := DoStartReplacement(s, op, true);
    if s.entry.Some? {
      forall k | k in s'.entry.value.retired ensures RetiredOk(s', k) { assert RetiredOk(s, k); }
    }
  }

  lemma StartRest(s: Slot, op: OpId)
    requires ReloadingAt(s, op) && s.ops[op].reload.Starting? && OpOk(s, op) && GateOk(s)
    ensures OpOk(DoStartReplacement(s, op, true), op) && GateOk(DoStartReplacement(s, op, true))
    ensures forall e :: EventOk(s, e) ==> EventOk(DoStartReplacement(s, op, true), e)
    ensures forall c: nat :: ConnOk(s, c) ==> ConnOk(DoStartReplacement(s, op, true), c)
  {
    var s' := DoStartReplacement(s, op, true);
    forall i: nat ensures CommittedOk(s', i) { assert CommittedOk(s, i); }
  }

  lemma StartWatched(s: Slot, op: OpId)
    requires ReloadingAt(s, op) && s.ops[op].reload.Starting? && s.born
    ensures Watched(s, DoStartReplacement(s, op, true), op)
  {
  }

  lemma StartReplacementKeeps(acc: bool, limit: nat, s: Slot, op: OpId)
    requires Inv(acc, limit, s) && ReloadEnabled(s, StartReplacement(op, true))
    ensures Inv(acc, limit, DoStartReplacement(s, op, true))
  {
    var s' := DoStartReplacement(s, op, true);
    assert ReloadingAt(s, op) && s.ops[op].reload.Starting?;
    assert s'.events == s.events && s'.conns == s.conns && s'.permits == s.permits;
    hide *;
    InvParts(acc, limit, s);
    ReloadHolds(s, op);
    StartWatched(s, op);
    StartEntry(s, op);
    StartRest(s, op);
    forall o: nat ensures OpOk(s', o) { if o != op { OthersKeep(acc, limit, s, s', op, o); } }
    forall k: nat ensures RuntimeOk(acc, s', k) { StartRuntime(acc, s, op, k); }
    InvFrom(acc, limit, s');
  }

  // ----- install -----

  ghost predicate CanInstall(s: Slot, op: OpId, prior: Handle) {
    && ReloadingAt(s, op) && s.ops[op].reload.CuttingOver? && OpOk(s, op) && EntryOk(s)
    && IsRunning(s) && s.entry.value.current == Some(prior) && prior < |s.runtimes|
  }

  lemma PoliciesSame(seed: Seed, r: Runtime, r': Runtime)
    requires PoliciesOk(seed, r) && r'.gens == r.gens && r'.tracked == r.tracked && r'.accept == r.accept
    ensures PoliciesOk(seed, r')
  {
  }

  /** The facts about the two listeners of a cutover. */
  ghost predicate Ready(s: Slot, op: OpId, prior: Handle) {
    && ReloadingAt(s, op) && s.ops[op].reload.CuttingOver? && s.lock == Some(op) && s.born && IsRunning(s)
    && s.entry.value.current == Some(prior) && IsAt(s, prior, Current)
    && |s.committed| > 0 && s.committed[|s.committed| - 1] == prior
    && var c := s.ops[op].reload;
       IsAt(s, c.replacement, Held(op)) && c.next == |s.committed| + 1 <= U64_MAX && s.runtimes[c.replacement].generation == c.next
  }

  lemma InstallReady(s: Slot, op: OpId, prior: Handle)
    requires CanInstall(s, op, prior)
    ensures Ready(s, op, prior)
  {
  }

  lemma InstallCommitted(s: Slot, op: OpId, prior: Handle, h: Handle)
    requires Ready(s, op, prior) && RuntimeOk(true, s, h) && h < |s.runtimes|
    ensures IsCommitted(Install(s, op, prior), h)
  {
    hide PoliciesOk;
    if !IsCommitted(s, h) { assert h == s.ops[op].reload.replacement; }
  }

  lemma InstallPlace(s: Slot, op: OpId, prior: Handle, h: Handle)
    requires Ready(s, op, prior) && h < |s.runtimes| && PlaceOk(s, h)
    ensures PlaceOk(Install(s, op, prior), h)
  {
  }

  lemma InstallRuntime(s: Slot, op: OpId, prior: Handle, h: Handle)
    requires Ready(s, op, prior) && RuntimeOk(true, s, h)
    ensures RuntimeOk(true, Install(s, op, prior), h)
  {
    if h < |s.runtimes| {
      InstallCommitted(s, op, prior, h);
      InstallPlace(s, op, prior, h);
      PoliciesSame(s.seed, s.runtimes[h], Install(s, op, prior).runtimes[h]);
      hide PoliciesOk; hide Stray; hide IsCommitted; hide PlaceOk;
    }
  }

  lemma InstallEntry(s: Slot, op: OpId, prior: Handle)
    requires CanInstall(s, op, prior)
    ensures EntryOk(Install(s, op, prior))
  {
    var s' := Install(s, op, prior);
    forall k | k in s'.entry.value.retired ensures RetiredOk(s', k) { assert RetiredOk(s, k); }
  }

  lemma InstallOp(s: Slot, op: OpId, prior: Handle)
    requires Ready(s, op, prior) && RoomToRetire(s) && !RegistryHeld(s) && GateOk(s)
    ensures OpOk(Install(s, op, prior), op)
  {
    assert CommittedOk(s, |s.committed| - 1);
    assert s.gate == |s.committed|;
    hide GateOk;
    var s' := Install(s, op, prior);
    assert PriorOk(s', op, prior);
  }

  lemma InstallRest(s: Slot, op: OpId, prior: Handle)
    requires Ready(s, op, prior) && !RegistryHeld(s) && GateOk(s)
    ensures GateOk(Install(s, op, prior))
    ensures forall e :: EventOk(s, e) ==> EventOk(Install(s, op, prior), e)
    ensures forall c: nat :: ConnOk(s, c) ==> ConnOk(Install(s, op, prior), c)
  {
    var s' := Install(s, op, prior);
    forall i: nat ensures CommittedOk(s', i) { assert CommittedOk(s, i); }
  }

  lemma InstallWatched(s: Slot, op: OpId, prior: Handle)
    requires Ready(s, op, prior)
    ensures Watched(s, Install(s, op, prior), op)
  {
    var s' := Install(s, op, prior);
    forall h | 0 <= h < |s.runtimes| ensures Unmoved(s.runtimes[h], s'.runtimes[h], op) {}
  }

  lemma InstallFrame(s: Slot, op: OpId, prior: Handle)
    requires CanInstall(s, op, prior)
    ensures var s' := Install(s, op, prior); s'.events == s.events && s'.conns == s.conns && s'.permits == s.permits
    ensures RoomToRetire(s)
  {
    hide EntryOk; hide MoveTo;
  }

  lemma LockReady(s: Slot, op: OpId, prior: Handle)
    requires Ready(s, op, prior)
    ensures s.lock == Some(op) && s.born
  {
  }

  lemma InstallKeeps(limit: nat, s: Slot, op: OpId, prior: Handle)
    requires Inv(true, limit, s) && CanInstall(s, op, prior) && !RegistryHeld(s)
    ensures Inv(true, limit, Install(s, op, prior))
  {
    InstallFrame(s, op, prior);
    var s' := Install(s, op, prior);
    hide *;
    InvParts(true, limit, s);
    InstallReady(s, op, prior);
    LockReady(s, op, prior);
    InstallWatched(s, op, prior);
    InstallOp(s, op, prior);
    InstallEntry(s, op, prior);
    InstallRest(s, op, prior);
    forall o: nat ensures OpOk(s', o) { if o != op { OthersKeep(true, limit, s, s', op, o); } }
    forall k: nat ensures RuntimeOk(true, s', k) { InstallRuntime(s, op, prior, k); }
    InvFrom(true, limit, s');
  }

  lemma RunningHasCurrent(s: Slot)
    requires EntryOk(s) && IsRunning(s)
    ensures s.entry.value.current.Some? && s.entry.value.current.value < |s.runtimes|
  {
  }

  lemma DiscardOp(s: Slot, s': Slot, op: OpId)
    requires ReloadingAt(s, op) && s.ops[op].reload.CuttingOver? && OpOk(s, op)
    requires var c := s.ops[op].reload; s' == Go(s, op, Reloading(Discarding(c.got, c.replacement)))
    ensures OpOk(s', op) && LockMoved(s, s', op)
  {
  }

  lemma CutOverKeeps(acc: bool, limit: nat, s: Slot, op: OpId)
    requires Inv(acc, limit, s) && ReloadEnabled(s, CutOver(op)) && !RegistryHeld(s)
    ensures Inv(acc, limit, DoCutOver(acc, s, op))
  {
    hide InvBut; hide Inv; hide GateOk; hide OpOk; hide EntryOk; hide Install; hide LockMoved; hide Reply;
    ButAny(acc, limit, s, op);
    if !acc || !IsRunning(s) {
      var s' := DoCutOver(acc, s, op);
      DiscardOp(s, s', op);
      GoKeeps(acc, limit, s, s', op);
    } else {
      RunningHasCurrent(s);
      InstallKeeps(limit, s, op, s.entry.value.current.value);
    }
  }

  // ----- gate and retirement -----

  lemma StoreGateOp(s: Slot, op: OpId)
    requires ReloadEnabled(s, StoreGate(op)) && OpOk(s, op) && EntryOk(s) && GateOk(s)
    ensures OpOk(DoStoreGate(s, op), op) && GateOk(DoStoreGate(s, op)) && EntryOk(DoStoreGate(s, op))
  {
    var s' := DoStoreGate(s, op);
    forall i: nat ensures CommittedOk(s', i) { assert CommittedOk(s, i); }
    forall k | k in s'.entry.value.retired ensures RetiredOk(s', k) { assert RetiredOk(s, k); }
  }

  lemma StoreGateRuntime(acc: bool, s: Slot, op: OpId, h: Handle)
    requires ReloadEnabled(s, StoreGate(op)) && OpOk(s, op) && RuntimeOk(acc, s, h)
    ensures RuntimeOk(acc, DoStoreGate(s, op), h)
  {
  }

  lemma StoreGateRest(s: Slot, op: OpId)
    requires ReloadEnabled(s, StoreGate(op)) && s.born
    ensures Watched(s, DoStoreGate(s, op), op)
    ensures forall e :: EventOk(s, e) ==> EventOk(DoStoreGate(s, op), e)
    ensures forall c: nat :: ConnOk(s, c) ==> ConnOk(DoStoreGate(s, op), c)
  {
  }

  lemma StoreGateKeeps(acc: bool, limit: nat, s: Slot, op: OpId)
    requires Inv(acc, limit, s) && ReloadEnabled(s, StoreGate(op))
    ensures Inv(acc, limit, DoStoreGate(s, op))
  {
    var s' := DoStoreGate(s, op);
    assert ReloadingAt(s, op) && s'.events == s.events && s'.conns == s.conns && s'.permits == s.permits;
    hide *;
    InvParts(acc, limit, s);
    ReloadHolds(s, op);
    StoreGateOp(s, op);
    StoreGateRest(s, op);
    forall o: nat ensures OpOk(s', o) { if o != op { OthersKeep(acc, limit, s, s', op, o); } }
    forall k: nat ensures RuntimeOk(acc, s', k) { StoreGateRuntime(acc, s, op, k); }
    InvFrom(acc, limit, s');
  }

  lemma RetireRuntime(acc: bool, s: Slot, op: OpId, h: Handle)
    requires ReloadEnabled(s, Retire(op)) && PriorOk(s, op, s.ops[op].reload.prior) && RuntimeOk(acc, s, h)
    ensures RuntimeOk(acc, DoRetire(s, op), h)
  {
    if h < |s.runtimes| {
      PoliciesSame(s.seed, s.runtimes[h], DoRetire(s, op).runtimes[h]);
      hide PoliciesOk;
    }
  }

  lemma RetirePrior(s: Slot, op: OpId)
    requires ReloadEnabled(s, Retire(op)) && OpOk(s, op)
    ensures PriorOk(s, op, s.ops[op].reload.prior)
  {
  }

  lemma RetireRetired(s: Slot, op: OpId, k: Handle)
    requires ReloadEnabled(s, Retire(op)) && PriorOk(s, op, s.ops[op].reload.prior)
    requires k == s.ops[op].reload.prior || RetiredOk(s, k)
    ensures RetiredOk(DoRetire(s, op), k)
  {
  }

  lemma RetireCurrent(s: Slot, op: OpId, h: Handle)
    requires ReloadEnabled(s, Retire(op)) && PriorOk(s, op, s.ops[op].reload.prior) && CurrentOk(s, s.entry.value, h)
    ensures CurrentOk(DoRetire(s, op), DoRetire(s, op).entry.value, h)
  {
  }

  lemma RetireEntry(s: Slot, op: OpId)
    requires ReloadEnabled(s, Retire(op)) && PriorOk(s, op, s.ops[op].reload.prior) && EntryOk(s)
    ensures EntryOk(DoRetire(s, op))
  {
    var s', x, prior := DoRetire(s, op), s.entry.value, s.ops[op].reload.prior;
    forall k | k in x.retired + {prior} ensures RetiredOk(s', k) { RetireRetired(s, op, k); }
    if x.current.Some? { RetireCurrent(s, op, x.current.value); }
    assert |x.retired + {prior}| <= |x.retired| + 1;
    assert s'.entry == Some(x.(retired := x.retired + {prior}, draining := |x.retired + {prior}|));
    assert s' == s.(runtimes := s'.runtimes, entry := s'.entry, ops := s'.ops, answers := s'.answers, lock := s'.lock);
    hide RetiredOk; hide CurrentOk; hide DoRetire; hide IsAt; hide IsCommitted;
  }

  lemma RetireRest(s: Slot, op: OpId)
    requires ReloadEnabled(s, Retire(op)) && OpOk(s, op) && GateOk(s)
    ensures GateOk(DoRetire(s, op))
    ensures forall e :: EventOk(s, e) ==> EventOk(DoRetire(s, op), e)
    ensures forall c: nat :: ConnOk(s, c) ==> ConnOk(DoRetire(s, op), c)
  {
    var s' := DoRetire(s, op);
    forall i: nat ensures CommittedOk(s', i) { assert CommittedOk(s, i); }
  }

  lemma RetireWatched(s: Slot, op: OpId)
    requires ReloadEnabled(s, Retire(op)) && OpOk(s, op)
    ensures Watched(s, DoRetire(s, op), op) && op !in DoRetire(s, op).ops
  {
    var s' := DoRetire(s, op);
    assert s.born && s.runtimes[s.ops[op].reload.prior].place == Held(op);
    hide OpOk;
    forall h | 0 <= h < |s.runtimes| ensures Unmoved(s.runtimes[h], s'.runtimes[h], op) {}
  }

  lemma RetireKeeps(acc: bool, limit: nat, s: Slot, op: OpId)
    requires Inv(acc, limit, s) && ReloadEnabled(s, Retire(op))
    ensures Inv(acc, limit, DoRetire(s, op))
  {
    var s' := DoRetire(s, op);
    assert ReloadingAt(s, op) && s.ops[op].reload.Retiring? && s.entry.Some?;
    assert s'.events == s.events && s'.conns == s.conns && s'.permits == s.permits;
    hide *;
    InvParts(acc, limit, s);
    ReloadHolds(s, op);
    RetireWatched(s, op);
    AbsentOk(s', op);
    RetirePrior(s, op);
    RetireEntry(s, op);
    RetireRest(s, op);
    forall o: nat ensures OpOk(s', o) { if o != op { OthersKeep(acc, limit, s, s', op, o); } }
    forall k: nat ensures RuntimeOk(acc, s', k) { RetireRuntime(acc, s, op, k); }
    InvFrom(acc, limit, s');
  }
}
