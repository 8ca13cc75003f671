/** Actions that change what a session owns or serves: first listener, publication, teardown, cutover. */
module SlotTurns {
  import opened Basics
  import opened Config
  import opened Slots
  import opened SlotInvariants
  import opened SlotProofs
  import opened SlotSteps
  import opened SlotActions

  // ----- create -----

  lemma StartFirstKeeps(acc: bool, limit: nat, s: Slot, op: OpId, path: string)
    requires Inv(acc, limit, s) && ControlEnabled(acc, s, StartFirst(op, Some(path)))
    ensures Inv(acc, limit, DoStartFirst(s, op, Some(path)))
  {
    var s' := DoStartFirst(s, op, Some(path));
    assert s'.events == s.events && s'.conns == s.conns && s'.permits == s.permits;
    assert op in s.ops && s.ops[op].StartingFirst?;
    hide *;
    InvParts(acc, limit, s);
    Unlocked(s, op);
    FirstRuntime(acc, s, op, path);
    FirstRest(s, op, path);
    forall o: nat ensures OpOk(s', o) { FirstOps(s, op, path, o); }
    InvFrom(acc, limit, s');
  }

  lemma Unlocked(s: Slot, op: OpId)
    requires op in s.ops && IsCreate(s.ops[op]) && OpOk(s, op) && GateOk(s)
    ensures s.lock.None?
  {
  }

  lemma FirstRuntime(acc: bool, s: Slot, op: OpId, path: string)
    requires op in s.ops && s.ops[op].StartingFirst? && OpOk(s, op)
    ensures forall h: nat :: RuntimeOk(acc, DoStartFirst(s, op, Some(path)), h)
  {
    var s' := DoStartFirst(s, op, Some(path));
    assert s'.runtimes == [NewRuntime(1, path, Generation(s.ops[op].config, s.ops[op].secrets, s.seed), op)];
    assert s'.committed == [0];
    hide OpOk;
    forall h: nat ensures RuntimeOk(acc, s', h) {}
  }

  lemma FirstOps(s: Slot, op: OpId, path: string, o: OpId)
    requires op in s.ops && s.ops[op].StartingFirst? && OpOk(s, op) && OpOk(s, o) && s.lock.None?
    ensures OpOk(DoStartFirst(s, op, Some(path)), o)
  {
    var s' := DoStartFirst(s, op, Some(path));
    assert s'.runtimes == [NewRuntime(1, path, Generation(s.ops[op].config, s.ops[op].secrets, s.seed), op)];
    assert s'.committed == [0];
  }

  lemma FirstRest(s: Slot, op: OpId, path: string)
    requires op in s.ops && s.ops[op].StartingFirst? && OpOk(s, op) && GateOk(s) && s.lock.None?
    ensures var s' := DoStartFirst(s, op, Some(path));
            && EntryOk(s') && GateOk(s') && (forall e :: EventOk(s, e) ==> EventOk(s', e))
            && (forall c: nat :: ConnOk(s, c) ==> ConnOk(s', c))
  {
    var s' := DoStartFirst(s, op, Some(path));
    assert s'.runtimes == [NewRuntime(1, path, Generation(s.ops[op].config, s.ops[op].secrets, s.seed), op)];
    assert s'.committed == [0];
    forall i: nat ensures CommittedOk(s', i) {}
  }

  lemma PublishOthers(s: Slot, op: OpId, o: OpId)
    requires op in s.ops && s.ops[op].Publishing? && OpOk(s, op) && OpOk(s, o) && s.lock.None? && o != op
    ensures OpOk(DoPublish(true, s, op), o)
  {
  }

  lemma PublishRuntime(s: Slot, op: OpId, h: Handle)
    requires op in s.ops && s.ops[op].Publishing? && OpOk(s, op) && RuntimeOk(true, s, h) && s.lock.None?
    ensures RuntimeOk(true, DoPublish(true, s, op), h)
  {
  }

  lemma PublishRest(s: Slot, op: OpId)
    requires op in s.ops && s.ops[op].Publishing? && OpOk(s, op) && GateOk(s) && s.lock.None?
    ensures EntryOk(DoPublish(true, s, op)) && GateOk(DoPublish(true, s, op))
  {
    var s' := DoPublish(true, s, op);
    forall i: nat ensures CommittedOk(s', i) { assert CommittedOk(s, i); }
  }

  lemma PublishFrame(s: Slot, op: OpId)
    requires op in s.ops && s.ops[op].Publishing? && s.ops[op].first < |s.runtimes|
    ensures var s' := DoPublish(true, s, op);
            && op !in s'.ops && s'.events == s.events && s'.conns == s.conns && s'.permits == s.permits
            && (forall e :: EventOk(s, e) ==> EventOk(s', e)) && (forall c: nat :: ConnOk(s, c) ==> ConnOk(s', c))
  {
  }

  lemma PublishKeeps(limit: nat, s: Slot, op: OpId)
    requires Inv(true, limit, s) && ControlEnabled(true, s, Publish(op))
    ensures Inv(true, limit, DoPublish(true, s, op))
  {
    var s' := DoPublish(true, s, op);
    assert op in s.ops && s.ops[op].Publishing? && s.ops[op].first < |s.runtimes|;
    hide *;
    InvParts(true, limit, s);
    Unlocked(s, op);
    PublishFrame(s, op);
    PublishRest(s, op);
    AbsentOk(s', op);
    forall o: nat ensures OpOk(s', o) { if o != op { PublishOthers(s, op, o); } }
    forall h: nat ensures RuntimeOk(true, s', h) { PublishRuntime(s, op, h); }
    InvFrom(true, limit, s');
  }

  // ----- teardown -----

  /** While `op` holds the reload lock of a published session, no other operation is inside a reload. */
  ghost predicate Bystander(o: Op) {
    match o
    case Locating(_) => true
    case AwaitingLock(_) => true
    case Ending(kind, end) => kind.Sweep? && end.Shutting?
    case _ => false
  }

  lemma OthersStandBy(acc: bool, limit: nat, s: Slot, op: OpId, o: OpId)
    requires InvBut(acc, limit, s, op) && s.lock == Some(op) && s.born && o != op && o in s.ops
    ensures Bystander(s.ops[o])
  {
    assert OpOk(s, o);
  }

  /** What a bystander needs of the slot it watches. */
  lemma BystanderKeeps(s: Slot, s': Slot, o: OpId)
    requires o in s.ops && o in s'.ops && s'.ops[o] == s.ops[o] && Bystander(s.ops[o]) && OpOk(s, o)
    requires s'.born && (IsRunning(s') ==> IsRunning(s)) && |s'.runtimes| >= |s.runtimes| && s.committed <= s'.committed
    requires forall h :: 0 <= h < |s.runtimes| ==>
                           && s'.runtimes[h].generation == s.runtimes[h].generation
                           && (HasExited(s.runtimes[h]) ==> HasExited(s'.runtimes[h]))
                           && (s.runtimes[h].place == Held(o) ==> s'.runtimes[h].place == Held(o))
    ensures OpOk(s', o)
  {
  }

  /** Nothing that the operations other than `op` rely on has changed. */
  ghost predicate Watched(s: Slot, s': Slot, op: OpId) {
    && s'.born && (IsRunning(s') ==> IsRunning(s)) && |s'.runtimes| >= |s.runtimes| && s.committed <= s'.committed
    && (forall h :: 0 <= h < |s.runtimes| ==> Unmoved(s.runtimes[h], s'.runtimes[h], op))
    && (forall o :: o != op ==> (o in s'.ops <==> o in s.ops) && (o in s.ops ==> s'.ops[o] == s.ops[o]))
  }

  ghost predicate Unmoved(r: Runtime, r': Runtime, op: OpId) {
    && r'.generation == r.generation && (HasExited(r) ==> HasExited(r'))
    && (r.place.Held? && r.place.op != op ==> r'.place == r.place)
  }

  /** A step of the lock holder that is not watched keeps every other operation. */
  lemma OthersKeep(acc: bool, limit: nat, s: Slot, s': Slot, op: OpId, o: OpId)
    requires Inv(acc, limit, s) && s.lock == Some(op) && s.born && Watched(s, s', op) && o != op
    ensures OpOk(s', o)
  {
    hide OpOk; hide InvBut; hide Inv;
    ButAny(acc, limit, s, op);
    ButAny(acc, limit, s, o);
    if o in s.ops {
      OthersStandBy(acc, limit, s, op, o);
      assert forall h :: 0 <= h < |s.runtimes| ==> Unmoved(s.runtimes[h], s'.runtimes[h], op);
      BystanderKeeps(s, s', o);
    } else {
      AbsentOk(s', o);
    }
  }

  /** The parts of the invariant, one by one. */
  lemma InvParts(acc: bool, limit: nat, s: Slot)
    requires Inv(acc, limit, s)
    ensures (forall h: nat :: RuntimeOk(acc, s, h)) && EntryOk(s) && (forall op: nat :: OpOk(s, op)) && GateOk(s)
    ensures (forall e :: e in s.events ==> EventOk(s, e)) && (forall c: nat :: ConnOk(s, c))
    ensures s.permits + |s.conns| == limit
  {
    hide OpOk; hide RuntimeOk; hide EntryOk; hide GateOk; hide EventOk; hide ConnOk;
  }

  lemma InvFrom(acc: bool, limit: nat, s: Slot)
    requires (forall h: nat :: RuntimeOk(acc, s, h)) && EntryOk(s) && (forall op: nat :: OpOk(s, op)) && GateOk(s)
    requires (forall e :: e in s.events ==> EventOk(s, e)) && (forall c: nat :: ConnOk(s, c))
    requires s.permits + |s.conns| == limit
    ensures Inv(acc, limit, s)
  {
    hide OpOk; hide RuntimeOk; hide EntryOk; hide GateOk; hide EventOk; hide ConnOk;
  }

  lemma ReloadHolds(s: Slot, op: OpId)
    requires ReloadingAt(s, op) && OpOk(s, op)
    ensures s.lock == Some(op) && s.born
  {
    hide ReloadOk;
  }

  /** stop, remove, runtime_exit and a shutdown_all visit take every listener of the session. */
  ghost predicate TookAll(s: Slot, s': Slot, op: OpId, kind: EndKind) {
    s.entry.Some? && s' == TakeAll(s, op, kind)
  }

  lemma TakeRuntime(acc: bool, s: Slot, s': Slot, op: OpId, kind: EndKind, h: Handle)
    requires TookAll(s, s', op, kind) && RuntimeOk(acc, s, h) && op in s.ops && Owned(s.ops[op]) == {}
    ensures RuntimeOk(acc, s', h)
  {
  }

  lemma TakePlaces(s: Slot, s': Slot, op: OpId, kind: EndKind)
    requires TookAll(s, s', op, kind) && EntryOk(s)
    ensures forall h :: h in AllListeners(s.entry.value) ==> IsAt(s', h, Held(op)) && (IsAt(s, h, Current) || IsAt(s, h, Retired))
  {
    forall h | h in AllListeners(s.entry.value)
      ensures IsAt(s', h, Held(op)) && (IsAt(s, h, Current) || IsAt(s, h, Retired))
    {
      assert h in s.entry.value.retired ==> RetiredOk(s, h);
    }
  }

  lemma TakeOp(s: Slot, s': Slot, op: OpId, kind: EndKind)
    requires TookAll(s, s', op, kind) && OpOk(s, op) && EntryOk(s) && s.lock == Some(op)
    requires op in s.ops && s.ops[op] == Ending(kind, Deciding)
    ensures OpOk(s', op)
  {
    hide EntryOk;
    TakePlaces(s, s', op, kind);
  }

  lemma TakeBystander(s: Slot, s': Slot, op: OpId, kind: EndKind, o: OpId)
    requires TookAll(s, s', op, kind) && OpOk(s, o) && EntryOk(s) && s.born && o != op && o in s.ops && Bystander(s.ops[o])
    ensures OpOk(s', o)
  {
    hide EntryOk; hide OpOk;
    TakePlaces(s, s', op, kind);
    BystanderKeeps(s, s', o);
  }

  lemma TakeRest(acc: bool, s: Slot, s': Slot, op: OpId, kind: EndKind)
    requires TookAll(s, s', op, kind) && EntryOk(s) && GateOk(s) && s.lock == Some(op)
    requires op in s.ops && s.ops[op] == Ending(kind, Deciding)
    ensures EntryOk(s') && GateOk(s')
    ensures forall e :: EventOk(s, e) ==> EventOk(s', e)
    ensures forall c: nat :: ConnOk(s, c) ==> ConnOk(s', c)
  {
    TakeEntry(s, s', op, kind);
    TakeGate(s, s', op, kind);
    hide EntryOk; hide GateOk;
  }

  lemma TakeEntry(s: Slot, s': Slot, op: OpId, kind: EndKind)
    requires TookAll(s, s', op, kind) && EntryOk(s)
    ensures EntryOk(s')
  {
    hide MoveTo; hide AllListeners; hide CurrentOk; hide RetiredOk;
  }

  lemma TakeGate(s: Slot, s': Slot, op: OpId, kind: EndKind)
    requires TookAll(s, s', op, kind) && GateOk(s) && s.lock == Some(op) && op in s.ops && s.ops[op] == Ending(kind, Deciding)
    requires EntryOk(s)
    ensures GateOk(s')
  {
    assert s.born;
    hide EntryOk;
    forall i: nat ensures CommittedOk(s', i) { assert CommittedOk(s, i); }
  }

  lemma TakeKeeps(acc: bool, limit: nat, s: Slot, s': Slot, op: OpId, kind: EndKind)
    requires Inv(acc, limit, s) && op in s.ops && s.ops[op] == Ending(kind, Deciding) && TookAll(s, s', op, kind)
    ensures Inv(acc, limit, s')
  {
    hide EntryOk; hide RuntimeOk; hide GateOk; hide EventOk; hide ConnOk;
    ButAny(acc, limit, s, op);
    assert s.lock == Some(op) && s.born;
    forall o: nat ensures OpOk(s', o) {
      ButAny(acc, limit, s, o);
      if o == op { TakeOp(s, s', op, kind); }
      else if o in s.ops {
        OthersStandBy(acc, limit, s, op, o);
        TakeBystander(s, s', op, kind, o);
      }
    }
    hide OpOk;
    forall h: nat ensures RuntimeOk(acc, s', h) { TakeRuntime(acc, s, s', op, kind, h); }
    TakeRest(acc, s, s', op, kind);
  }

  lemma EraseRuntime(acc: bool, s: Slot, op: OpId, h: Handle)
    requires EndingAt(s, op) && Owned(s.ops[op]) == {} && s.entry.Some? && !IsRunning(s) && EntryOk(s) && RuntimeOk(acc, s, h)
    ensures RuntimeOk(acc, DoErase(s, op), h)
  {
  }

  lemma EraseRest(s: Slot, op: OpId)
    requires EndingAt(s, op) && s.ops[op].end.Erasing? && s.entry.Some? && OpOk(s, op) && GateOk(s) && s.lock == Some(op)
    ensures OpOk(DoErase(s, op), op) && GateOk(DoErase(s, op))
    ensures forall e :: EventOk(s, e) ==> EventOk(DoErase(s, op), e)
    ensures forall c: nat :: ConnOk(s, c) ==> ConnOk(DoErase(s, op), c)
  {
    var s' := DoErase(s, op);
    forall i: nat ensures CommittedOk(s', i) { assert CommittedOk(s, i); }
  }

  lemma EraseKeeps(acc: bool, limit: nat, s: Slot, op: OpId)
    requires Inv(acc, limit, s) && EndingAt(s, op) && s.ops[op].end.Erasing? && s.entry.Some?
    ensures Inv(acc, limit, DoErase(s, op))
  {
    hide EntryOk; hide RuntimeOk; hide GateOk; hide EventOk; hide ConnOk;
    var s' := DoErase(s, op);
    ButAny(acc, limit, s, op);
    assert s.lock == Some(op) && s.born && !IsRunning(s);
    hide OpOk;
    EraseRest(s, op);
    forall o: nat ensures OpOk(s', o) {
      if o != op {
        ButAny(acc, limit, s, o);
        if o in s.ops {
          OthersStandBy(acc, limit, s, op, o);
          BystanderKeeps(s, s', o);
        } else { AbsentOk(s', o); }
      }
    }
    forall h: nat ensures RuntimeOk(acc, s', h) { EraseRuntime(acc, s, op, h); }
    EmptyEntry(s');
  }

  lemma AbsentOk(s: Slot, o: OpId)
    requires o !in s.ops
    ensures OpOk(s, o)
  {
  }

  lemma EmptyEntry(s: Slot)
    requires s.entry.None?
    ensures EntryOk(s)
  {
  }

  lemma SignalKeeps(acc: bool, limit: nat, s: Slot, h: Handle, r: Runtime)
    requires Inv(acc, limit, s) && h < |s.runtimes| && Alike(s.seed, s.runtimes[h], r)
    requires r.tracked == s.runtimes[h].tracked
    ensures Inv(acc, limit, Update(s, h, r))
  {
    var s' := Update(s, h, r);
    forall c: nat ensures ConnOk(s', c) { assert ConnOk(s, c); }
    hide *;
    Framing(acc, limit, s, s');
  }
}
