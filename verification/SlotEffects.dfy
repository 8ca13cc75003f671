/** Which actions change what the daemon counts: registry entry, `provisioning` mark, pending gauge decrement. */
module SlotEffects {
  import opened Basics
  import opened Config
  import opened Slots
  import opened SlotInvariants
  import Effective

  predicate IsCounting(op: Op) { op.Ending? && op.end.Counting? }

  /** A removed session whose gauge decrement has not happened yet. */
  predicate Owing(s: Slot) { s.lock.Some? && s.lock.value in s.ops && IsCounting(s.ops[s.lock.value]) }

  predicate Begins(a: Action) {
    match a
    case ByControl(c) => c.BeginEnd? || c.Deliver?
    case ByReload(r) => r.BeginReload?
    case ByListener(_) => false
  }

  /** Actions that change the counts; handled one by one. */
  predicate Counts(a: Action) {
    a.ByControl? && (a.control.Publish? || a.control.Unreserve? || a.control.Erase? || a.control.Count?)
  }

  ghost predicate SameKind(o: Op, o': Op) {
    && IsCleanup(o') == IsCleanup(o) && IsSweep(o') == IsSweep(o) && IsCounting(o') == IsCounting(o) && IsCreate(o') == IsCreate(o)
  }

  /** At most operation `op` moves, within its kind, and neither the entry nor the mark comes or goes. */
  ghost predicate Moves(s: Slot, s': Slot, op: OpId) {
    && s'.entry.Some? == s.entry.Some? && s'.reserved == s.reserved
    && (|| s'.ops == s.ops
        || (op in s.ops && !IsCounting(s.ops[op]) && s'.ops == s.ops - {op})
        || (op in s.ops && op in s'.ops && s'.ops == s.ops[op := s'.ops[op]] && SameKind(s.ops[op], s'.ops[op])))
  }

  lemma ReturnMoves(s: Slot, op: OpId)
    requires op in s.ops && !IsCounting(s.ops[op])
    ensures Moves(s, Return(s, op), op)
  {
    hide Return;
  }

  lemma ReplyMoves(s: Slot, op: OpId, answer: Answer)
    requires op in s.ops && !IsCounting(s.ops[op])
    ensures Moves(s, Reply(s, op, answer), op)
  {
    hide Reply;
  }

  lemma GoMoves(s: Slot, op: OpId, next: Op)
    requires op in s.ops && SameKind(s.ops[op], next)
    ensures Moves(s, Go(s, op, next), op)
  {
  }

  lemma FirstMoves(s: Slot, op: OpId, path: Option<string>)
    requires op in s.ops && s.ops[op].StartingFirst?
    ensures Moves(s, DoStartFirst(s, op, path), op)
  {
  }

  lemma LocateMoves(s: Slot, op: OpId)
    requires op in s.ops && s.ops[op].Locating?
    ensures Moves(s, DoLocate(s, op), op)
  {
    hide Return; hide Moves;
    ReturnMoves(s, op);
    GoMoves(s, op, AwaitingLock(s.ops[op].goal));
  }

  lemma AcquireMoves(s: Slot, op: OpId)
    requires op in s.ops && s.ops[op].AwaitingLock?
    ensures Moves(s, DoAcquire(s, op), op)
  {
  }

  lemma DecideMoves(s: Slot, op: OpId)
    requires EndingAt(s, op) && s.ops[op].end.Deciding?
    ensures Moves(s, DoDecide(s, op), op)
  {
    hide Return; hide DropNamed; hide TakeAll; hide Moves; hide AlreadyEnding;
    var kind := s.ops[op].kind;
    ReturnMoves(s, op);
    if s.entry.Some? {
      TakeAllMoves(s, op);
      if kind.Exit? {
        var u := DropNamed(s, kind.event.generation);
        DropNamedMoves(s, kind.event.generation);
        ReturnMoves(u, op);
        MovesFrom(s, u, Return(u, op), op);
      }
    }
  }

  lemma DropNamedMoves(s: Slot, g: nat)
    requires s.entry.Some?
    ensures var u := DropNamed(s, g); u.ops == s.ops && u.entry.Some? && u.reserved == s.reserved
  {
    hide Drop; hide Named;
  }

  lemma TakeAllMoves(s: Slot, op: OpId)
    requires EndingAt(s, op) && s.ops[op].end.Deciding? && s.entry.Some?
    ensures Moves(s, TakeAll(s, op, s.ops[op].kind), op)
  {
    hide MoveTo; hide AllListeners; hide Ended;
  }

  lemma JoinMoves(s: Slot, op: OpId, h: Handle)
    requires ShuttingDown(s, op, h)
    ensures Moves(s, DoJoin(s, op, h), op)
  {
    hide Reply; hide Drop;
  }

  lemma ControlMoves(acc: bool, s: Slot, c: Control)
    requires ControlEnabled(acc, s, c) && !Begins(ByControl(c)) && !Counts(ByControl(c)) && !c.Prune?
    ensures Moves(s, ControlNext(acc, s, c), c.op)
  {
    hide DoStartFirst; hide DoLocate; hide DoAcquire; hide DoDecide; hide DoJoin; hide Return;
    match c
    case StartFirst(op, path) => hide Moves; FirstMoves(s, op, path);
    case Locate(op) => hide Moves; LocateMoves(s, op);
    case AcquireLock(op) => hide Moves; AcquireMoves(s, op);
    case Decide(op) => hide Moves; DecideMoves(s, op);
    case Join(op, h) => hide Moves; JoinMoves(s, op, h);
    case Cancel(op) => hide Moves; ReturnMoves(s, op);
    case AllJoined(op) => GoMoves(s, op, Ending(s.ops[op].kind, Erasing)); hide Moves;
    case Signal(_, _) =>
    case Abort(_, _) =>
  }

  lemma PrunedMoves(s: Slot)
    requires s.entry.Some?
    ensures Pruned(s).ops == s.ops && Pruned(s).entry.Some? && Pruned(s).reserved == s.reserved
  {
    hide Drop; hide FinishedRetired;
  }

  lemma MovesFrom(s: Slot, p: Slot, s': Slot, op: OpId)
    requires p.ops == s.ops && p.entry.Some? == s.entry.Some? && p.reserved == s.reserved && Moves(p, s', op)
    ensures Moves(s, s', op)
  {
  }

  lemma PrepareMoves(acc: bool, s: Slot, op: OpId)
    requires ReloadingAt(s, op)
    ensures Moves(s, DoPrepare(acc, s, op), op)
  {
    hide Reply; hide Moves; hide Pruned; hide Go;
    ReplyMoves(s, op, Failed);
    if s.entry.Some? {
      PrunedMoves(s);
      var p := Counted(Pruned(s));
      ReplyMoves(p, op, Failed);
      forall next: ReloadPc ensures Moves(p, Go(p, op, Reloading(next)), op) { GoMoves(p, op, Reloading(next)); }
      MovesFrom(s, p, DoPrepare(acc, s, op), op);
    }
  }

  lemma PlanMoves(acc: bool, s: Slot, op: OpId)
    requires ReloadingAt(s, op) && s.ops[op].reload.Planning?
    ensures Moves(s, DoPlan(acc, s, op), op)
  {
    hide Reply; hide Moves; hide Pruned; hide Go;
    ReplyMoves(s, op, Failed);
    if acc && s.entry.Some? {
      PrunedMoves(s);
      var p := Pruned(s);
      ReplyMoves(p, op, Failed);
      forall next: ReloadPc ensures Moves(p, Go(p, op, Reloading(next)), op) { GoMoves(p, op, Reloading(next)); }
      MovesFrom(s, p, DoPlan(acc, s, op), op);
    }
  }

  lemma SelectMoves(acc: bool, s: Slot, op: OpId)
    requires ReloadEnabled(s, Select(op))
    ensures Moves(s, DoSelect(acc, s, op), op)
  {
    hide KeepLive; hide Reply;
  }

  lemma CutOverMoves(acc: bool, s: Slot, op: OpId)
    requires ReloadEnabled(s, CutOver(op))
    ensures Moves(s, DoCutOver(acc, s, op), op)
  {
    hide Reply; hide MoveTo;
  }

  lemma ReloadMoves(acc: bool, s: Slot, r: Reload)
    requires ReloadEnabled(s, r) && !r.BeginReload?
    ensures Moves(s, ReloadNext(acc, s, r), r.op)
  {
    hide DoPrepare; hide DoPlan; hide DoSelect; hide DoCutOver; hide Effective.SameConfiguration; hide Reply;
    match r
    case Prepare(op) => hide Moves; PrepareMoves(acc, s, op);
    case Plan(op) => hide Moves; PlanMoves(acc, s, op);
    case Select(op) => hide Moves; SelectMoves(acc, s, op);
    case CutOver(op) => hide Moves; CutOverMoves(acc, s, op);
    case Read(op, _) => ReplyMoves(s, op, Failed);
    case Compare(op) => ReplyMoves(s, op, Failed); ReplyMoves(s, op, Unchanged);
    case StartReplacement(op, ok) => ReplyMoves(s, op, Failed);
    case StoreGate(_) =>
    case Retire(_) =>
  }

  lemma ListenerMoves(s: Slot, l: Listener)
    requires ListenerEnabled(s, l)
    ensures Moves(s, ListenerNext(s, l), 0)
  {
    hide ListenerNext;
  }

  /** The operation an action belongs to. */
  function Mover(a: Action): OpId {
    match a
    case ByControl(c) => if c.Prune? then 0 else c.op
    case ByReload(r) => r.op
    case ByListener(_) => 0
  }

  lemma ActionMoves(acc: bool, s: Slot, a: Action)
    requires Enabled(acc, s, a) && !Begins(a) && !Counts(a)
    ensures Moves(s, Next(acc, s, a), Mover(a))
  {
    match a
    case ByControl(c) => if c.Prune? { PrunedMoves(s); hide Pruned; } else { hide ControlNext; hide Moves; ControlMoves(acc, s, c); }
    case ByReload(r) => hide ReloadNext; ReloadMoves(acc, s, r);
    case ByListener(l) => hide ListenerNext; ListenerMoves(s, l);
  }

  /** Ordinary actions leave entry, mark and debt as they are. */
  lemma OwingMoves(acc: bool, limit: nat, s: Slot, s': Slot, op: OpId)
    requires Inv(acc, limit, s) && Inv(acc, limit, s') && Moves(s, s', op)
    ensures Owing(s') == Owing(s)
  {
    hide RuntimeOk; hide EntryOk; hide ConnOk; hide EventOk;
    if Owing(s) { assert OpOk(s', s.lock.value); }
    if Owing(s') { assert OpOk(s, s'.lock.value); }
  }

  lemma Quiet(acc: bool, limit: nat, s: Slot, a: Action)
    requires Inv(acc, limit, s) && Enabled(acc, s, a) && !Begins(a) && !Counts(a)
    requires Inv(acc, limit, Next(acc, s, a))
    ensures var s' := Next(acc, s, a);
            s'.entry.Some? == s.entry.Some? && s'.reserved == s.reserved && Owing(s') == Owing(s)
  {
    hide Inv; hide Next;
    ActionMoves(acc, s, a);
    OwingMoves(acc, limit, s, Next(acc, s, a), Mover(a));
  }
}
